/**
 The name conversions of the ontology generator over ASCII strings: recursive specifications of
 camelToScreamingSnake, snakeToPascal, splitCamel and toTitle, and exactly when they undo each other.
 */
module EnumCodec {
  import opened Ascii
  import opened Options

  predicate IsLetter(c: char) { IsUpper(c) || IsLower(c) }

  function ToUpper(c: char): char {
    if IsLower(c) then c - 'a' + 'A' else c
  }

  function ToLower(c: char): char {
    if IsUpper(c) then c - 'A' + 'a' else c
  }

  /** The cut both camel loops make: before an upper-case letter that a non-upper-case byte follows. */
  predicate WordCut(prev: Option<char>, s: string)
    requires s != ""
  {
    prev.Some? && IsUpper(s[0]) && |s| > 1 && !IsUpper(s[1])
  }

  /** The cut of camelToScreamingSnake: also after a lower-case letter. */
  predicate SnakeCut(prev: Option<char>, s: string)
    requires s != ""
  {
    WordCut(prev, s) || (prev.Some? && IsUpper(s[0]) && IsLower(prev.value))
  }

  /** What camelToScreamingSnake appends for the suffix `s`, given the byte before it. */
  function Snake(prev: Option<char>, s: string): string
    decreases |s|
  {
    if s == "" then ""
    else (if SnakeCut(prev, s) then "_" else "") + [ToUpper(s[0])] + Snake(Some(s[0]), s[1..])
  }

  /** splitCamel with its parts joined by blanks. */
  function Spaced(prev: Option<char>, s: string): string
    decreases |s|
  {
    if s == "" then ""
    else (if WordCut(prev, s) then " " else "") + [s[0]] + Spaced(Some(s[0]), s[1..])
  }

  /** The letter case snakeToPascal and toTitle give a byte: upper at the start of a part. */
  function Recase(start: bool, c: char): char {
    if start then ToUpper(ToLower(c)) else ToLower(c)
  }

  /** snakeToPascal from the middle of a name; `start` says that a part starts here. */
  function Pascal(start: bool, s: string): string
    decreases |s|
  {
    if s == "" then ""
    else if s[0] == '_' then Pascal(true, s[1..])
    else [Recase(start, s[0])] + Pascal(false, s[1..])
  }

  /** toTitle, which keeps a blank for every underscore. */
  function Title(start: bool, s: string): string
    decreases |s|
  {
    if s == "" then ""
    else if s[0] == '_' then " " + Title(true, s[1..])
    else [Recase(start, s[0])] + Title(false, s[1..])
  }

  function CamelToSnake(s: string): string { Snake(None, s) }

  function SnakeToPascal(s: string): string { Pascal(true, s) }

  function SplitCamel(s: string): string { Spaced(None, s) }

  function ToTitle(s: string): string { Title(true, s) }

  // ----- camel to snake and back -----

  /** Every upper-case letter that has a predecessor is cut off from it. */
  predicate CutAtUppers(prev: Option<char>, s: string)
    decreases |s|
  {
    s == "" || ((prev.Some? && IsUpper(s[0]) ==> SnakeCut(prev, s)) && CutAtUppers(Some(s[0]), s[1..]))
  }

  /** An upper-case letter here is followed by a non-upper-case byte or preceded by a lower-case letter. */
  predicate UpperIsCut(s: string, i: nat)
    requires 0 < i < |s|
  {
    IsUpper(s[i]) ==> IsLower(s[i - 1]) || (i + 1 < |s| && !IsUpper(s[i + 1]))
  }

  predicate CamelReturns(s: string) {
    '_' !in s && (s != "" ==> !IsLower(s[0])) && forall i :: 0 < i < |s| ==> UpperIsCut(s, i)
  }

  lemma {:induction false} CutsByIndex(s: string, k: nat)
    requires 0 < k <= |s|
    ensures CutAtUppers(Some(s[k - 1]), s[k..]) <==> forall i :: k <= i < |s| ==> UpperIsCut(s, i)
    decreases |s| - k
  {
    if k < |s| {
      CutsByIndex(s, k + 1);
      assert s[k..][1..] == s[k + 1..];
      assert UpperIsCut(s, k) <==> (IsUpper(s[k]) ==> SnakeCut(Some(s[k - 1]), s[k..]));
    }
  }

  lemma {:induction false} PascalHasNoUnderscore(start: bool, s: string)
    ensures '_' !in Pascal(start, s)
    decreases |s|
  {
    if s != "" {
      PascalHasNoUnderscore(s[0] == '_', s[1..]);
    }
  }

  /** Going to snake case and back keeps the length when there are no underscores. */
  lemma {:induction false} SnakeThenPascal(prev: Option<char>, s: string)
    requires '_' !in s && (prev.None? && s != "" ==> !IsLower(s[0]))
    ensures var back := Pascal(prev.None?, Snake(prev, s));
            |back| == |s| && (back == s <==> CutAtUppers(prev, s))
    decreases |s|
  {
    if s != "" {
      var rest := Snake(Some(s[0]), s[1..]);
      SnakeThenPascal(Some(s[0]), s[1..]);
      PascalOfPiece(prev.None?, SnakeCut(prev, s), ToUpper(s[0]), rest);
      SamePiece(Recase(prev.None? || SnakeCut(prev, s), ToUpper(s[0])), Pascal(false, rest), s);
      RecasedIff(prev.None? || SnakeCut(prev, s), s[0]);
    }
  }

  /** Pascal case of what the camel loop writes for one byte. */
  lemma PascalOfPiece(start: bool, cut: bool, u: char, rest: string)
    requires u != '_'
    ensures Pascal(start, (if cut then "_" else "") + [u] + rest) == [Recase(start || cut, u)] + Pascal(false, rest)
  {
    assert ([u] + rest)[1..] == rest;
    if cut {
      assert ("_" + [u] + rest)[1..] == [u] + rest;
    } else {
      assert "" + [u] + rest == [u] + rest;
    }
  }

  lemma SamePiece(x: char, back: string, s: string)
    requires s != "" && |back| == |s| - 1
    ensures |[x] + back| == |s| && ([x] + back == s <==> x == s[0] && back == s[1..])
  {
    SameHeadAndTail(x, back, s);
  }

  lemma RecasedIff(start: bool, a: char)
    ensures Recase(start, ToUpper(a)) == a <==> if start then !IsLower(a) else !IsUpper(a)
  {
  }

  /** snakeToPascal undoes camelToScreamingSnake on exactly these names. */
  lemma CamelRoundTrip(s: string)
    ensures SnakeToPascal(CamelToSnake(s)) == s <==> CamelReturns(s)
  {
    PascalHasNoUnderscore(true, CamelToSnake(s));
    if '_' !in s && s != "" {
      if IsLower(s[0]) {
        var rest := Snake(Some(s[0]), s[1..]);
        assert ([ToUpper(s[0])] + rest)[1..] == rest;
        assert SnakeToPascal(CamelToSnake(s))[0] == ToUpper(s[0]);
      } else {
        SnakeThenPascal(None, s);
        CutsByIndex(s, 1);
      }
    }
  }

  /** Words of one upper-case letter and at least one lower-case letter or digit return. */
  predicate CamelWords(s: string) {
    && (s != "" ==> IsUpper(s[0]))
    && (forall i :: 0 <= i < |s| ==> IsLetter(s[i]) || '0' <= s[i] <= '9')
    && (forall i :: 0 <= i < |s| && IsUpper(s[i]) ==> i + 1 < |s| && !IsUpper(s[i + 1]))
  }

  lemma CamelWordsReturn(s: string)
    requires CamelWords(s)
    ensures SnakeToPascal(CamelToSnake(s)) == s
  {
    CamelRoundTrip(s);
    forall i | 0 < i < |s|
      ensures UpperIsCut(s, i)
    {
    }
  }

  // ----- snake to camel and back -----

  /** The underscore here is put back: a letter that the camel loop cuts off follows it. */
  predicate SeparatorReturns(r: string, j: nat)
    requires j < |r|
  {
    r[j] == '_' ==>
      && 0 < j && j + 1 < |r| && IsUpper(r[j + 1])
      && ((j + 2 < |r| && r[j + 2] != '_') || (j >= 2 && IsLetter(r[j - 1]) && r[j - 2] != '_'))
  }

  predicate SnakeReturns(r: string) {
    forall j :: 0 <= j < |r| ==> !IsLower(r[j]) && SeparatorReturns(r, j)
  }

  /** The same test on a suffix: `prev` is the last byte written, `start` says that an underscore is pending. */
  predicate SuffixReturns(prev: Option<char>, start: bool, r: string)
    decreases |r|
  {
    if r == "" then !start
    else if r[0] == '_' then prev.Some? && !start && SuffixReturns(prev, true, r[1..])
    else
      && !IsLower(r[0])
      && (start ==> IsUpper(r[0]) && ((|r| > 1 && r[1] != '_') || (prev.Some? && IsLower(prev.value))))
      && SuffixReturns(Some(Recase(start || prev.None?, r[0])), false, r[1..])
  }

  /** Snake case of a Pascal suffix never starts with two underscores. */
  lemma PascalStart(start: bool, r: string)
    ensures Pascal(start, r) != "" ==> Pascal(start, r)[0] != '_'
  {
    PascalHasNoUnderscore(start, r);
  }

  /** The suffix with its pending underscore. */
  function Pended(start: bool, r: string): string {
    if start then ['_'] + r else r
  }

  lemma {:induction false} PascalThenSnake(prev: Option<char>, start: bool, r: string)
    requires prev.None? ==> !start
    ensures Snake(prev, Pascal(start || prev.None?, r)) == Pended(start, r) <==> SuffixReturns(prev, start, r)
    decreases |r|
  {
    if r == "" {
    } else if r[0] == '_' {
      assert r == ['_'] + r[1..];
      PascalStart(true, r[1..]);
      if prev.Some? && !start {
        PascalThenSnake(prev, true, r[1..]);
      } else {
        SnakeNeverDoubles(prev, Pascal(true, r[1..]), start, r);
      }
    } else {
      var c := Recase(start || prev.None?, r[0]);
      PascalThenSnake(Some(c), false, r[1..]);
      LetterThenSnake(prev, start, r, c, Pascal(false, r[1..]));
    }
  }

  /** One byte of a part, given what is known of the rest. */
  lemma LetterThenSnake(prev: Option<char>, start: bool, r: string, c: char, p: string)
    requires prev.None? ==> !start
    requires r != "" && r[0] != '_' && c == Recase(start || prev.None?, r[0]) && p == Pascal(false, r[1..])
    requires Snake(Some(c), p) == r[1..] <==> SuffixReturns(Some(c), false, r[1..])
    ensures Snake(prev, [c] + p) == Pended(start, r) <==> SuffixReturns(prev, start, r)
  {
    var tail := [ToUpper(c)] + Snake(Some(c), p);
    var cut := SnakeCut(prev, [c] + p);
    assert ([c] + p)[1..] == p;
    assert Snake(prev, [c] + p) == if cut then ['_'] + tail else tail;
    SameHeadAndTail(ToUpper(c), Snake(Some(c), p), r);
    if start {
      SameAfterHead('_', tail, r);
      assert !cut ==> tail[0] != (['_'] + r)[0];
      if SuffixReturns(Some(c), false, r[1..]) && !IsLower(r[0]) {
        CutDecided(prev, r, c, p);
      }
    }
  }

  /** With an underscore pending, the camel loop cuts here exactly as the suffix test says. */
  lemma CutDecided(prev: Option<char>, r: string, c: char, p: string)
    requires prev.Some? && r != "" && r[0] != '_' && c == Recase(true, r[0]) && p == Pascal(false, r[1..])
    requires SuffixReturns(Some(c), false, r[1..]) && !IsLower(r[0])
    ensures SnakeCut(prev, [c] + p) <==> IsUpper(r[0]) && ((|r| > 1 && r[1] != '_') || IsLower(prev.value))
  {
    NextAfterPascal(r[1..]);
    if |r| > 1 && r[1] == '_' {
      assert r[1..][1..] == r[2..];
      assert SuffixReturns(Some(c), true, r[2..]);
    }
    assert p != "" ==> ([c] + p)[1] == p[0];
  }

  lemma SameHeadAndTail(c: char, a: string, b: string)
    requires b != ""
    ensures [c] + a == b <==> c == b[0] && a == b[1..]
  {
    assert b == [b[0]] + b[1..];
    assert ([c] + a)[1..] == a;
  }

  lemma SameAfterHead(c: char, a: string, b: string)
    ensures [c] + a == [c] + b <==> a == b
  {
    assert ([c] + a)[1..] == a && ([c] + b)[1..] == b;
  }

  /** An output that would begin with an underscore too many cannot arise. */
  lemma SnakeNeverDoubles(prev: Option<char>, p: string, start: bool, r: string)
    requires r != "" && r[0] == '_' && (p != "" ==> p[0] != '_') && (prev.None? <==> !start)
    ensures Snake(prev, p) != Pended(start, r)
  {
    if p != "" {
      var out := Snake(prev, p);
      var tail := [ToUpper(p[0])] + Snake(Some(p[0]), p[1..]);
      assert out == if SnakeCut(prev, p) then ['_'] + tail else tail;
      assert tail[0] != '_';
      SameAfterHead('_', tail, r);
    }
  }

  /** What follows a byte in Pascal case is upper case exactly if an underscore and a letter follow it. */
  lemma {:induction false} NextAfterPascal(r: string)
    ensures r == "" ==> Pascal(false, r) == ""
    ensures r != "" && r[0] != '_' ==> Pascal(false, r) != "" && !IsUpper(Pascal(false, r)[0])
    ensures |r| > 1 && r[0] == '_' && IsUpper(r[1]) ==> Pascal(false, r) != "" && IsUpper(Pascal(false, r)[0])
    ensures r == "_" ==> Pascal(false, r) == ""
  {
  }

  /** The suffix test read off by position. */
  lemma {:induction false} ReturnsByIndex(r: string, k: nat)
    requires 0 < k <= |r| && r[k - 1] != '_'
    ensures SuffixReturns(Some(Recase(k == 1 || r[k - 2] == '_', r[k - 1])), false, r[k..])
            <==> forall j :: k <= j < |r| ==> !IsLower(r[j]) && SeparatorReturns(r, j)
    decreases |r| - k
  {
    if k < |r| {
      assert r[k..][1..] == r[k + 1..];
      if r[k] != '_' {
        ReturnsByIndex(r, k + 1);
      } else if k + 1 < |r| {
        assert r[k + 1..][1..] == r[k + 2..];
        if r[k + 1] != '_' {
          ReturnsByIndex(r, k + 2);
          assert SuffixReturns(Some(Recase(k == 1 || r[k - 2] == '_', r[k - 1])), true, r[k + 1..])
            <==> !IsLower(r[k + 1]) && SeparatorReturns(r, k)
                 && SuffixReturns(Some(Recase(true, r[k + 1])), false, r[k + 2..]);
        } else {
          assert !SeparatorReturns(r, k);
        }
      } else {
        assert !SeparatorReturns(r, k);
      }
    }
  }

  /** camelToScreamingSnake undoes snakeToPascal on exactly these names. */
  lemma SnakeRoundTrip(r: string)
    ensures CamelToSnake(SnakeToPascal(r)) == r <==> SnakeReturns(r)
  {
    PascalThenSnake(None, false, r);
    if r != "" {
      if r[0] == '_' {
        assert !SeparatorReturns(r, 0);
      } else {
        ReturnsByIndex(r, 1);
        assert SeparatorReturns(r, 0);
      }
    }
  }

  /** Parts of an upper-case letter and at least one more upper-case letter or digit, joined by underscores. */
  predicate SnakeWords(r: string) {
    && (r != "" ==> IsUpper(r[0]))
    && (forall j :: 0 <= j < |r| ==> IsUpper(r[j]) || '0' <= r[j] <= '9' || r[j] == '_')
    && (forall j :: 0 <= j < |r| && r[j] == '_' ==> j + 2 < |r| && IsUpper(r[j + 1]) && r[j + 2] != '_')
  }

  lemma SnakeWordsReturn(r: string)
    requires SnakeWords(r)
    ensures CamelToSnake(SnakeToPascal(r)) == r
  {
    SnakeRoundTrip(r);
    forall j | 0 <= j < |r|
      ensures !IsLower(r[j]) && SeparatorReturns(r, j)
    {
    }
  }

  // ----- the two label paths -----

  /** A blank of toTitle is also a blank of splitCamel. */
  predicate SeparatorShows(r: string, j: nat)
    requires j < |r|
  {
    r[j] == '_' ==> 0 < j && j + 2 < |r| && IsLetter(r[j + 1]) && r[j + 2] != '_'
  }

  predicate LabelsAgree(r: string) {
    forall j :: 0 <= j < |r| ==> SeparatorShows(r, j)
  }

  /** The same test on a suffix: `first` before anything is written, `start` with an underscore pending. */
  predicate SuffixLabels(first: bool, start: bool, r: string)
    decreases |r|
  {
    if first && start then false
    else if r == "" then !start
    else if r[0] == '_' then !first && !start && SuffixLabels(first, true, r[1..])
    else
      && (start ==> IsLetter(r[0]) && |r| > 1 && r[1] != '_')
      && SuffixLabels(false, false, r[1..])
  }

  function Blanked(start: bool, t: string): string {
    if start then [' '] + t else t
  }

  /** splitCamel never shows more than toTitle, and shows as much exactly when the labels agree. */
  lemma {:induction false} LabelPaths(prev: Option<char>, start: bool, r: string)
    ensures var split := Spaced(prev, Pascal(start || prev.None?, r));
            var title := Blanked(start, Title(start || prev.None?, r));
            if SuffixLabels(prev.None?, start, r) then split == title else |split| < |title|
    decreases |r|
  {
    if r == "" {
    } else if r[0] == '_' {
      LabelPaths(prev, true, r[1..]);
    } else {
      var c := Recase(start || prev.None?, r[0]);
      LabelPaths(Some(c), false, r[1..]);
      LetterThenLabel(prev, start, r, c, Pascal(false, r[1..]));
    }
  }

  lemma LetterThenLabel(prev: Option<char>, start: bool, r: string, c: char, p: string)
    requires r != "" && r[0] != '_' && c == Recase(start || prev.None?, r[0]) && p == Pascal(false, r[1..])
    requires if SuffixLabels(false, false, r[1..]) then Spaced(Some(c), p) == Title(false, r[1..])
             else |Spaced(Some(c), p)| < |Title(false, r[1..])|
    ensures var split := Spaced(prev, [c] + p);
            var title := Blanked(start, Title(start || prev.None?, r));
            if SuffixLabels(prev.None?, start, r) then split == title else |split| < |title|
  {
    var tail := [c] + Spaced(Some(c), p);
    var cut := WordCut(prev, [c] + p);
    assert ([c] + p)[1..] == p;
    assert Spaced(prev, [c] + p) == if cut then [' '] + tail else tail;
    assert Title(start || prev.None?, r) == [c] + Title(false, r[1..]);
    assert cut ==> start;
    if prev.Some? && start && SuffixLabels(false, false, r[1..]) {
      NextAfterPascal(r[1..]);
      if |r| > 1 && r[1] == '_' {
        NextLabel(r[1..]);
      }
      assert p != "" ==> ([c] + p)[1] == p[0];
    }
  }

  /** In an agreeing suffix an underscore is followed by a letter, which Pascal case makes upper case. */
  lemma NextLabel(r: string)
    requires SuffixLabels(false, false, r) && r != "" && r[0] == '_'
    ensures Pascal(false, r) != "" && IsUpper(Pascal(false, r)[0])
  {
    assert SuffixLabels(false, true, r[1..]);
    assert r[1..] != "" && IsLetter(r[1..][0]);
  }

  lemma {:induction false} LabelsByIndex(r: string, k: nat)
    requires 0 < k <= |r| && r[k - 1] != '_'
    ensures SuffixLabels(false, false, r[k..]) <==> forall j :: k <= j < |r| ==> SeparatorShows(r, j)
    decreases |r| - k
  {
    if k < |r| {
      assert r[k..][1..] == r[k + 1..];
      if r[k] != '_' {
        LabelsByIndex(r, k + 1);
      } else if k + 1 < |r| {
        assert r[k + 1..][1..] == r[k + 2..];
        if r[k + 1] != '_' {
          LabelsByIndex(r, k + 2);
          assert SuffixLabels(false, true, r[k + 1..]) <==>
              SeparatorShows(r, k) && SuffixLabels(false, false, r[k + 2..]);
        } else {
          assert !SeparatorShows(r, k);
        }
      } else {
        assert !SeparatorShows(r, k);
      }
    }
  }

  /** The label read from the Pascal name equals the label read from the value name on exactly these names. */
  lemma LabelSquare(r: string)
    ensures SplitCamel(SnakeToPascal(r)) == ToTitle(r) <==> LabelsAgree(r)
  {
    LabelPaths(None, false, r);
    if r != "" {
      if r[0] == '_' {
        assert !SeparatorShows(r, 0);
      } else {
        LabelsByIndex(r, 1);
        assert SeparatorShows(r, 0);
      }
    }
  }

  lemma SnakeWordsLabelsAgree(r: string)
    requires SnakeWords(r)
    ensures SplitCamel(SnakeToPascal(r)) == ToTitle(r)
  {
    LabelSquare(r);
    forall j | 0 <= j < |r|
      ensures SeparatorShows(r, j)
    {
    }
  }

  // ----- injectivity -----

  /** Reads an underscore back before each upper-case letter. */
  function Unpascal(first: bool, p: string): string
    decreases |p|
  {
    if p == "" then ""
    else (if !first && IsUpper(p[0]) then ['_', ToUpper(p[0])] else [ToUpper(p[0])]) + Unpascal(false, p[1..])
  }

  predicate UpperPart(r: string, j: nat)
    requires j < |r|
  {
    !IsLower(r[j]) && (r[j] == '_' ==> 0 < j && j + 1 < |r| && IsUpper(r[j + 1]))
  }

  /** Upper-case parts, all but the first starting with a letter. */
  predicate UpperParts(r: string) {
    forall j :: 0 <= j < |r| ==> UpperPart(r, j)
  }

  predicate SuffixParts(first: bool, start: bool, r: string)
    decreases |r|
  {
    if r == "" then !start
    else if r[0] == '_' then !first && !start && SuffixParts(false, true, r[1..])
    else !IsLower(r[0]) && (start ==> IsUpper(r[0])) && SuffixParts(false, false, r[1..])
  }

  lemma {:induction false} PascalInverse(first: bool, start: bool, r: string)
    requires SuffixParts(first, start, r) && (first ==> !start)
    ensures Unpascal(first, Pascal(first || start, r)) == Pended(start, r)
    decreases |r|
  {
    if r != "" {
      assert r == [r[0]] + r[1..];
      if r[0] == '_' {
        PascalInverse(false, true, r[1..]);
      } else {
        PascalInverse(false, false, r[1..]);
        UnpascalHead(first, start, r[0], Pascal(false, r[1..]));
      }
    }
  }

  lemma RecaseKeepsUpper(first: bool, start: bool, a: char)
    requires !IsLower(a) && (start ==> !first && IsUpper(a))
    ensures ToUpper(Recase(first || start, a)) == a
    ensures !first && IsUpper(Recase(first || start, a)) <==> start
  {
  }

  lemma UnpascalHead(first: bool, start: bool, a: char, p: string)
    requires a != '_' && !IsLower(a) && (start ==> !first && IsUpper(a))
    ensures Unpascal(first, [Recase(first || start, a)] + p) == Pended(start, [a] + Unpascal(false, p))
  {
    var x := Recase(first || start, a);
    RecaseKeepsUpper(first, start, a);
    assert ([x] + p)[1..] == p;
    var rest := Unpascal(false, p);
    assert Unpascal(first, [x] + p) == (if start then ['_', a] else [a]) + rest;
    assert ['_', a] + rest == ['_'] + ([a] + rest);
  }

  lemma {:induction false} PartsByIndex(r: string, k: nat)
    requires UpperParts(r) && 0 < k <= |r|
    ensures SuffixParts(false, r[k - 1] == '_', r[k..])
    decreases |r| - k
  {
    assert UpperPart(r, k - 1);
    if k < |r| {
      assert UpperPart(r, k);
      assert r[k..][1..] == r[k + 1..];
      PartsByIndex(r, k + 1);
    }
  }

  /** snakeToPascal forgets nothing about names of upper-case parts. */
  lemma PascalInjective(a: string, b: string)
    requires UpperParts(a) && UpperParts(b) && SnakeToPascal(a) == SnakeToPascal(b)
    ensures a == b
  {
    UnpascalPascal(a);
    UnpascalPascal(b);
  }

  lemma UnpascalPascal(r: string)
    requires UpperParts(r)
    ensures Unpascal(true, SnakeToPascal(r)) == r
  {
    if r != "" {
      assert UpperPart(r, 0);
      PartsByIndex(r, 1);
    }
    PascalInverse(true, false, r);
  }

  // ----- what snakeToPascal forgets -----

  /** The name in lower case without its underscores. */
  function Bare(r: string): string {
    if r == "" then ""
    else if r[0] == '_' then Bare(r[1..])
    else [ToLower(r[0])] + Bare(r[1..])
  }

  /** For each byte of the bare name, whether it is a letter that starts a part. */
  function Heads(start: bool, r: string): seq<bool>
    decreases |r|
  {
    if r == "" then []
    else if r[0] == '_' then Heads(true, r[1..])
    else [start && IsLetter(r[0])] + Heads(false, r[1..])
  }

  /** The Pascal name is made of the bare name and the heads, and shows both. */
  lemma {:induction false} PascalShows(start: bool, r: string)
    ensures var p := Pascal(start, r);
            && |p| == |Bare(r)| == |Heads(start, r)|
            && forall i :: 0 <= i < |p| ==>
                 && Bare(r)[i] == ToLower(p[i]) && Heads(start, r)[i] == IsUpper(p[i])
                 && p[i] == if Heads(start, r)[i] then ToUpper(Bare(r)[i]) else Bare(r)[i]
    decreases |r|
  {
    if r != "" {
      PascalShows(r[0] == '_', r[1..]);
    }
  }

  /** Two names get one Pascal name exactly if they agree in their bytes, up to case, and in the letters that lead. */
  lemma PascalCollideIff(a: string, b: string)
    ensures SnakeToPascal(a) == SnakeToPascal(b) <==> Bare(a) == Bare(b) && Heads(true, a) == Heads(true, b)
  {
    PascalShows(true, a);
    PascalShows(true, b);
    if Bare(a) == Bare(b) && Heads(true, a) == Heads(true, b) {
      assert forall i :: 0 <= i < |Bare(a)| ==> SnakeToPascal(a)[i] == SnakeToPascal(b)[i];
    }
  }

  /** A part that starts with a digit leaves no trace. */
  lemma DigitPartsCollide()
    ensures SnakeToPascal("A_1") == SnakeToPascal("A1")
  {
    assert "A_1"[1..] == "_1" && "_1"[1..] == "1" && "A1"[1..] == "1" && "1"[1..] == "";
  }

  // ----- names side by side -----

  lemma {:induction false} PascalAppend(start: bool, a: string, b: string)
    ensures Pascal(start, a + ("_" + b)) == Pascal(start, a) + Pascal(true, b)
    decreases |a|
  {
    var all := a + ("_" + b);
    if a == "" {
      assert all == "_" + b && all[1..] == b;
    } else {
      assert all[1..] == a[1..] + ("_" + b);
      PascalAppend(a[0] == '_', a[1..], b);
    }
  }

  lemma {:induction false} TitleLength(start: bool, s: string)
    ensures |Title(start, s)| == |s|
    decreases |s|
  {
    if s != "" {
      TitleLength(s[0] == '_', s[1..]);
    }
  }

  /** toTitle by position: blanks for underscores, capitals after them, lower case elsewhere. */
  lemma {:induction false} TitleByPlace(start: bool, s: string, j: nat)
    requires j < |s|
    ensures |Title(start, s)| == |s|
    ensures Title(start, s)[j] ==
              if s[j] == '_' then ' '
              else if (if j == 0 then start else s[j - 1] == '_') then ToUpper(ToLower(s[j])) else ToLower(s[j])
    decreases |s|
  {
    TitleLength(start, s);
    if j > 0 {
      TitleByPlace(s[0] == '_', s[1..], j - 1);
    }
  }

  /** One name on all four paths. */
  lemma NameExamples()
    ensures CamelToSnake("GoUp") == "GO_UP" && SnakeToPascal("GO_UP") == "GoUp"
    ensures SplitCamel("GoUp") == "Go Up" && ToTitle("GO_UP") == "Go Up"
  {
    SnakeExample();
    SplitExample();
    PascalExample();
    TitleExample();
  }

  lemma SnakeExample()
    ensures CamelToSnake("GoUp") == "GO_UP"
  {
  }

  lemma SplitExample()
    ensures SplitCamel("GoUp") == "Go Up"
  {
  }

  lemma PascalExample()
    ensures SnakeToPascal("GO_UP") == "GoUp"
  {
  }

  lemma TitleExample()
    ensures ToTitle("GO_UP") == "Go Up"
  {
  }
}
