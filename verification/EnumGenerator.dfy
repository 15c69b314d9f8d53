/**
 The loops of the ontology generator, proved against the recursive name conversions, and the concept
 names buildEnumInfo gives to the values of an enum.
 */
module EnumGenerator {
  import opened Ascii
  import opened Options
  import opened EnumCodec

  // ----- what the strings package supplies -----

  function Lowered(s: string): string {
    seq(|s|, i requires 0 <= i < |s| => ToLower(s[i]))
  }

  /** strings.Split at underscores. */
  function Split(s: string): (parts: seq<string>)
    ensures |parts| > 0
  {
    if s == "" then [""]
    else
      var rest := Split(s[1..]);
      if s[0] == '_' then [""] + rest else [[s[0]] + rest[0]] + rest[1..]
  }

  function Join(parts: seq<string>, separator: string): string {
    if parts == [] then ""
    else if |parts| == 1 then parts[0]
    else parts[0] + separator + Join(parts[1..], separator)
  }

  predicate HasPrefix(s: string, prefix: string) { prefix <= s }

  predicate HasSuffix(s: string, suffix: string) {
    |suffix| <= |s| && s[|s| - |suffix|..] == suffix
  }

  function TrimPrefix(s: string, prefix: string): string {
    if HasPrefix(s, prefix) then s[|prefix|..] else s
  }

  function Capitalized(part: string): string {
    if part == "" then part else [ToUpper(part[0])] + part[1..]
  }

  function AllCapitalized(parts: seq<string>): seq<string> {
    seq(|parts|, i requires 0 <= i < |parts| => Capitalized(parts[i]))
  }

  // ----- the loops -----

  function Prev(s: string, i: nat): Option<char>
    requires i <= |s|
  {
    if i == 0 then None else Some(s[i - 1])
  }

  /** What the loop appends for one byte. */
  function SnakePiece(s: string, i: nat): string
    requires i < |s|
  {
    if SnakeCut(Prev(s, i), s[i..]) then ['_', ToUpper(s[i])] else [ToUpper(s[i])]
  }

  lemma SnakeStep(s: string, i: nat)
    requires i < |s|
    ensures Snake(Prev(s, i), s[i..]) == SnakePiece(s, i) + Snake(Prev(s, i + 1), s[i + 1..])
    ensures SnakeCut(Prev(s, i), s[i..]) <==>
              i > 0 && IsUpper(s[i]) && ((i + 1 < |s| && !IsUpper(s[i + 1])) || IsLower(s[i - 1]))
  {
    assert s[i..][1..] == s[i + 1..];
  }

  lemma SnakeGrows(s: string, i: nat, result: string)
    requires i < |s|
    ensures result + Snake(Prev(s, i), s[i..]) == (result + SnakePiece(s, i)) + Snake(Prev(s, i + 1), s[i + 1..])
  {
    var rest := Snake(Prev(s, i + 1), s[i + 1..]);
    SnakeStep(s, i);
    assert result + (SnakePiece(s, i) + rest) == (result + SnakePiece(s, i)) + rest;
  }

  method CamelToScreamingSnake(s: string) returns (result: string)
    ensures result == CamelToSnake(s)
  {
    result := "";
    for i := 0 to |s|
      invariant result + Snake(Prev(s, i), s[i..]) == CamelToSnake(s)
    {
      var r := s[i];
      ghost var before := result;
      SnakeStep(s, i);
      SnakeGrows(s, i, result);
      if i > 0 && IsUpper(r) && i + 1 < |s| && !IsUpper(s[i + 1]) {
        result := result + ['_'];
      } else if i > 0 && IsUpper(r) && IsLower(s[i - 1]) {
        result := result + ['_'];
      }
      result := result + [ToUpper(r)];
      assert result == before + SnakePiece(s, i);
    }
    assert s[|s|..] == "";
  }

  /** How the parts of a name follow from those of its tail. */
  lemma PartsOfHead(s: string)
    requires s != ""
    ensures var parts := Split(Lowered(s));
            var rest := Split(Lowered(s[1..]));
            parts == if s[0] == '_' then [""] + rest else [[ToLower(s[0])] + rest[0]] + rest[1..]
  {
    assert Lowered(s)[1..] == Lowered(s[1..]);
  }

  lemma CapitalizedHead(part: string, rest: seq<string>)
    ensures AllCapitalized([part] + rest) == [Capitalized(part)] + AllCapitalized(rest)
    ensures rest != [] ==> AllCapitalized(rest)[1..] == AllCapitalized(rest[1..])
  {
  }

  /** Splitting, capitalizing and joining is the recursive conversion; the second half starts inside a part. */
  lemma {:induction false} JoinOfParts(s: string)
    ensures Join(AllCapitalized(Split(Lowered(s))), "") == Pascal(true, s)
    ensures Join(AllCapitalized(Split(Lowered(s))), " ") == Title(true, s)
    ensures var parts := Split(Lowered(s));
            && Join([parts[0]] + AllCapitalized(parts[1..]), "") == Pascal(false, s)
            && Join([parts[0]] + AllCapitalized(parts[1..]), " ") == Title(false, s)
    decreases |s|
  {
    if s == "" {
      assert Lowered(s) == "";
      assert AllCapitalized([""]) == [""] && [""] + AllCapitalized([]) == [""];
    } else {
      var rest := Split(Lowered(s[1..]));
      JoinOfParts(s[1..]);
      PartsOfHead(s);
      if s[0] == '_' {
        CapitalizedHead("", rest);
        JoinCons("", AllCapitalized(rest));
        assert ([""] + rest)[1..] == rest;
      } else {
        var c := ToLower(s[0]);
        var tail := AllCapitalized(rest[1..]);
        CapitalizedHead([c] + rest[0], rest[1..]);
        assert Capitalized([c] + rest[0]) == [ToUpper(c)] + rest[0];
        JoinGrow(ToUpper(c), rest[0], tail);
        assert ([[c] + rest[0]] + rest[1..])[1..] == rest[1..];
        JoinGrow(c, rest[0], tail);
      }
    }
  }

  lemma JoinCons(part: string, rest: seq<string>)
    requires rest != []
    ensures Join([part] + rest, "") == part + Join(rest, "")
    ensures Join([part] + rest, " ") == part + (" " + Join(rest, " "))
  {
    assert ([part] + rest)[1..] == rest;
  }

  lemma JoinGrow(c: char, part: string, rest: seq<string>)
    ensures Join([[c] + part] + rest, "") == [c] + Join([part] + rest, "")
    ensures Join([[c] + part] + rest, " ") == [c] + Join([part] + rest, " ")
  {
    if rest == [] {
      assert [[c] + part] + rest == [[c] + part] && [part] + rest == [part];
    } else {
      JoinCons([c] + part, rest);
      JoinCons(part, rest);
      assert ([c] + part) + Join(rest, "") == [c] + (part + Join(rest, ""));
      assert ([c] + part) + (" " + Join(rest, " ")) == [c] + (part + (" " + Join(rest, " ")));
    }
  }

  /** The loop both snake conversions share: it overwrites the non-empty parts in place. */
  method Capitalize(parts: array<string>)
    modifies parts
    ensures parts[..] == AllCapitalized(old(parts[..]))
  {
    for i := 0 to parts.Length
      invariant forall j :: 0 <= j < i ==> parts[j] == Capitalized(old(parts[j]))
      invariant forall j :: i <= j < parts.Length ==> parts[j] == old(parts[j])
    {
      if parts[i] == "" {
        continue;
      }
      parts[i] := [ToUpper(parts[i][0])] + parts[i][1..];
    }
  }

  method SnakeToPascalLoop(s: string) returns (result: string)
    ensures result == SnakeToPascal(s)
  {
    var split := Split(Lowered(s));
    var parts := new string[|split|](i requires 0 <= i < |split| => split[i]);
    assert parts[..] == split;
    Capitalize(parts);
    JoinOfParts(s);
    result := Join(parts[..], "");
  }

  method ToTitleLoop(s: string) returns (result: string)
    ensures result == ToTitle(s)
  {
    var split := Split(Lowered(s));
    var parts := new string[|split|](i requires 0 <= i < |split| => split[i]);
    assert parts[..] == split;
    Capitalize(parts);
    JoinOfParts(s);
    result := Join(parts[..], " ");
  }

  /** The parts and the piece being read spell `s`, and no part is empty. */
  ghost predicate Pieces(s: string, parts: seq<string>, current: string) {
    && Join(parts, "") + current == s
    && forall k :: 0 <= k < |parts| ==> parts[k] != ""
  }

  lemma {:induction false} JoinSnoc(parts: seq<string>, part: string, separator: string)
    ensures Join(parts + [part], separator) == if parts == [] then part else Join(parts, separator) + separator + part
  {
    if |parts| == 1 {
      assert (parts + [part])[1..] == [part];
    } else if |parts| > 1 {
      assert (parts + [part])[1..] == parts[1..] + [part];
      JoinSnoc(parts[1..], part, separator);
      assert Join(parts + [part], separator) == parts[0] + separator + Join(parts[1..] + [part], separator);
    }
  }

  /** A cut moves the current piece to the parts; otherwise the current piece grows. */
  lemma PieceMoves(parts: seq<string>, current: string, r: char)
    ensures Join(parts + [current] + [[r]], " ") == Join(parts + [current], " ") + [' ', r]
    ensures Join(parts + [current + [r]], " ") == Join(parts + [current], " ") + [r]
    ensures Join(parts + [current], "") == Join(parts, "") + current
  {
    JoinSnoc(parts + [current], [r], " ");
    assert Join(parts + [current], " ") + " " + [r] == Join(parts + [current], " ") + [' ', r];
    JoinSnoc(parts, current, " ");
    JoinSnoc(parts, current + [r], " ");
    JoinSnoc(parts, current, "");
    assert Join(parts, "") + "" + current == Join(parts, "") + current;
  }

  lemma SpacedStep(s: string, i: nat)
    requires i < |s|
    ensures Spaced(Prev(s, i), s[i..]) ==
              (if WordCut(Prev(s, i), s[i..]) then [' ', s[i]] else [s[i]]) + Spaced(Prev(s, i + 1), s[i + 1..])
    ensures WordCut(Prev(s, i), s[i..]) <==> i > 0 && IsUpper(s[i]) && i + 1 < |s| && !IsUpper(s[i + 1])
  {
    assert s[i..][1..] == s[i + 1..];
  }

  // ----- where the two camel loops cut -----

  function Uppered(s: string): string {
    seq(|s|, i requires 0 <= i < |s| => ToUpper(s[i]))
  }

  /** An upper-case letter that a non-upper-case byte follows. */
  predicate StartsWord(s: string, i: nat)
    requires i < |s|
  {
    IsUpper(s[i]) && i + 1 < |s| && !IsUpper(s[i + 1])
  }

  function BlankCuts(s: string): set<nat> {
    set i | 0 < i < |s| && StartsWord(s, i)
  }

  /** The places of upper-case letters that follow a lower-case letter. */
  function HumpCuts(s: string): set<nat> {
    set i | 0 < i < |s| && IsUpper(s[i]) && IsLower(s[i - 1])
  }

  /** `s` from byte `i` on, with the separator put before each byte at a cut. */
  function Separated(s: string, i: nat, cuts: set<nat>, separator: char): string
    decreases |s| - i
  {
    if i >= |s| then ""
    else (if i in cuts then [separator, s[i]] else [s[i]]) + Separated(s, i + 1, cuts, separator)
  }

  lemma {:induction false} BlanksFrom(s: string, i: nat)
    requires i <= |s|
    ensures Spaced(Prev(s, i), s[i..]) == Separated(s, i, BlankCuts(s), ' ')
    decreases |s| - i
  {
    if i < |s| {
      BlanksFrom(s, i + 1);
      SpacedStep(s, i);
    }
  }

  lemma {:induction false} UnderscoresFrom(s: string, i: nat)
    requires i <= |s|
    ensures Snake(Prev(s, i), s[i..]) == Separated(Uppered(s), i, BlankCuts(s) + HumpCuts(s), '_')
    decreases |s| - i
  {
    if i < |s| {
      UnderscoresFrom(s, i + 1);
      SnakeStep(s, i);
    }
  }

  /** Both loops only insert separators, and camelToScreamingSnake cuts wherever splitCamel does. */
  lemma CutsByPosition(s: string)
    ensures SplitCamel(s) == Separated(s, 0, BlankCuts(s), ' ')
    ensures CamelToSnake(s) == Separated(Uppered(s), 0, BlankCuts(s) + HumpCuts(s), '_')
  {
    assert s[0..] == s;
    BlanksFrom(s, 0);
    UnderscoresFrom(s, 0);
  }

  /** The first `i` bytes are in the parts and the current piece. */
  ghost predicate Scanned(s: string, i: nat, parts: seq<string>, current: string) {
    && i <= |s| && Pieces(s[..i], parts, current)
    && (if i == 0 then parts == [] else current != "")
    && Join(parts + [current], " ") + Spaced(Prev(s, i), s[i..]) == SplitCamel(s)
  }

  lemma ScanCut(s: string, i: nat, parts: seq<string>, current: string)
    requires i < |s| && Scanned(s, i, parts, current) && WordCut(Prev(s, i), s[i..])
    ensures Scanned(s, i + 1, parts + [current], [s[i]])
  {
    var rest := Spaced(Prev(s, i + 1), s[i + 1..]);
    SpacedStep(s, i);
    PieceMoves(parts, current, s[i]);
    assert s[..i + 1] == s[..i] + [s[i]];
    assert Join(parts + [current], " ") + ([' ', s[i]] + rest) == (Join(parts + [current], " ") + [' ', s[i]]) + rest;
  }

  lemma ScanGrow(s: string, i: nat, parts: seq<string>, current: string)
    requires i < |s| && Scanned(s, i, parts, current) && !WordCut(Prev(s, i), s[i..])
    ensures Scanned(s, i + 1, parts, current + [s[i]])
  {
    var rest := Spaced(Prev(s, i + 1), s[i + 1..]);
    SpacedStep(s, i);
    PieceMoves(parts, current, s[i]);
    assert s[..i + 1] == s[..i] + [s[i]];
    assert Join(parts + [current], " ") + ([s[i]] + rest) == (Join(parts + [current], " ") + [s[i]]) + rest;
    assert (Join(parts, "") + current) + [s[i]] == Join(parts, "") + (current + [s[i]]);
  }

  lemma ScanEnd(s: string, parts: seq<string>, current: string)
    requires Scanned(s, |s|, parts, current)
    ensures var all := if |current| > 0 then parts + [current] else parts;
            Pieces(s, all, "") && Join(all, " ") == SplitCamel(s)
  {
    assert s[|s|..] == "" && s[..|s|] == s;
    JoinSnoc(parts, current, "");
    assert Join(parts, "") + "" + current == Join(parts, "") + current;
    assert s == "" ==> parts + [current] == [""];
  }

  method SplitCamelLoop(s: string) returns (result: string, ghost pieces: seq<string>)
    ensures result == SplitCamel(s)
    ensures Pieces(s, pieces, "") && result == Join(pieces, " ")
  {
    var parts: seq<string> := [];
    var current := "";
    for i := 0 to |s|
      invariant Scanned(s, i, parts, current)
    {
      var r := s[i];
      SpacedStep(s, i);
      if i > 0 && IsUpper(r) && i + 1 < |s| && !IsUpper(s[i + 1]) {
        ScanCut(s, i, parts, current);
        parts := parts + [current];
        current := "";
        assert current + [r] == [r];
      } else {
        ScanGrow(s, i, parts, current);
      }
      current := current + [r];
    }
    ScanEnd(s, parts, current);
    if |current| > 0 {
      parts := parts + [current];
    }
    pieces := parts;
    result := Join(parts, " ");
  }

  // ----- enums -----

  datatype EnumValue = EnumValue(name: string, prefLabel: string, notation: string, conceptName: string)

  datatype EnumInfo = EnumInfo(name: string, values: seq<EnumValue>, file: string)

  /** An enum descriptor: its name and its value names. */
  datatype Enum = Enum(name: string, values: seq<string>)

  datatype File = File(name: string, enums: seq<Enum>)

  const UNSPECIFIED := "_UNSPECIFIED"

  /** The value name without the enum's prefix. */
  function Raw(enumName: string, name: string): string {
    TrimPrefix(name, CamelToSnake(enumName) + "_")
  }

  function ConceptName(enumName: string, name: string): string {
    "sk:" + enumName + SnakeToPascal(Raw(enumName, name))
  }

  function ValueOf(enumName: string, name: string): EnumValue {
    EnumValue(name, ToTitle(Raw(enumName, name)), name, ConceptName(enumName, name))
  }

  function Kept(names: seq<string>): seq<string> {
    if names == [] then []
    else
      var last := names[|names| - 1];
      Kept(names[..|names| - 1]) + (if HasSuffix(last, UNSPECIFIED) then [] else [last])
  }

  function ValuesOf(enumName: string, names: seq<string>): seq<EnumValue> {
    seq(|names|, i requires 0 <= i < |names| => ValueOf(enumName, names[i]))
  }

  function InfoOf(file: string, enum: Enum): EnumInfo {
    EnumInfo(enum.name, ValuesOf(enum.name, Kept(enum.values)), file)
  }

  function InfosOf(file: string, enums: seq<Enum>): seq<EnumInfo> {
    seq(|enums|, i requires 0 <= i < |enums| => InfoOf(file, enums[i]))
  }

  function AllInfos(files: seq<File>): seq<EnumInfo> {
    if files == [] then []
    else AllInfos(files[..|files| - 1]) + InfosOf(files[|files| - 1].name, files[|files| - 1].enums)
  }

  method BuildEnumInfo(fileName: string, enum: Enum) returns (info: EnumInfo)
    ensures info == InfoOf(fileName, enum)
  {
    var enumPrefix := CamelToScreamingSnake(enum.name);
    var values: seq<EnumValue> := [];
    for i := 0 to |enum.values|
      invariant values == ValuesOf(enum.name, Kept(enum.values[..i]))
    {
      var name := enum.values[i];
      assert enum.values[..i + 1][..i] == enum.values[..i];
      if HasSuffix(name, UNSPECIFIED) {
        continue;
      }
      var raw := TrimPrefix(name, enumPrefix + "_");
      var prefLabel := ToTitleLoop(raw);
      var pascal := SnakeToPascalLoop(raw);
      values := values + [EnumValue(name, prefLabel, name, "sk:" + enum.name + pascal)];
    }
    assert enum.values[..|enum.values|] == enum.values;
    info := EnumInfo(enum.name, values, fileName);
  }

  method CollectEnums(files: seq<File>) returns (enums: seq<EnumInfo>)
    ensures enums == AllInfos(files)
  {
    enums := [];
    for i := 0 to |files|
      invariant enums == AllInfos(files[..i])
    {
      ghost var before := enums;
      var file := files[i];
      for j := 0 to |file.enums|
        invariant enums == before + InfosOf(file.name, file.enums[..j])
      {
        var info := BuildEnumInfo(file.name, file.enums[j]);
        enums := enums + [info];
        assert InfosOf(file.name, file.enums[..j + 1]) == InfosOf(file.name, file.enums[..j]) + [info];
      }
      assert file.enums[..|file.enums|] == file.enums;
      assert files[..i + 1][..i] == files[..i];
    }
    assert files[..|files|] == files;
  }

  // ----- what is collected -----

  /** A kept value's place is the number of kept values before it, and nothing else is kept. */
  lemma {:induction false} KeptByPlace(names: seq<string>, i: nat)
    requires i < |names| && !HasSuffix(names[i], "_UNSPECIFIED")
    ensures |Kept(names[..i])| < |Kept(names)| && Kept(names)[|Kept(names[..i])|] == names[i]
  {
    var n := |names| - 1;
    if i < n {
      assert names[..n][..i] == names[..i];
      KeptByPlace(names[..n], i);
    }
  }

  lemma {:induction false} KeptAreNames(names: seq<string>)
    ensures forall x :: x in Kept(names) <==> x in names && !HasSuffix(x, "_UNSPECIFIED")
  {
    if names != [] {
      KeptAreNames(names[..|names| - 1]);
      assert names == names[..|names| - 1] + [names[|names| - 1]];
    }
  }

  /** How many enums the files declare. */
  function EnumCount(files: seq<File>): nat {
    if files == [] then 0 else EnumCount(files[..|files| - 1]) + |files[|files| - 1].enums|
  }

  /** Enum `j` of file `k` is collected at the place that follows all enums before it. */
  lemma {:induction false} InfosByPlace(files: seq<File>, k: nat, j: nat)
    requires k < |files| && j < |files[k].enums|
    ensures |AllInfos(files)| == EnumCount(files) && EnumCount(files[..k]) + j < EnumCount(files)
    ensures AllInfos(files)[EnumCount(files[..k]) + j] == InfoOf(files[k].name, files[k].enums[j])
  {
    var n := |files| - 1;
    InfosCounted(files[..n]);
    if k < n {
      assert files[..n][..k] == files[..k];
      InfosByPlace(files[..n], k, j);
    }
  }

  lemma {:induction false} InfosCounted(files: seq<File>)
    ensures |AllInfos(files)| == EnumCount(files)
  {
    if files != [] {
      InfosCounted(files[..|files| - 1]);
    }
  }

  // ----- concept names -----

  /** Two values whose trimmed names are upper-case parts collide exactly if one is the other with the prefix put on. */
  lemma ConceptsCollideIff(enumName: string, a: string, b: string)
    requires UpperParts(Raw(enumName, a)) && UpperParts(Raw(enumName, b))
    ensures ConceptName(enumName, a) == ConceptName(enumName, b) <==>
              || a == b
              || (a == CamelToSnake(enumName) + "_" + b && !HasPrefix(b, CamelToSnake(enumName) + "_"))
              || (b == CamelToSnake(enumName) + "_" + a && !HasPrefix(a, CamelToSnake(enumName) + "_"))
  {
    var prefix := CamelToSnake(enumName) + "_";
    var ra := Raw(enumName, a);
    var rb := Raw(enumName, b);
    var head := "sk:" + enumName;
    assert ConceptName(enumName, a) == head + SnakeToPascal(ra) && ConceptName(enumName, b) == head + SnakeToPascal(rb);
    if ConceptName(enumName, a) == ConceptName(enumName, b) {
      assert (head + SnakeToPascal(ra))[|head|..] == SnakeToPascal(ra);
      assert (head + SnakeToPascal(rb))[|head|..] == SnakeToPascal(rb);
      PascalInjective(ra, rb);
    }
    assert HasPrefix(a, prefix) ==> a == prefix + ra;
    assert HasPrefix(b, prefix) ==> b == prefix + rb;
    assert a == prefix + b ==> HasPrefix(a, prefix) && ra == b;
    assert b == prefix + a ==> HasPrefix(b, prefix) && rb == a;
  }

  /** Two values get one concept name exactly if snakeToPascal cannot tell their trimmed names apart. */
  lemma ConceptsMeetIff(enumName: string, a: string, b: string)
    ensures ConceptName(enumName, a) == ConceptName(enumName, b) <==>
              && Bare(Raw(enumName, a)) == Bare(Raw(enumName, b))
              && Heads(true, Raw(enumName, a)) == Heads(true, Raw(enumName, b))
  {
    var head := "sk:" + enumName;
    var pa, pb := SnakeToPascal(Raw(enumName, a)), SnakeToPascal(Raw(enumName, b));
    assert (head + pa)[|head|..] == pa && (head + pb)[|head|..] == pb;
    PascalCollideIff(Raw(enumName, a), Raw(enumName, b));
  }

  lemma {:induction false} KeptDistinct(names: seq<string>)
    requires forall i, j :: 0 <= i < j < |names| ==> names[i] != names[j]
    ensures forall x :: x in Kept(names) ==> x in names
    ensures forall i, j :: 0 <= i < j < |Kept(names)| ==> Kept(names)[i] != Kept(names)[j]
  {
    if names != [] {
      var init := names[..|names| - 1];
      var last := names[|names| - 1];
      KeptDistinct(init);
      assert names == init + [last] && last !in init;
      assert forall i :: 0 <= i < |Kept(init)| ==> Kept(init)[i] in Kept(init);
    }
  }

  /** Distinct prefixed values of upper-case parts get pairwise distinct concept names. */
  lemma ConceptsDistinct(file: string, enum: Enum)
    requires forall i, j :: 0 <= i < j < |enum.values| ==> enum.values[i] != enum.values[j]
    requires forall x :: x in Kept(enum.values) ==>
              HasPrefix(x, CamelToSnake(enum.name) + "_") && UpperParts(Raw(enum.name, x))
    ensures var values := InfoOf(file, enum).values;
            forall i, j :: 0 <= i < j < |values| ==> values[i].conceptName != values[j].conceptName
  {
    KeptDistinct(enum.values);
    var kept := Kept(enum.values);
    forall i, j | 0 <= i < j < |kept|
      ensures ConceptName(enum.name, kept[i]) != ConceptName(enum.name, kept[j])
    {
      assert kept[i] in kept && kept[j] in kept;
      ConceptsCollideIff(enum.name, kept[i], kept[j]);
    }
  }

  // ----- what an entry says -----

  /** `raw` is the value's name without the enum's prefix, which is taken off once if it is there. */
  ghost predicate Trimmed(enumName: string, name: string, raw: string) {
    var prefix := CamelToSnake(enumName) + "_";
    if prefix <= name then name == prefix + raw else raw == name
  }

  /** The label is the trimmed name with blanks for underscores and a capital at the start of each part. */
  ghost predicate Labels(raw: string, shown: string) {
    && |shown| == |raw|
    && forall j :: 0 <= j < |raw| ==>
         shown[j] == if raw[j] == '_' then ' '
                     else if j == 0 || raw[j - 1] == '_' then ToUpper(ToLower(raw[j])) else ToLower(raw[j])
  }

  /**
   Each entry keeps the value's own name as name and notation, its label spells the trimmed name, and its
   concept name is the enum's name and then the trimmed name in Pascal case, from which it can be read back.
   */
  lemma EntryReads(file: string, enum: Enum, i: nat)
    requires i < |Kept(enum.values)|
    ensures var info := InfoOf(file, enum);
            && info.name == enum.name && info.file == file && |info.values| == |Kept(enum.values)|
            && var v := info.values[i];
               && v.name == Kept(enum.values)[i] && v.notation == v.name
               && "sk:" + enum.name <= v.conceptName
               && exists raw ::
                    && Trimmed(enum.name, v.name, raw) && Labels(raw, v.prefLabel)
                    && v.conceptName == "sk:" + enum.name + SnakeToPascal(raw)
                    && (UpperParts(raw) ==> Unpascal(true, v.conceptName[|"sk:" + enum.name|..]) == raw)
  {
    var name := Kept(enum.values)[i];
    var raw := Raw(enum.name, name);
    var head := "sk:" + enum.name;
    TitleLength(true, raw);
    assert Labels(raw, ToTitle(raw)) by {
      forall j | 0 <= j < |raw|
        ensures ToTitle(raw)[j] == if raw[j] == '_' then ' '
                                   else if j == 0
                                       || raw[j - 1] == '_' then ToUpper(ToLower(raw[j])) else ToLower(raw[j])
      {
        TitleByPlace(true, raw, j);
      }
    }
    assert (head + SnakeToPascal(raw))[|head|..] == SnakeToPascal(raw);
    if UpperParts(raw) {
      UnpascalPascal(raw);
    }
    assert Trimmed(enum.name, name, raw);
  }

  // ----- values of different enums -----

  /**
   When the enum's name comes back from snake case and prefixes the value, the concept name is that of the whole
   value.
   */
  lemma ConceptOfWholeName(enumName: string, name: string)
    requires CamelReturns(enumName) && CamelToSnake(enumName) + "_" <= name
    ensures ConceptName(enumName, name) == "sk:" + SnakeToPascal(name)
  {
    var raw := Raw(enumName, name);
    assert name == CamelToSnake(enumName) + ("_" + raw);
    PascalAppend(true, CamelToSnake(enumName), raw);
    CamelRoundTrip(enumName);
    assert "sk:" + enumName + SnakeToPascal(raw) == "sk:" + (enumName + SnakeToPascal(raw));
  }

  /**
   Values of any two such enums get one concept name exactly if their own names differ in nothing snakeToPascal
   keeps.
   */
  lemma EnumsCollideIff(enum1: string, a: string, enum2: string, b: string)
    requires CamelReturns(enum1) && CamelToSnake(enum1) + "_" <= a
    requires CamelReturns(enum2) && CamelToSnake(enum2) + "_" <= b
    ensures ConceptName(enum1, a) == ConceptName(enum2, b) <==> Bare(a) == Bare(b) && Heads(true, a) == Heads(true, b)
    ensures UpperParts(a) && UpperParts(b) ==> (ConceptName(enum1, a) == ConceptName(enum2, b) <==> a == b)
  {
    ConceptOfWholeName(enum1, a);
    ConceptOfWholeName(enum2, b);
    PascalCollideIff(a, b);
    assert ("sk:" + SnakeToPascal(a))[3..] == SnakeToPascal(a) && ("sk:" + SnakeToPascal(b))[3..] == SnakeToPascal(b);
    if UpperParts(a) && UpperParts(b) && SnakeToPascal(a) == SnakeToPascal(b) {
      PascalInjective(a, b);
    }
  }

  /** Whatever the enums and values: one enum's name must extend the other's, and the rests must meet. */
  lemma EnumsMeetIff(enum1: string, a: string, enum2: string, b: string)
    ensures ConceptName(enum1, a) == ConceptName(enum2, b) <==>
              || (enum1 <= enum2
                  && SnakeToPascal(Raw(enum1, a)) == enum2[|enum1|..] + SnakeToPascal(Raw(enum2, b)))
              || (enum2 <= enum1
                  && SnakeToPascal(Raw(enum2, b)) == enum1[|enum2|..] + SnakeToPascal(Raw(enum1, a)))
  {
    var pa, pb := SnakeToPascal(Raw(enum1, a)), SnakeToPascal(Raw(enum2, b));
    assert ConceptName(enum1, a) == "sk:" + (enum1 + pa) && ConceptName(enum2, b) == "sk:" + (enum2 + pb);
    assert ("sk:" + (enum1 + pa))[3..] == enum1 + pa && ("sk:" + (enum2 + pb))[3..] == enum2 + pb;
    SameSum(enum1, pa, enum2, pb);
  }

  lemma SameSum(a: string, x: string, b: string, y: string)
    ensures a + x == b + y <==> (a <= b && x == b[|a|..] + y) || (b <= a && y == a[|b|..] + x)
  {
    if a + x == b + y {
      if |a| <= |b| {
        assert a == (a + x)[..|a|] == (b + y)[..|a|] == b[..|a|];
        assert x == (a + x)[|a|..] == (b + y)[|a|..] == b[|a|..] + y;
      } else {
        assert b == (b + y)[..|b|] == (a + x)[..|b|] == a[..|b|];
        assert y == (b + y)[|b|..] == (a + x)[|b|..] == a[|b|..] + x;
      }
    }
    if a <= b && x == b[|a|..] + y {
      assert a + x == (a + b[|a|..]) + y && a + b[|a|..] == b;
    }
    if b <= a && y == a[|b|..] + x {
      assert b + y == (b + a[|b|..]) + x && b + a[|b|..] == a;
    }
  }

  /** Two enums of which one name extends the other, with one value name: one concept name. */
  lemma EnumsCollideExample()
    ensures ConceptName("Go", "GO_UP_NOW") == ConceptName("GoUp", "GO_UP_NOW")
  {
    ShorterName();
    LongerName();
    EnumsCollideIff("Go", "GO_UP_NOW", "GoUp", "GO_UP_NOW");
  }

  lemma ShorterName()
    ensures CamelReturns("Go") && CamelToSnake("Go") + "_" <= "GO_UP_NOW"
  {
    assert CamelToSnake("Go") == "GO";
    assert "GO" + "_" == "GO_UP_NOW"[..3];
  }

  lemma LongerName()
    ensures CamelReturns("GoUp") && CamelToSnake("GoUp") + "_" <= "GO_UP_NOW"
  {
    SnakeExample();
    assert "GO_UP" + "_" == "GO_UP_NOW"[..6];
  }
}
