/** The flat-address parser against its printer. */
module Address {
  import opened Domain

  datatype PostalAddress = PostalAddress(
    line1: string, line2: Option<string>, city: string, district: Option<string>, state: string, postalCode: string)

  // ---- The string operations they use ----

  /** White space and line terminators, as String.prototype.trim removes them. */
  predicate IsSpace(c: char) {
    var u := c as int;
    || 9 <= u <= 13 || u == 32 || u == 0xA0 || u == 0x1680 || 0x2000 <= u <= 0x200A
    || u == 0x2028 || u == 0x2029 || u == 0x202F || u == 0x205F || u == 0x3000 || u == 0xFEFF
  }

  function TrimStart(s: string): string {
    if s != "" && IsSpace(s[0]) then TrimStart(s[1..]) else s
  }

  function TrimEnd(s: string): string {
    if s != "" && IsSpace(s[|s| - 1]) then TrimEnd(s[..|s| - 1]) else s
  }

  function Trim(s: string): string { TrimEnd(TrimStart(s)) }

  /** The length of the first comma-separated segment. */
  function UpToComma(s: string): (n: nat)
    ensures n <= |s| && ',' !in s[..n]
    ensures n < |s| ==> s[n] == ','
  {
    if s == "" || s[0] == ',' then 0 else 1 + UpToComma(s[1..])
  }

  /** split(","): one segment more than there are commas. */
  function Split(s: string): (segments: seq<string>)
    ensures segments != []
    decreases |s|
  {
    var n := UpToComma(s);
    if n == |s| then [s] else [s[..n]] + Split(s[n + 1..])
  }

  function Kept(part: string): seq<string> { if part == "" then [] else [part] }

  /** map(trim), then filter(Boolean). */
  function TrimAll(segments: seq<string>): seq<string> {
    if segments == [] then [] else Kept(Trim(segments[0])) + TrimAll(segments[1..])
  }

  function PartsOf(s: string): seq<string> { TrimAll(Split(s)) }

  function Join(parts: seq<string>): string {
    if parts == [] then ""
    else if |parts| == 1 then parts[0]
    else parts[0] + ", " + Join(parts[1..])
  }

  predicate SixDigits(s: string) {
    |s| == 6 && forall i :: 0 <= i < |s| ==> '0' <= s[i] <= '9'
  }

  // ---- Parser and printer ----

  /** How many leading parts make up line1. */
  function LineCount(parts: seq<string>): nat
    requires parts != []
  {
    Max(|parts| - (if SixDigits(parts[|parts| - 1]) then 3 else 1), 1)
  }

  function FromParts(parts: seq<string>): PostalAddress
    requires parts != []
  {
    var n := |parts|;
    var line := Join(parts[..LineCount(parts)]);
    PostalAddress(
      if line == "" then parts[0] else line,
      None,
      if n >= 3 then parts[n - 3] else "",
      None,
      if n >= 2 then parts[n - 2] else "",
      if SixDigits(parts[n - 1]) then parts[n - 1] else "")
  }

  function ParseFlatAddress(value: string): Option<PostalAddress> {
    if Trim(value) == "" || PartsOf(value) == [] then None else Some(FromParts(PartsOf(value)))
  }

  function Given(s: Option<string>): string { if s.Some? then s.value else "" }

  function AddressToFlatString(a: PostalAddress): string {
    Join(Kept(a.line1) + Kept(Given(a.line2)) + Kept(a.city) + Kept(Given(a.district)) + Kept(a.state)
         + Kept(a.postalCode))
  }

  // ---- Parts are clean, and clean parts survive being joined ----

  /** A part as the parser produces it: not blank, trimmed and without commas. */
  predicate Clean(part: string) {
    part != "" && Trim(part) == part && ',' !in part
  }

  predicate AllClean(parts: seq<string>) { forall part :: part in parts ==> Clean(part) }

  lemma {:induction false} TrimStartFacts(s: string)
    ensures TrimStart(TrimStart(s)) == TrimStart(s)
    ensures forall c :: c in TrimStart(s) ==> c in s
    ensures TrimStart(s) != "" ==> !IsSpace(TrimStart(s)[0])
  {
    if s != "" && IsSpace(s[0]) { TrimStartFacts(s[1..]); }
  }

  lemma {:induction false} TrimEndFacts(s: string)
    ensures TrimEnd(TrimEnd(s)) == TrimEnd(s)
    ensures TrimEnd(s) <= s
    ensures TrimEnd(s) != "" ==> !IsSpace(TrimEnd(s)[|TrimEnd(s)| - 1])
  {
    if s != "" && IsSpace(s[|s| - 1]) { TrimEndFacts(s[..|s| - 1]); }
  }

  lemma TrimFacts(s: string)
    ensures Trim(Trim(s)) == Trim(s)
    ensures forall c :: c in Trim(s) ==> c in s
  {
    var t := TrimStart(s);
    TrimStartFacts(s);
    TrimEndFacts(t);
    var u := TrimEnd(t);
    if u != "" { assert u[0] == t[0]; }
    forall c | c in u ensures c in t {
      var i :| 0 <= i < |u| && u[i] == c;
      assert t[i] == c;
    }
  }

  lemma {:induction false} SegmentsHaveNoCommas(s: string)
    ensures forall segment :: segment in Split(s) ==> ',' !in segment
    decreases |s|
  {
    var n := UpToComma(s);
    if n == |s| { assert s[..n] == s; } else { SegmentsHaveNoCommas(s[n + 1..]); }
  }

  lemma {:induction false} TrimAllCleans(segments: seq<string>)
    requires forall segment :: segment in segments ==> ',' !in segment
    ensures AllClean(TrimAll(segments))
  {
    if segments == [] {
    } else {
      TrimAllCleans(segments[1..]);
      TrimFacts(segments[0]);
      assert segments[0] in segments;
    }
  }

  /** Every part is trimmed, comma-free and not blank. */
  lemma PartsAreClean(s: string)
    ensures AllClean(PartsOf(s))
  {
    SegmentsHaveNoCommas(s);
    TrimAllCleans(Split(s));
  }

  lemma {:induction false} UpToCommaOf(a: string, rest: string)
    requires ',' !in a
    ensures UpToComma(a + "," + rest) == |a|
    ensures UpToComma(a) == |a|
  {
    if a == "" {
    } else {
      assert (a + "," + rest)[1..] == a[1..] + "," + rest;
      UpToCommaOf(a[1..], rest);
    }
  }

  lemma SplitAtComma(a: string, rest: string)
    requires ',' !in a
    ensures Split(a + "," + rest) == [a] + Split(rest)
    ensures Split(a) == [a]
  {
    UpToCommaOf(a, rest);
    var s := a + "," + rest;
    assert s[..|a|] == a && s[|a| + 1..] == rest;
  }

  lemma OneSegment(segment: string)
    ensures TrimAll([segment]) == Kept(Trim(segment))
  {
    assert [segment][1..] == [];
  }

  /** A leading space belongs to the first segment, and is trimmed away. */
  lemma LeadingSpace(s: string)
    ensures PartsOf(" " + s) == PartsOf(s)
  {
    var t := " " + s;
    assert t[1..] == s;
    var n := UpToComma(s);
    assert UpToComma(t) == n + 1;
    if n < |s| {
      assert t[..n + 1] == " " + s[..n] && t[n + 2..] == s[n + 1..];
      assert Split(t) == [" " + s[..n]] + Split(s[n + 1..]);
      assert Split(s) == [s[..n]] + Split(s[n + 1..]);
      SpaceIsTrimmed(s[..n]);
    } else {
      assert Split(t) == [t] && Split(s) == [s];
      OneSegment(t);
      OneSegment(s);
      SpaceIsTrimmed(s);
    }
  }

  lemma SpaceIsTrimmed(s: string)
    ensures Trim(" " + s) == Trim(s)
  {
    assert (" " + s)[1..] == s;
  }

  /** Joining clean parts loses nothing: they are read back exactly. */
  lemma {:induction false} JoinedPartsAreReadBack(parts: seq<string>)
    requires AllClean(parts)
    ensures PartsOf(Join(parts)) == parts
  {
    if parts == [] {
      assert Split("") == [""];
    } else {
      var first := parts[0];
      assert first in parts;
      if |parts| == 1 {
        SplitAtComma(first, "");
        OneSegment(first);
        assert parts == [first];
      } else {
        var rest := parts[1..];
        JoinedPartsAreReadBack(rest);
        assert Join(parts) == first + "," + (" " + Join(rest));
        SplitAtComma(first, " " + Join(rest));
        LeadingSpace(Join(rest));
        assert TrimAll([first] + Split(" " + Join(rest))) == [first] + PartsOf(" " + Join(rest));
        assert parts == [first] + rest;
      }
    }
  }

  lemma JoinIsInjective(a: seq<string>, b: seq<string>)
    requires AllClean(a) && AllClean(b)
    ensures Join(a) == Join(b) <==> a == b
  {
    JoinedPartsAreReadBack(a);
    JoinedPartsAreReadBack(b);
  }

  lemma {:induction false} JoinConcat(a: seq<string>, b: seq<string>)
    requires a != []
    ensures Join([Join(a)] + b) == Join(a + b)
  {
    if |a| == 1 {
      assert a == [a[0]];
    } else {
      var rest := a[1..];
      JoinConcat(rest, b);
      assert a + b == [a[0]] + (rest + b);
      assert (a + b)[1..] == rest + b;
      assert ([Join(a)] + b)[1..] == b && ([Join(rest)] + b)[1..] == b;
      if b == [] {
        assert a + b == a && [Join(a)] + b == [Join(a)];
      } else {
        assert Join([Join(rest)] + b) == Join(rest) + ", " + Join(b);
        assert Join([Join(a)] + b) == Join(a) + ", " + Join(b);
      }
    }
  }

  // ---- Printing a parsed address ----

  /** The parts that a parsed address prints. */
  function PrintedParts(parts: seq<string>): seq<string>
    requires parts != []
  {
    var n := |parts|;
    parts[..LineCount(parts)]
    + (if n >= 3 then [parts[n - 3]] else [])
    + (if n >= 2 then [parts[n - 2]] else [])
    + (if SixDigits(parts[n - 1]) then [parts[n - 1]] else [])
  }

  lemma {:induction false} AllSpaces(s: string)
    requires TrimStart(s) == ""
    ensures forall c :: c in s ==> IsSpace(c)
  {
    if s == "" {
    } else {
      AllSpaces(s[1..]);
      assert s == [s[0]] + s[1..];
    }
  }

  lemma {:induction false} TrimEndKeepsTheFirst(s: string)
    requires s != "" && !IsSpace(s[0])
    ensures TrimEnd(s) != ""
  {
    if IsSpace(s[|s| - 1]) { TrimEndKeepsTheFirst(s[..|s| - 1]); }
  }

  /** A blank string has no parts; otherwise the parse depends on the parts only. */
  lemma BlankHasNoParts(s: string)
    requires Trim(s) == ""
    ensures PartsOf(s) == []
  {
    var t := TrimStart(s);
    TrimStartFacts(s);
    if t != "" { TrimEndKeepsTheFirst(t); }
    AllSpaces(s);
    assert ',' !in s;
    SplitAtComma(s, "");
    OneSegment(s);
  }

  lemma ParseNeedsParts(s: string)
    ensures ParseFlatAddress(s).Some? <==> PartsOf(s) != []
  {
    if Trim(s) == "" { BlankHasNoParts(s); }
  }

  lemma ParseDependsOnParts(s: string, t: string)
    requires PartsOf(s) == PartsOf(t)
    ensures ParseFlatAddress(s) == ParseFlatAddress(t)
  {
    ParseNeedsParts(s);
    ParseNeedsParts(t);
  }

  lemma PrintedPartsAreClean(parts: seq<string>)
    requires parts != [] && AllClean(parts)
    ensures AllClean(PrintedParts(parts))
  {
    forall i | 0 <= i < |parts| ensures Clean(parts[i]) { assert parts[i] in parts; }
  }

  function Tail(parts: seq<string>): seq<string>
    requires parts != []
  {
    var n := |parts|;
    (if n >= 3 then [parts[n - 3]] else [])
    + (if n >= 2 then [parts[n - 2]] else [])
    + (if SixDigits(parts[n - 1]) then [parts[n - 1]] else [])
  }

  lemma KeptFields(parts: seq<string>)
    requires parts != [] && AllClean(parts)
    ensures var a := FromParts(parts);
      Kept(a.city) + Kept(a.state) + Kept(a.postalCode) == Tail(parts)
  {
    forall i | 0 <= i < |parts| ensures parts[i] != "" { assert parts[i] in parts; }
  }

  lemma PrintOfFields(parts: seq<string>)
    requires parts != [] && AllClean(parts)
    ensures AddressToFlatString(FromParts(parts)) == Join(PrintedParts(parts))
  {
    var lines, a := parts[..LineCount(parts)], FromParts(parts);
    assert parts[0] in parts && lines[0] == parts[0];
    assert Join(lines) != "";
    KeptFields(parts);
    assert Kept(a.line1) + Kept(Given(a.line2)) + Kept(a.city) + Kept(Given(a.district)) + Kept(a.state)
      + Kept(a.postalCode) == [Join(lines)] + (Kept(a.city) + Kept(a.state) + Kept(a.postalCode));
    JoinConcat(lines, Tail(parts));
    assert PrintedParts(parts) == lines + Tail(parts);
  }

  /** When printing the parse gives back the parts. */
  predicate Stable(parts: seq<string>)
    requires parts != []
  {
    var n, coded := |parts|, SixDigits(parts[|parts| - 1]);
    || (n >= 4 && coded)
    || (n == 1 && !coded)
    || (n == 2 && !coded && parts[0] == parts[1])
  }

  /**
   * Printing the parse gives the parts joined by ", " exactly if there are at least four of them ending in
   * a six-digit code, or one that is not a code, or the same one twice.
   */
  lemma PrintingTheParse(s: string)
    requires PartsOf(s) != []
    ensures ParseFlatAddress(s).Some?
    ensures AddressToFlatString(ParseFlatAddress(s).value) == Join(PartsOf(s)) <==> Stable(PartsOf(s))
  {
    var parts := PartsOf(s);
    ParseNeedsParts(s);
    PartsAreClean(s);
    PrintOfFields(parts);
    PrintedPartsAreClean(parts);
    JoinIsInjective(PrintedParts(parts), parts);
    StableIsPrinted(parts);
  }

  lemma StableIsPrinted(parts: seq<string>)
    requires parts != []
    ensures PrintedParts(parts) == parts <==> Stable(parts)
  {
    var n := |parts|;
    if n >= 4 && SixDigits(parts[n - 1]) {
      assert PrintedParts(parts) == parts[..n - 3] + [parts[n - 3]] + [parts[n - 2]] + [parts[n - 1]] == parts;
    } else if n == 2 {
      assert PrintedParts(parts)[1] == parts[0];
    }
  }

  /** Then doing it again changes nothing. */
  lemma PrintingTheParseAgain(s: string)
    requires PartsOf(s) != [] && Stable(PartsOf(s))
    ensures ParseFlatAddress(s).Some?
    ensures ParseFlatAddress(AddressToFlatString(ParseFlatAddress(s).value)) == ParseFlatAddress(s)
  {
    PrintingTheParse(s);
    PartsAreClean(s);
    JoinedPartsAreReadBack(PartsOf(s));
    ParseDependsOnParts(Join(PartsOf(s)), s);
  }

  // ---- Parsing a printed address ----

  /** A printed address is read back exactly if it has no line2 and no district, and a six-digit code. */
  lemma ParsingThePrint(a: PostalAddress)
    requires Clean(a.line1) && Clean(a.city) && Clean(a.state) && Clean(a.postalCode)
    ensures ParseFlatAddress(AddressToFlatString(a)) == Some(a) <==>
      a.line2 == None && a.district == None && SixDigits(a.postalCode)
  {
    var parts := [a.line1, a.city, a.state, a.postalCode];
    if a.line2 == None && a.district == None {
      assert Kept(a.line1) + Kept("") + Kept(a.city) + Kept("") + Kept(a.state) + Kept(a.postalCode) == parts;
      JoinedPartsAreReadBack(parts);
      ParseNeedsParts(Join(parts));
      if SixDigits(a.postalCode) { assert parts[..1] == [a.line1]; }
    }
  }

  /** Which part becomes which field, counted from the end. */
  lemma FieldsOfParts(s: string)
    requires PartsOf(s) != []
    ensures ParseFlatAddress(s).Some?
    ensures var parts, a := PartsOf(s), ParseFlatAddress(s).value;
      var n := |parts|;
      var coded := |parts[n - 1]| == 6 && forall c :: c in parts[n - 1] ==> c in "0123456789";
      && a.postalCode == (if coded then parts[n - 1] else "")
      && a.state == (if n >= 2 then parts[n - 2] else "")
      && a.city == (if n >= 3 then parts[n - 3] else "")
      && a.line2 == None && a.district == None
      && a.line1 == Join(if n == 1 then parts else if coded && n <= 4 then parts[..1] else if coded then parts[..n - 3]
                         else parts[..n - 1])
  {
    var parts := PartsOf(s);
    ParseNeedsParts(s);
    PartsAreClean(s);
    DigitsAreTen(parts[|parts| - 1]);
    assert parts[0] in parts;
    assert parts[..|parts|] == parts;
  }

  lemma DigitsAreTen(s: string)
    ensures SixDigits(s) <==> |s| == 6 && forall c :: c in s ==> c in "0123456789"
  {
    forall i | 0 <= i < |s| ensures '0' <= s[i] <= '9' <==> s[i] in "0123456789" { TenDigits(s[i]); }
    assert forall i :: 0 <= i < |s| ==> s[i] in s;
  }

  predicate IsTen(c: char) { '0' <= c <= '9' }

  lemma TenDigits(c: char)
    ensures IsTen(c) <==> c in "0123456789"
  {
    if IsTen(c) { assert c == "0123456789"[c as int - '0' as int]; }
  }

  // ---- Nothing is lost in reading ----

  /** The segments with their commas put back. */
  function Glue(segments: seq<string>): string
    requires segments != []
  {
    if |segments| == 1 then segments[0] else segments[0] + "," + Glue(segments[1..])
  }

  /** Splitting cuts at the commas and nowhere else. */
  lemma {:induction false} SplittingLosesNothing(s: string)
    ensures Glue(Split(s)) == s
    decreases |s|
  {
    var n := UpToComma(s);
    if n < |s| {
      SplittingLosesNothing(s[n + 1..]);
      assert ([s[..n]] + Split(s[n + 1..]))[1..] == Split(s[n + 1..]);
      assert s == s[..n] + "," + s[n + 1..];
    }
  }

  predicate AllSpace(s: string) { forall c :: c in s ==> IsSpace(c) }

  lemma {:induction false} StartIsSpace(s: string) returns (before: string)
    ensures s == before + TrimStart(s) && AllSpace(before)
  {
    before := "";
    if s != "" && IsSpace(s[0]) {
      before := StartIsSpace(s[1..]);
      before := [s[0]] + before;
    }
  }

  lemma {:induction false} EndIsSpace(s: string) returns (after: string)
    ensures s == TrimEnd(s) + after && AllSpace(after)
  {
    after := "";
    if s != "" && IsSpace(s[|s| - 1]) {
      after := EndIsSpace(s[..|s| - 1]);
      assert s == s[..|s| - 1] + [s[|s| - 1]];
      after := after + [s[|s| - 1]];
    }
  }

  /** Trimming takes all the white space off both ends and nothing else. */
  lemma TrimmingCutsSpace(s: string) returns (before: string, after: string)
    ensures s == before + Trim(s) + after && AllSpace(before) && AllSpace(after)
    ensures Trim(s) != "" ==> !IsSpace(Trim(s)[0]) && !IsSpace(Trim(s)[|Trim(s)| - 1])
  {
    before := StartIsSpace(s);
    after := EndIsSpace(TrimStart(s));
    TrimStartFacts(s);
    TrimEndFacts(TrimStart(s));
    if Trim(s) != "" { assert Trim(s)[0] == TrimStart(s)[0]; }
  }

  /** The white space and line terminators of ECMA-262, sections 12.2 and 12.3. */
  lemma SpacesByCode(c: char)
    ensures IsSpace(c) <==>
      c as int in {
        0x9, 0xA, 0xB, 0xC, 0xD, 0x20, 0xA0, 0x1680, 0x2000, 0x2001, 0x2002, 0x2003, 0x2004, 0x2005, 0x2006,
        0x2007, 0x2008, 0x2009, 0x200A, 0x2028, 0x2029, 0x202F, 0x205F, 0x3000, 0xFEFF}
  {
  }
}
