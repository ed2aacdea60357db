/** JSON.stringify, and why equal texts are equal values: hashes and comparisons depend on meaning only. */
module JsonText {
  import opened CanonicalJson

  function HexDigit(n: nat): char
    requires n < 16
  {
    "0123456789abcdef"[n]
  }

  function Escape(c: char): (text: string)
    ensures text != "" && text[0] != '"'
    ensures text[0] == '\\' <==> text != [c]
  {
    if c == '"' then "\\\""
    else if c == '\\' then "\\\\"
    else if c == 8 as char then "\\b"
    else if c == 9 as char then "\\t"
    else if c == 10 as char then "\\n"
    else if c == 12 as char then "\\f"
    else if c == 13 as char then "\\r"
    else if c < ' ' then "\\u00" + [HexDigit(c as int / 16), HexDigit(c as int % 16)]
    else [c]
  }

  function EscapeAll(s: string): string {
    if s == "" then "" else Escape(s[0]) + EscapeAll(s[1..])
  }

  function Quote(s: string): string { "\"" + EscapeAll(s) + "\"" }

  /** JSON.stringify without indentation. */
  function Print(v: Json): string
    decreases v, 1, 0
  {
    match v
    case Null => "null"
    case Bool(flag) => if flag then "true" else "false"
    case Num(text) => text
    case Str(chars) => Quote(chars)
    case Arr(_) => "[" + ItemsFrom(v, 0)
    case Obj(_) => "{" + MembersFrom(v, 0)
  }

  function Separator(i: nat): string { if i == 0 then "" else "," }

  function ItemsFrom(v: Json, i: nat): string
    requires v.Arr? && i <= |v.items|
    decreases v, 0, |v.items| - i
  {
    if i == |v.items| then "]" else Separator(i) + (Print(v.items[i]) + ItemsFrom(v, i + 1))
  }

  function MembersFrom(v: Json, i: nat): string
    requires v.Obj? && i <= |v.members|
    decreases v, 0, |v.members| - i
  {
    if i == |v.members| then "}"
    else Separator(i) + (Quote(v.members[i].key) + (":" + (Print(v.members[i].value) + MembersFrom(v, i + 1))))
  }

  /** What a printed number looks like. */
  predicate IsNumber(text: string) {
    text != "" && (IsDigit(text[0]) || text[0] == '-')
    && forall c :: c in text ==> IsNumberChar(c)
  }

  type Numeral = text: string | IsNumber(text) witness "0"

  predicate HasNumbers(v: Json) {
    match v
    case Num(text) => IsNumber(text)
    case Arr(items) => forall i :: 0 <= i < |items| ==> HasNumbers(items[i])
    case Obj(members) => forall i :: 0 <= i < |members| ==> HasNumbers(members[i].value)
    case _ => true
  }

  // ---- Every prefix of a text can be read in one way only ----

  lemma CutFront(a: string, x: string, y: string)
    requires a + x == a + y
    ensures x == y
  {
    assert x == (a + x)[|a|..] == (a + y)[|a|..] == y;
  }

  function HexValue(c: char): int { if IsDigit(c) then c as int - '0' as int else c as int - 'a' as int + 10 }

  lemma HexDigitIsRead(n: nat)
    requires n < 16
    ensures HexValue(HexDigit(n)) == n
  {
  }

  /** The escape of a control character spells out its code. */
  lemma ControlEscape(c: char)
    requires Escape(c)[0] == '\\' && Escape(c)[1] == 'u'
    ensures |Escape(c)| == 6
    ensures c as int == 16 * HexValue(Escape(c)[4]) + HexValue(Escape(c)[5])
  {
    HexDigitIsRead(c as int / 16);
    HexDigitIsRead(c as int % 16);
  }

  /** Two escapes are told apart by their first characters, so neither is a prefix of the other. */
  lemma EscapesDiffer(c: char, d: char)
    requires Escape(c)[0] == Escape(d)[0]
    requires Escape(c)[0] == '\\' ==> Escape(c)[1] == Escape(d)[1]
    requires Escape(c)[0] == '\\' && Escape(c)[1] == 'u' ==> Escape(c)[4..] == Escape(d)[4..]
    ensures c == d
  {
    if Escape(c)[0] == '\\' && Escape(c)[1] == 'u' {
      ControlEscape(c);
      ControlEscape(d);
      assert Escape(c)[4..][0] == Escape(d)[4..][0] && Escape(c)[4..][1] == Escape(d)[4..][1];
    }
  }

  lemma EscapeSplits(c: char, d: char, x: string, y: string)
    requires Escape(c) + x == Escape(d) + y
    ensures c == d && x == y
  {
    var s, t := Escape(c) + x, Escape(d) + y;
    assert s[0] == Escape(c)[0] && t[0] == Escape(d)[0];
    if Escape(c)[0] == '\\' {
      assert s[1] == Escape(c)[1] && t[1] == Escape(d)[1];
      if Escape(c)[1] == 'u' {
        assert s[4..6] == Escape(c)[4..] && t[4..6] == Escape(d)[4..];
      }
    }
    EscapesDiffer(c, d);
    CutFront(Escape(c), x, y);
  }

  lemma QuotedStart(a: string, x: string)
    ensures (EscapeAll(a) + "\"" + x)[0] == '"' <==> a == ""
  {
    assert (EscapeAll(a) + "\"" + x)[0] == if a == "" then '"' else Escape(a[0])[0];
  }

  lemma {:induction false} QuotedSplits(a: string, b: string, x: string, y: string)
    requires EscapeAll(a) + "\"" + x == EscapeAll(b) + "\"" + y
    ensures a == b && x == y
  {
    QuotedStart(a, x);
    QuotedStart(b, y);
    if a == "" {
      assert EscapeAll(a) + "\"" + x == "\"" + x && EscapeAll(b) + "\"" + y == "\"" + y;
      CutFront("\"", x, y);
    } else {
      Regroup(a, x);
      Regroup(b, y);
      EscapeSplits(a[0], b[0], EscapeAll(a[1..]) + "\"" + x, EscapeAll(b[1..]) + "\"" + y);
      QuotedSplits(a[1..], b[1..], x, y);
      assert a == [a[0]] + a[1..] && b == [b[0]] + b[1..];
    }
  }

  lemma Regroup(a: string, x: string)
    requires a != ""
    ensures EscapeAll(a) + "\"" + x == Escape(a[0]) + (EscapeAll(a[1..]) + "\"" + x)
  {
  }

  lemma QuoteText(a: string, x: string)
    ensures Quote(a) + x == "\"" + (EscapeAll(a) + "\"" + x)
  {
  }

  lemma QuoteSplits(a: string, b: string, x: string, y: string)
    requires Quote(a) + x == Quote(b) + y
    ensures a == b && x == y
  {
    QuoteText(a, x);
    QuoteText(b, y);
    CutFront("\"", EscapeAll(a) + "\"" + x, EscapeAll(b) + "\"" + y);
    QuotedSplits(a, b, x, y);
  }

  /** What can follow a value inside a text. */
  predicate Delimited(s: string) { s == "" || s[0] in ",]}" }

  predicate IsNumberChar(c: char) { IsDigit(c) || c in "+-.e" }

  function NumberSpan(s: string): nat {
    if s == "" || !IsNumberChar(s[0]) then 0 else 1 + NumberSpan(s[1..])
  }

  lemma {:induction false} NumberSpanOf(a: string, x: string)
    requires (forall c :: c in a ==> IsNumberChar(c)) && Delimited(x)
    ensures NumberSpan(a + x) == |a|
  {
    if a == "" {
      assert a + x == x;
    } else {
      assert (a + x)[1..] == a[1..] + x;
      NumberSpanOf(a[1..], x);
    }
  }

  lemma NumberSplits(a: string, b: string, x: string, y: string)
    requires IsNumber(a) && IsNumber(b)
    requires Delimited(x) && Delimited(y) && a + x == b + y
    ensures a == b && x == y
  {
    NumberSpanOf(a, x);
    NumberSpanOf(b, y);
    assert a == (a + x)[..|a|] == (b + y)[..|b|] == b;
    CutFront(a, x, y);
  }

  /** The first character tells the kind of value. */
  lemma FirstOfPrint(v: Json)
    requires HasNumbers(v)
    ensures Print(v) != ""
    ensures match v
      case Null => Print(v)[0] == 'n'
      case Bool(flag) => Print(v)[0] == (if flag then 't' else 'f')
      case Num(_) => IsDigit(Print(v)[0]) || Print(v)[0] == '-'
      case Str(_) => Print(v)[0] == '"'
      case Arr(_) => Print(v)[0] == '['
      case Obj(_) => Print(v)[0] == '{'
  {
  }

  lemma {:induction false} PrintSplits(v: Json, w: Json, x: string, y: string)
    requires HasNumbers(v) && HasNumbers(w) && Delimited(x) && Delimited(y)
    requires Print(v) + x == Print(w) + y
    ensures v == w && x == y
    decreases v, 1, 0
  {
    FirstOfPrint(v);
    FirstOfPrint(w);
    assert (Print(v) + x)[0] == Print(v)[0] && (Print(w) + y)[0] == Print(w)[0];
    match v {
      case Num(_) => NumberSplits(v.text, w.text, x, y);
      case Str(_) => QuoteSplits(v.chars, w.chars, x, y);
      case Arr(_) => ArraySplits(v, w, x, y);
      case Obj(_) => ObjectSplits(v, w, x, y);
      case _ => CutFront(Print(v), x, y);
    }
  }

  lemma {:induction false} ArraySplits(v: Json, w: Json, x: string, y: string)
    requires v.Arr? && w.Arr? && HasNumbers(v) && HasNumbers(w)
    requires Print(v) + x == Print(w) + y
    ensures v == w && x == y
    decreases v, 0, |v.items| + 1
  {
    assert Print(v) + x == "[" + (ItemsFrom(v, 0) + x) && Print(w) + y == "[" + (ItemsFrom(w, 0) + y);
    CutFront("[", ItemsFrom(v, 0) + x, ItemsFrom(w, 0) + y);
    ItemsSplit(v, w, 0, x, y);
    assert v.items == v.items[0..] == w.items[0..] == w.items;
  }

  lemma ObjectText(v: Json, x: string)
    requires v.Obj?
    ensures Print(v) + x == "{" + (MembersFrom(v, 0) + x)
  {
  }

  lemma {:induction false} ObjectSplits(v: Json, w: Json, x: string, y: string)
    requires v.Obj? && w.Obj? && HasNumbers(v) && HasNumbers(w)
    requires Print(v) + x == Print(w) + y
    ensures v == w && x == y
    decreases v, 0, |v.members| + 1
  {
    ObjectText(v, x);
    ObjectText(w, y);
    CutFront("{", MembersFrom(v, 0) + x, MembersFrom(w, 0) + y);
    MembersSplit(v, w, 0, x, y);
    assert v.members == v.members[0..] == w.members[0..] == w.members;
  }

  lemma ItemRegroups(v: Json, i: nat, x: string)
    requires v.Arr? && i < |v.items|
    ensures ItemsFrom(v, i) + x == Separator(i) + (Print(v.items[i]) + (ItemsFrom(v, i + 1) + x))
  {
  }

  lemma ItemsAreDelimited(v: Json, i: nat, x: string)
    requires v.Arr? && 0 < i <= |v.items|
    ensures Delimited(ItemsFrom(v, i) + x)
  {
  }

  /** The list ends in one text exactly where it ends in the other. */
  lemma ItemsEndTogether(v: Json, w: Json, i: nat, x: string, y: string)
    requires v.Arr? && w.Arr? && i <= |v.items| && i <= |w.items| && HasNumbers(v) && HasNumbers(w)
    requires ItemsFrom(v, i) + x == ItemsFrom(w, i) + y
    ensures i == |v.items| <==> i == |w.items|
  {
    var s, t := ItemsFrom(v, i) + x, ItemsFrom(w, i) + y;
    if i < |v.items| { FirstOfPrint(v.items[i]); assert s[0] == ItemsFrom(v, i)[0]; }
    if i < |w.items| { FirstOfPrint(w.items[i]); assert t[0] == ItemsFrom(w, i)[0]; }
  }

  lemma {:induction false} ItemsSplit(v: Json, w: Json, i: nat, x: string, y: string)
    requires v.Arr? && w.Arr? && i <= |v.items| && i <= |w.items| && HasNumbers(v) && HasNumbers(w)
    requires ItemsFrom(v, i) + x == ItemsFrom(w, i) + y
    ensures v.items[i..] == w.items[i..] && x == y
    decreases v, 0, |v.items| - i
  {
    ItemsEndTogether(v, w, i, x, y);
    if i == |v.items| {
      CutFront("]", x, y);
    } else {
      var a, b := ItemsFrom(v, i + 1) + x, ItemsFrom(w, i + 1) + y;
      ItemRegroups(v, i, x);
      ItemRegroups(w, i, y);
      CutFront(Separator(i), Print(v.items[i]) + a, Print(w.items[i]) + b);
      ItemsAreDelimited(v, i + 1, x);
      ItemsAreDelimited(w, i + 1, y);
      PrintSplits(v.items[i], w.items[i], a, b);
      ItemsSplit(v, w, i + 1, x, y);
      HeadAndTail(v.items, i);
      HeadAndTail(w.items, i);
    }
  }

  lemma MembersAreDelimited(v: Json, i: nat, x: string)
    requires v.Obj? && 0 < i <= |v.members|
    ensures Delimited(MembersFrom(v, i) + x)
  {
  }

  lemma MembersEndTogether(v: Json, w: Json, i: nat, x: string, y: string)
    requires v.Obj? && w.Obj? && i <= |v.members| && i <= |w.members|
    requires MembersFrom(v, i) + x == MembersFrom(w, i) + y
    ensures i == |v.members| <==> i == |w.members|
  {
    var s, t := MembersFrom(v, i) + x, MembersFrom(w, i) + y;
    assert s[0] == MembersFrom(v, i)[0] && t[0] == MembersFrom(w, i)[0];
  }

  lemma {:induction false} MembersSplit(v: Json, w: Json, i: nat, x: string, y: string)
    requires v.Obj? && w.Obj? && i <= |v.members| && i <= |w.members| && HasNumbers(v) && HasNumbers(w)
    requires MembersFrom(v, i) + x == MembersFrom(w, i) + y
    ensures v.members[i..] == w.members[i..] && x == y
    decreases v, 0, |v.members| - i
  {
    MembersEndTogether(v, w, i, x, y);
    if i == |v.members| {
      CutFront("}", x, y);
    } else {
      var a, b := MembersFrom(v, i + 1) + x, MembersFrom(w, i + 1) + y;
      MemberRegroups(v, i, x);
      MemberRegroups(w, i, y);
      CutFront(Separator(i), MemberText(v.members[i], a), MemberText(w.members[i], b));
      MembersAreDelimited(v, i + 1, x);
      MembersAreDelimited(w, i + 1, y);
      MemberSplits(v, i, w.members[i], a, b);
      MembersSplit(v, w, i + 1, x, y);
      HeadAndTail(v.members, i);
      HeadAndTail(w.members, i);
    }
  }

  lemma HeadAndTail<T>(s: seq<T>, i: nat)
    requires i < |s|
    ensures s[i..] == [s[i]] + s[i + 1..]
  {
  }

  function MemberText(m: Member, rest: string): string { Quote(m.key) + (":" + (Print(m.value) + rest)) }

  lemma {:induction false} MemberSplits(v: Json, i: nat, n: Member, a: string, b: string)
    requires v.Obj? && i < |v.members| && HasNumbers(v) && HasNumbers(n.value) && Delimited(a) && Delimited(b)
    requires MemberText(v.members[i], a) == MemberText(n, b)
    ensures v.members[i] == n && a == b
    decreases v, 0, 0
  {
    var m := v.members[i];
    QuoteSplits(m.key, n.key, ":" + (Print(m.value) + a), ":" + (Print(n.value) + b));
    CutFront(":", Print(m.value) + a, Print(n.value) + b);
    PrintSplits(m.value, n.value, a, b);
  }

  lemma MemberRegroups(v: Json, i: nat, x: string)
    requires v.Obj? && i < |v.members|
    ensures MembersFrom(v, i) + x == Separator(i) + MemberText(v.members[i], MembersFrom(v, i + 1) + x)
  {
  }

  /** JSON.stringify is injective. */
  lemma PrintIsInjective(v: Json, w: Json)
    requires HasNumbers(v) && HasNumbers(w)
    ensures Print(v) == Print(w) <==> v == w
  {
    if Print(v) == Print(w) {
      assert Print(v) + "" == Print(w) + "";
      PrintSplits(v, w, "", "");
    }
  }

  // ---- The canonical text ----

  function CanonicalText(v: Json): string { Print(SortValue(v)) }

  lemma {:induction false} SortingKeepsNumbers(v: Json)
    requires Proper(v) && HasNumbers(v)
    ensures HasNumbers(SortValue(v))
    decreases v
  {
    match v
    case Arr(items) =>
      forall i | 0 <= i < |items| ensures HasNumbers(SortValue(items[i])) {
        SortingKeepsNumbers(items[i]);
      }
    case Obj(members) =>
      var sorted := SortKeys(SortMembers(v));
      SortKeysSorts(SortMembers(v));
      forall k | 0 <= k < |sorted| ensures HasNumbers(sorted[k].value) {
        assert sorted[k] in SortMembers(v);
        var i :| 0 <= i < |members| && SortMembers(v)[i] == sorted[k];
        SortingKeepsNumbers(members[i].value);
      }
    case _ =>
  }

  /** Canonical texts agree exactly on values with the same meaning. */
  lemma TextDecidesMeaning(v: Json, w: Json)
    requires Proper(v) && Proper(w) && HasNumbers(v) && HasNumbers(w)
    ensures CanonicalText(v) == CanonicalText(w) <==> SameMeaning(v, w)
  {
    SortingKeepsNumbers(v);
    SortingKeepsNumbers(w);
    PrintIsInjective(SortValue(v), SortValue(w));
    SortedFormDecidesMeaning(v, w);
  }

  /** So does any injective digest of them: the payload hash and the snapshot hash depend on meaning only. */
  lemma DigestDecidesMeaning(digest: string -> string, v: Json, w: Json)
    requires forall a, b :: digest(a) == digest(b) ==> a == b
    requires Proper(v) && Proper(w) && HasNumbers(v) && HasNumbers(w)
    ensures digest(CanonicalText(v)) == digest(CanonicalText(w)) <==> SameMeaning(v, w)
  {
    TextDecidesMeaning(v, w);
  }

  // ---- Reading a string back ----

  /** What the character after a backslash stands for in RFC 8259, section 7. */
  function Unescaped(c: char): char {
    if c == 'b' then 8 as char
    else if c == 't' then 9 as char
    else if c == 'n' then 10 as char
    else if c == 'f' then 12 as char
    else if c == 'r' then 13 as char
    else c
  }

  function HexCode(a: char, b: char, c: char, d: char): int {
    4096 * HexValue(a) + 256 * HexValue(b) + 16 * HexValue(c) + HexValue(d)
  }

  /** A JSON string's contents; no \u escape in printed text spells a surrogate. */
  function Unescape(text: string): string {
    if text == "" then ""
    else if text[0] != '\\' || |text| == 1 then [text[0]] + Unescape(text[1..])
    else if text[1] != 'u' || |text| < 6 then [Unescaped(text[1])] + Unescape(text[2..])
    else
      var code := HexCode(text[2], text[3], text[4], text[5]);
      (if 0 <= code < 0xD800 then [code as char] else "") + Unescape(text[6..])
  }

  lemma UnescapeOne(c: char, rest: string)
    ensures Unescape(Escape(c) + rest) == [c] + Unescape(rest)
  {
    var text := Escape(c) + rest;
    if text[0] != '\\' {
      assert text[1..] == rest;
    } else if Escape(c)[1] == 'u' {
      ControlEscape(c);
      assert forall k :: 2 <= k < 6 ==> text[k] == Escape(c)[k];
      assert text[6..] == rest;
    } else {
      assert text[2..] == rest;
    }
  }

  /** Reading the printed form of a string gives the string back. */
  lemma {:induction false} StringsAreReadBack(s: string)
    ensures Unescape(EscapeAll(s)) == s
  {
    if s == "" {
    } else {
      UnescapeOne(s[0], EscapeAll(s[1..]));
      StringsAreReadBack(s[1..]);
    }
  }

  /** The values without parts, and their texts. */
  lemma PrintedValues(text: string)
    ensures Print(Null) == "null" && Print(Bool(true)) == "true" && Print(Bool(false)) == "false"
    ensures Print(Num(text)) == text && Print(Arr([])) == "[]" && Print(Obj([])) == "{}"
  {
  }

  /** A control character without an escape of its own. */
  lemma PrintedControl()
    ensures Escape('\U{1f}') == "\\u001f"
  {
  }

  /** Two values as the items of an array. */
  lemma PrintedItems(v: Json, w: Json)
    ensures Print(Arr([v, w])) == "[" + (Print(v) + ("," + (Print(w) + "]")))
  {
    var a := Arr([v, w]);
    assert ItemsFrom(a, 2) == "]";
    assert ItemsFrom(a, 1) == "," + (Print(w) + "]");
    assert ItemsFrom(a, 0) == "" + (Print(v) + ItemsFrom(a, 1));
  }

  lemma FromSecondMember(o: Json, l: string, w: Json)
    requires o.Obj? && |o.members| == 2 && o.members[1] == Member(l, w)
    ensures MembersFrom(o, 1) == "," + (Quote(l) + (":" + (Print(w) + "}")))
  {
    assert MembersFrom(o, 2) == "}";
  }

  /** Two values as the members of an object. */
  lemma PrintedMembers(k: string, v: Json, l: string, w: Json)
    ensures Print(Obj([Member(k, v), Member(l, w)]))
      == "{" + (Quote(k) + (":" + (Print(v) + ("," + (Quote(l) + (":" + (Print(w) + "}")))))))
  {
    var o := Obj([Member(k, v), Member(l, w)]);
    FromSecondMember(o, l, w);
    assert MembersFrom(o, 0) == "" + (Quote(k) + (":" + (Print(v) + MembersFrom(o, 1))));
  }
}
