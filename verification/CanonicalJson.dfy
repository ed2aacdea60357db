/** Canonical JSON: sorting object keys at every depth, and the text that is hashed and compared. */
module CanonicalJson {

  /** A JSON value; a number is its printed form, and an object lists its members in enumeration order. */
  datatype Json =
    | Null
    | Bool(flag: bool)
    | Num(text: string)
    | Str(chars: string)
    | Arr(items: seq<Json>)
    | Obj(members: seq<Member>)

  datatype Member = Member(key: string, value: Json)

  /** Assigning to this name sets the prototype instead of creating a member. */
  const PROTO := "__proto__"

  // ---- Key order of a sorted object ----

  predicate LexBefore(a: string, b: string) {
    if b == "" then false
    else if a == "" then true
    else a[0] < b[0] || (a[0] == b[0] && LexBefore(a[1..], b[1..]))
  }

  predicate IsDigit(c: char) { '0' <= c <= '9' }

  /** Keys that JavaScript enumerates as array indices, below 2^32 - 1. */
  predicate IsIndex(key: string) {
    && key != "" && (forall c :: c in key ==> IsDigit(c))
    && (key[0] == '0' ==> |key| == 1)
    && (|key| < 10 || (|key| == 10 && LexBefore(key, "4294967295")))
  }

  /** Index keys come first, in numeric order; the other keys follow in the order sort() gave them. */
  predicate KeyBefore(a: string, b: string) {
    if IsIndex(a) != IsIndex(b) then IsIndex(a)
    else if IsIndex(a) && |a| != |b| then |a| < |b|
    else LexBefore(a, b)
  }

  lemma {:induction false} LexIsTotal(a: string, b: string)
    ensures LexBefore(a, b) || a == b || LexBefore(b, a)
    ensures !(LexBefore(a, b) && LexBefore(b, a)) && !LexBefore(a, a)
  {
    if a == "" {
    } else {
      if b == "" { LexIsTotal(a[1..], a[1..]); } else {
        LexIsTotal(a[1..], b[1..]);
        LexIsTotal(a[1..], a[1..]);
        if a[0] == b[0] && a[1..] == b[1..] { assert a == [a[0]] + a[1..] == b; }
      }
    }
  }

  lemma {:induction false} LexIsTransitive(a: string, b: string, c: string)
    requires LexBefore(a, b) && LexBefore(b, c)
    ensures LexBefore(a, c)
  {
    if a != "" && a[0] == b[0] == c[0] { LexIsTransitive(a[1..], b[1..], c[1..]); }
  }

  /** The keys of an object are in a strict total order. */
  lemma KeyOrderIsTotal(a: string, b: string, c: string)
    ensures KeyBefore(a, b) || a == b || KeyBefore(b, a)
    ensures !(KeyBefore(a, b) && KeyBefore(b, a)) && !KeyBefore(a, a)
    ensures KeyBefore(a, b) && KeyBefore(b, c) ==> KeyBefore(a, c)
  {
    LexIsTotal(a, b);
    LexIsTotal(a, a);
    if LexBefore(a, b) && LexBefore(b, c) { LexIsTransitive(a, b, c); }
  }

  // ---- sortValue ----

  function Insert(m: Member, sorted: seq<Member>): seq<Member> {
    if sorted == [] then [m]
    else if KeyBefore(sorted[0].key, m.key) then [sorted[0]] + Insert(m, sorted[1..])
    else [m] + sorted
  }

  /** The members as the new object enumerates them. */
  function SortKeys(members: seq<Member>): seq<Member> {
    if members == [] then []
    else
      var rest := SortKeys(members[1..]);
      if members[0].key == PROTO then rest else Insert(members[0], rest)
  }

  function SortValue(v: Json): Json {
    match v
    case Arr(items) => Arr(seq(|items|, i requires 0 <= i < |items| => SortValue(items[i])))
    case Obj(members) => Obj(SortKeys(SortMembers(v)))
    case _ => v
  }

  function SortMembers(v: Json): (sorted: seq<Member>)
    requires v.Obj?
    ensures |sorted| == |v.members|
    decreases v, 0
  {
    seq(|v.members|, i requires 0 <= i < |v.members| => Member(v.members[i].key, SortValue(v.members[i].value)))
  }

  // ---- What sorting means ----

  predicate DistinctKeys(members: seq<Member>) {
    forall i, j :: 0 <= i < j < |members| ==> members[i].key != members[j].key
  }

  /** No object repeats a key, at any depth. */
  predicate Proper(v: Json) {
    match v
    case Arr(items) => forall i :: 0 <= i < |items| ==> Proper(items[i])
    case Obj(members) =>
      DistinctKeys(members) && forall i :: 0 <= i < |members| ==> Proper(members[i].value)
    case _ => true
  }

  function KeysOf(members: seq<Member>): set<string> {
    (set m | m in members :: m.key) - {PROTO}
  }

  function Lookup(members: seq<Member>, key: string): Json
    requires key in KeysOf(members)
  {
    if members[0].key == key then members[0].value
    else
      assert key in KeysOf(members[1..]) by {
        var m :| m in members && m.key == key;
        assert m in members[1..];
      }
      Lookup(members[1..], key)
  }

  /** Equal up to the order of object keys, at every depth. */
  predicate SameMeaning(v: Json, w: Json)
    decreases v
  {
    match (v, w)
    case (Arr(a), Arr(b)) => |a| == |b| && forall i :: 0 <= i < |a| ==> SameMeaning(a[i], b[i])
    case (Obj(a), Obj(b)) =>
      && KeysOf(a) == KeysOf(b)
      && forall i :: 0 <= i < |a| && a[i].key in KeysOf(b) ==> SameMeaning(a[i].value, Lookup(b, a[i].key))
    case _ => v == w
  }

  predicate Sorted(members: seq<Member>) {
    forall i, j :: 0 <= i < j < |members| ==> KeyBefore(members[i].key, members[j].key)
  }

  lemma {:induction false} InsertKeepsSorted(m: Member, sorted: seq<Member>)
    requires Sorted(sorted) && forall x :: x in sorted ==> x.key != m.key
    ensures forall x :: x in Insert(m, sorted) <==> x == m || x in sorted
    ensures Sorted(Insert(m, sorted))
  {
    if sorted == [] {
    } else {
      var first, rest := sorted[0], sorted[1..];
      if KeyBefore(first.key, m.key) {
        InsertKeepsSorted(m, rest);
        PrependKeepsSorted(first, Insert(m, rest));
        assert sorted == [first] + rest;
      } else {
        KeyOrderIsTotal(first.key, m.key, m.key);
        forall i | 0 <= i < |sorted| ensures KeyBefore(m.key, sorted[i].key) {
          KeyOrderIsTotal(m.key, first.key, sorted[i].key);
        }
        PrependKeepsSorted(m, sorted);
      }
    }
  }

  lemma PrependKeepsSorted(first: Member, rest: seq<Member>)
    requires Sorted(rest) && forall x :: x in rest ==> KeyBefore(first.key, x.key)
    ensures Sorted([first] + rest)
  {
  }

  lemma {:induction false} SortKeysSorts(members: seq<Member>)
    requires DistinctKeys(members)
    ensures forall x :: x in SortKeys(members) <==> x in members && x.key != PROTO
    ensures Sorted(SortKeys(members))
  {
    if members == [] {
    } else {
      SortKeysSorts(members[1..]);
      assert members == [members[0]] + members[1..];
      if members[0].key != PROTO { InsertKeepsSorted(members[0], SortKeys(members[1..])); }
    }
  }

  lemma SameElementsSameEmptiness(s: seq<Member>, t: seq<Member>)
    requires forall x :: x in s <==> x in t
    ensures s == [] <==> t == []
  {
    if s != [] { assert s[0] in t; }
    if t != [] { assert t[0] in s; }
  }

  /** A sorted list of members is determined by its elements. */
  lemma {:induction false} SortedIsUnique(s: seq<Member>, t: seq<Member>)
    requires Sorted(s) && Sorted(t)
    requires forall x :: x in s <==> x in t
    ensures s == t
  {
    SameElementsSameEmptiness(s, t);
    if s == [] {
    } else {
      assert s[0] in t && t[0] in s;
      FirstIsLeast(s, t[0]);
      FirstIsLeast(t, s[0]);
      KeyOrderIsTotal(s[0].key, t[0].key, s[0].key);
      assert s[0] == t[0];
      TailElements(s);
      TailElements(t);
      SortedIsUnique(s[1..], t[1..]);
      assert s == [s[0]] + s[1..] && t == [t[0]] + t[1..];
    }
  }

  lemma FirstIsLeast(s: seq<Member>, x: Member)
    requires Sorted(s) && x in s
    ensures x == s[0] || KeyBefore(s[0].key, x.key)
  {
    var i :| 0 <= i < |s| && s[i] == x;
  }

  lemma TailElements(s: seq<Member>)
    requires Sorted(s) && s != []
    ensures Sorted(s[1..])
    ensures forall x :: x in s[1..] <==> x in s && x != s[0]
  {
    assert s == [s[0]] + s[1..];
    forall x | x in s[1..] ensures x != s[0] {
      KeyOrderIsTotal(s[0].key, s[0].key, s[0].key);
    }
  }

  lemma {:induction false} LookupFinds(members: seq<Member>, i: nat)
    requires DistinctKeys(members) && i < |members| && members[i].key != PROTO
    ensures members[i].key in KeysOf(members)
    ensures Lookup(members, members[i].key) == members[i].value
  {
    assert members[i] in members;
    if i == 0 {
    } else {
      LookupFinds(members[1..], i - 1);
    }
  }

  ghost predicate PairsAgree(a: seq<Member>, b: seq<Member>) {
    forall i, j :: 0 <= i < |a| && 0 <= j < |b| ==>
      (SortValue(a[i].value) == SortValue(b[j].value) <==> SameMeaning(a[i].value, b[j].value))
  }

  /** The two members with this key, one in each object. */
  lemma Partners(a: seq<Member>, b: seq<Member>, i: nat) returns (j: nat)
    requires DistinctKeys(a) && DistinctKeys(b) && i < |a|
    requires KeysOf(a) == KeysOf(b) && a[i].key != PROTO
    ensures j < |b| && b[j].key == a[i].key
    ensures a[i].key in KeysOf(b) && Lookup(b, a[i].key) == b[j].value
    ensures a[i].key in KeysOf(a) && Lookup(a, a[i].key) == a[i].value
  {
    LookupFinds(a, i);
    var m :| m in b && m.key == a[i].key;
    j :| 0 <= j < |b| && b[j] == m;
    LookupFinds(b, j);
  }

  lemma SameMeaningSortsAlike(v: Json, w: Json)
    requires v.Obj? && w.Obj? && DistinctKeys(v.members) && DistinctKeys(w.members)
    requires PairsAgree(v.members, w.members) && SameMeaning(v, w)
    ensures forall x: Member | x.key != PROTO :: x in SortMembers(v) <==> x in SortMembers(w)
  {
    var a, b := v.members, w.members;
    forall x | x in SortMembers(v) && x.key != PROTO ensures x in SortMembers(w) {
      var i :| 0 <= i < |a| && x == SortMembers(v)[i];
      var j := Partners(a, b, i);
      assert SortMembers(w)[j] == x;
    }
    forall x | x in SortMembers(w) && x.key != PROTO ensures x in SortMembers(v) {
      var j :| 0 <= j < |b| && x == SortMembers(w)[j];
      var i := Partners(b, a, j);
      assert SortMembers(v)[i] == x;
    }
  }

  lemma SortedAlikeSameMeaning(v: Json, w: Json)
    requires v.Obj? && w.Obj? && DistinctKeys(v.members) && DistinctKeys(w.members)
    requires PairsAgree(v.members, w.members)
    requires forall x: Member | x.key != PROTO :: x in SortMembers(v) <==> x in SortMembers(w)
    ensures SameMeaning(v, w)
  {
    var a, b := v.members, w.members;
    forall key | key in KeysOf(a) ensures key in KeysOf(b) {
      var i :| 0 <= i < |a| && a[i].key == key;
      assert SortMembers(v)[i] in SortMembers(w);
    }
    forall key | key in KeysOf(b) ensures key in KeysOf(a) {
      var j :| 0 <= j < |b| && b[j].key == key;
      assert SortMembers(w)[j] in SortMembers(v);
    }
    forall i | 0 <= i < |a| && a[i].key in KeysOf(b)
      ensures SameMeaning(a[i].value, Lookup(b, a[i].key))
    {
      assert SortMembers(v)[i] in SortMembers(w);
      var j :| 0 <= j < |b| && SortMembers(w)[j] == SortMembers(v)[i];
      LookupFinds(b, j);
    }
  }

  lemma ObjectsAgree(v: Json, w: Json)
    requires v.Obj? && w.Obj? && DistinctKeys(v.members) && DistinctKeys(w.members)
    requires PairsAgree(v.members, w.members)
    ensures SortValue(v) == SortValue(w) <==> SameMeaning(v, w)
  {
    var s, t := SortMembers(v), SortMembers(w);
    SortKeysSorts(s);
    SortKeysSorts(t);
    if SameMeaning(v, w) {
      SameMeaningSortsAlike(v, w);
      SortedIsUnique(SortKeys(s), SortKeys(t));
    }
    if SortKeys(s) == SortKeys(t) {
      forall x: Member | x.key != PROTO ensures x in s <==> x in t {
        assert x in SortKeys(s) <==> x in SortKeys(t);
      }
      SortedAlikeSameMeaning(v, w);
    }
  }

  /**
   * sortValue gives identical results exactly for values that are equal up to the order of object keys
   * (members named __proto__, which it drops, set aside).
   */
  lemma {:induction false} SortedFormDecidesMeaning(v: Json, w: Json)
    requires Proper(v) && Proper(w)
    ensures SortValue(v) == SortValue(w) <==> SameMeaning(v, w)
    decreases v
  {
    match (v, w)
    case (Arr(a), Arr(b)) =>
      assert |SortValue(v).items| == |a| && |SortValue(w).items| == |b|;
      if |a| == |b| {
        forall i | 0 <= i < |a| ensures SortValue(a[i]) == SortValue(b[i]) <==> SameMeaning(a[i], b[i]) {
          SortedFormDecidesMeaning(a[i], b[i]);
        }
        ArraysSortElementwise(v, w);
      }
    case (Obj(a), Obj(b)) =>
      forall i, j | 0 <= i < |a| && 0 <= j < |b|
        ensures SortValue(a[i].value) == SortValue(b[j].value) <==> SameMeaning(a[i].value, b[j].value)
      {
        SortedFormDecidesMeaning(a[i].value, b[j].value);
      }
      ObjectsAgree(v, w);
    case _ =>
  }

  lemma ArraysSortElementwise(v: Json, w: Json)
    requires v.Arr? && w.Arr? && |v.items| == |w.items|
    ensures SortValue(v) == SortValue(w) <==>
      forall i :: 0 <= i < |v.items| ==> SortValue(v.items[i]) == SortValue(w.items[i])
  {
    if SortValue(v) == SortValue(w) {
      forall i | 0 <= i < |v.items| ensures SortValue(v.items[i]) == SortValue(w.items[i]) {
        assert SortValue(v).items[i] == SortValue(w).items[i];
      }
    }
  }

  // ---- Sorting again changes nothing ----

  predicate NoProto(members: seq<Member>) { forall m :: m in members ==> m.key != PROTO }

  lemma SortingSorted(v: Json)
    requires v.Obj? && Sorted(v.members) && NoProto(v.members)
    requires forall i :: 0 <= i < |v.members| ==> SortValue(v.members[i].value) == v.members[i].value
    ensures SortValue(v) == v
  {
    assert SortMembers(v) == v.members;
    SortedKeysAreDistinct(v.members);
    SortKeysSorts(v.members);
    SortedIsUnique(SortKeys(v.members), v.members);
  }

  lemma SortedKeysAreDistinct(members: seq<Member>)
    requires Sorted(members)
    ensures DistinctKeys(members)
  {
    forall i, j | 0 <= i < j < |members| ensures members[i].key != members[j].key {
      KeyOrderIsTotal(members[i].key, members[j].key, members[i].key);
    }
  }

  /** sortValue is idempotent, and its result means what its argument means. */
  lemma {:induction false} SortValueIsIdempotent(v: Json)
    requires Proper(v)
    ensures Proper(SortValue(v)) && SortValue(SortValue(v)) == SortValue(v)
    ensures SameMeaning(v, SortValue(v))
    decreases v
  {
    match v {
    case Arr(items) =>
      forall i | 0 <= i < |items|
        ensures Proper(SortValue(items[i])) && SortValue(SortValue(items[i])) == SortValue(items[i])
      {
        SortValueIsIdempotent(items[i]);
      }
      assert SortValue(SortValue(v)).items == SortValue(v).items;
    case Obj(members) =>
      var sorted := SortKeys(SortMembers(v));
      SortKeysSorts(SortMembers(v));
      SortedKeysAreDistinct(sorted);
      forall k | 0 <= k < |sorted|
        ensures Proper(sorted[k].value) && SortValue(sorted[k].value) == sorted[k].value
      {
        assert sorted[k] in SortMembers(v);
        var i :| 0 <= i < |members| && SortMembers(v)[i] == sorted[k];
        SortValueIsIdempotent(members[i].value);
      }
      SortingSorted(Obj(sorted));
    case _ =>
    }
    SortedFormDecidesMeaning(v, SortValue(v));
  }

  // ---- The order in which keys come out ----

  function Pow10(n: nat): nat { if n == 0 then 1 else 10 * Pow10(n - 1) }

  function Digit(c: char): nat { if '0' <= c <= '9' then c as int - '0' as int else 0 }

  function Times(d: nat, p: nat): nat { if d == 0 then 0 else p + Times(d - 1, p) }

  /** The number that a key of digits spells. */
  function ValueOf(key: string): nat {
    if key == "" then 0 else Times(Digit(key[0]), Pow10(|key| - 1)) + ValueOf(key[1..])
  }

  lemma {:induction false} TimesGrows(d: nat, e: nat, p: nat)
    requires d < e
    ensures Times(d, p) + p <= Times(e, p)
  {
    if e == d + 1 {
    } else {
      TimesGrows(d, e - 1, p);
    }
  }

  lemma {:induction false} TimesIsProduct(d: nat, p: nat)
    ensures Times(d, p) == d * p
  {
    if d == 0 {
    } else {
      TimesIsProduct(d - 1, p);
    }
  }

  lemma NineTimes(d: nat, p: nat)
    requires d <= 9
    ensures Times(d, p) + p <= 10 * p
  {
    TimesGrows(d, 10, p);
    TimesIsProduct(10, p);
  }

  lemma {:induction false} ValueIsBounded(key: string)
    ensures ValueOf(key) < Pow10(|key|)
  {
    if key == "" {
    } else {
      ValueIsBounded(key[1..]);
      NineTimes(Digit(key[0]), Pow10(|key| - 1));
    }
  }

  lemma {:induction false} SameLengthByValue(a: string, b: string)
    requires |a| == |b|
    requires (forall c :: c in a ==> IsDigit(c)) && forall c :: c in b ==> IsDigit(c)
    ensures LexBefore(a, b) <==> ValueOf(a) < ValueOf(b)
  {
    if a == "" {
    } else {
      assert a[0] in a && b[0] in b;
      assert (forall c :: c in a[1..] ==> c in a) && forall c :: c in b[1..] ==> c in b;
      SameLengthByValue(a[1..], b[1..]);
      ValueIsBounded(a[1..]);
      ValueIsBounded(b[1..]);
      if Digit(a[0]) < Digit(b[0]) {
        TimesGrows(Digit(a[0]), Digit(b[0]), Pow10(|a| - 1));
      } else if Digit(b[0]) < Digit(a[0]) {
        TimesGrows(Digit(b[0]), Digit(a[0]), Pow10(|a| - 1));
      }
    }
  }

  lemma {:induction false} Pow10Grows(m: nat, n: nat)
    requires m <= n
    ensures Pow10(m) <= Pow10(n)
  {
    if m == n {
    } else {
      Pow10Grows(m, n - 1);
    }
  }

  lemma ShorterIsSmaller(a: string, b: string)
    requires IsIndex(a) && IsIndex(b) && |a| < |b|
    ensures ValueOf(a) < ValueOf(b)
  {
    ValueIsBounded(a);
    Pow10Grows(|a|, |b| - 1);
    assert b[0] in b && b[0] != '0';
    TimesGrows(0, Digit(b[0]), Pow10(|b| - 1));
  }

  /** Index keys come out in numeric order and before all others, which come out in the order of their characters. */
  lemma KeysComeOutInOrder(a: string, b: string)
    ensures IsIndex(a) && IsIndex(b) ==> (KeyBefore(a, b) <==> ValueOf(a) < ValueOf(b))
    ensures IsIndex(a) && !IsIndex(b) ==> KeyBefore(a, b) && !KeyBefore(b, a)
    ensures !IsIndex(a) && !IsIndex(b) ==> (KeyBefore(a, b) <==> LexBefore(a, b))
  {
    if IsIndex(a) && IsIndex(b) {
      if |a| == |b| {
        SameLengthByValue(a, b);
      } else if |a| < |b| {
        ShorterIsSmaller(a, b);
      } else {
        ShorterIsSmaller(b, a);
      }
    }
  }

  /** Digits without a leading zero. */
  predicate IsDecimal(key: string) {
    key != "" && (forall c :: c in key ==> IsDigit(c)) && (|key| > 1 ==> key[0] != '0')
  }

  lemma NextDigit(key: string, n: nat)
    requires key != "" && |key| <= 10 && ValueOf(key[1..]) == n
    ensures ValueOf(key) == Digit(key[0]) * Pow10(|key| - 1) + n
  {
    TimesIsProduct(Digit(key[0]), Pow10(|key| - 1));
  }

  lemma PowersOfTen()
    ensures Pow10(1) == 10 && Pow10(2) == 100 && Pow10(3) == 1000 && Pow10(4) == 1_0000 && Pow10(5) == 10_0000
    ensures Pow10(6) == 100_0000 && Pow10(7) == 1000_0000 && Pow10(8) == 1_0000_0000 && Pow10(9) == 10_0000_0000
    ensures Pow10(10) == 100_0000_0000
  {
    assert Pow10(5) == 10_0000;
  }

  lemma ValueOfTheLimit()
    ensures ValueOf("4294967295") == 0xFFFF_FFFF
  {
    var s := "4294967295";
    PowersOfTen();
    NextDigit(s[9..], 0);
    NextDigit(s[8..], 5);
    NextDigit(s[7..], 95);
    NextDigit(s[6..], 295);
    NextDigit(s[5..], 7295);
    NextDigit(s[4..], 67295);
    NextDigit(s[3..], 967295);
    NextDigit(s[2..], 4967295);
    NextDigit(s[1..], 94967295);
    NextDigit(s, 294967295);
  }

  lemma ShortKeysAreSmall(key: string)
    requires |key| < 10
    ensures ValueOf(key) < 0xFFFF_FFFF
  {
    PowersOfTen();
    ValueIsBounded(key);
    Pow10Grows(|key|, 9);
  }

  lemma LongKeysAreLarge(key: string)
    requires IsDecimal(key) && |key| > 10
    ensures ValueOf(key) >= 0xFFFF_FFFF
  {
    PowersOfTen();
    assert key[0] in key && key[0] != '0';
    Pow10Grows(10, |key| - 1);
    TimesGrows(0, Digit(key[0]), Pow10(|key| - 1));
  }

  lemma DigitsOfTheLimit()
    ensures forall c :: c in "4294967295" ==> IsDigit(c)
  {
  }

  lemma TenDigitKeys(key: string)
    requires IsDecimal(key) && |key| == 10
    ensures LexBefore(key, "4294967295") <==> ValueOf(key) < 0xFFFF_FFFF
  {
    ValueOfTheLimit();
    DigitsOfTheLimit();
    var limit := "4294967295";
    SameLengthByValue(key, limit);
  }

  /** An index key spells a number below 2^32 - 1 in decimal. */
  lemma IndexKeysAreSmall(key: string)
    ensures IsIndex(key) <==> IsDecimal(key) && ValueOf(key) < 0xFFFF_FFFF
  {
    if IsDecimal(key) {
      if |key| < 10 {
        ShortKeysAreSmall(key);
      } else if |key| == 10 {
        TenDigitKeys(key);
      } else {
        LongKeysAreLarge(key);
      }
    }
  }
}
