/** The payload hash tells payloads apart: equal hashes are equal payloads, field by field. */
module PayloadHashes {
  import opened Domain
  import opened CanonicalJson
  import opened JsonText
  import opened Address
  import opened Diff
  import opened Polling

  // ---- Objects with optional members ----

  predicate GoodNames(names: seq<string>) {
    PROTO !in names && forall i, j :: 0 <= i < j < |names| ==> names[i] != names[j]
  }

  /** The i-th member, if it is there. */
  predicate IsMember(m: Member, names: seq<string>, values: seq<Option<Json>>, i: nat)
    requires |names| == |values|
  {
    i < |names| && values[i].Some? && m == Member(names[i], values[i].value)
  }

  lemma {:induction false} MembersByName(names: seq<string>, values: seq<Option<Json>>)
    requires |names| == |values| && GoodNames(names)
    ensures DistinctKeys(Members(names, values))
    ensures forall m :: m in Members(names, values) <==> exists i: nat :: IsMember(m, names, values, i)
  {
    if names == [] {
    } else {
      var rest, restNames, restValues := Members(names[1..], values[1..]), names[1..], values[1..];
      MembersByName(restNames, restValues);
      forall m ensures m in rest <==> exists i: nat :: i > 0 && IsMember(m, names, values, i) {
        if m in rest {
          var i: nat :| IsMember(m, restNames, restValues, i);
          assert IsMember(m, names, values, i + 1);
        }
        if i: nat :| i > 0 && IsMember(m, names, values, i) {
          assert IsMember(m, restNames, restValues, i - 1);
        }
      }
      forall m | m in rest ensures m.key != names[0] {
        var i: nat :| i > 0 && IsMember(m, names, values, i);
      }
      forall m ensures m in Members(names, values) <==> exists i: nat :: IsMember(m, names, values, i) {
        if values[0].Some? && m == Member(names[0], values[0].value) { assert IsMember(m, names, values, 0); }
      }
    }
  }

  lemma MemberLookup(names: seq<string>, values: seq<Option<Json>>, i: nat)
    requires |names| == |values| && GoodNames(names) && i < |names|
    ensures names[i] in KeysOf(Members(names, values)) <==> values[i].Some?
    ensures values[i].Some? ==> Lookup(Members(names, values), names[i]) == values[i].value
  {
    var members := Members(names, values);
    MembersByName(names, values);
    assert names[i] in names;
    if values[i].Some? {
      var m := Member(names[i], values[i].value);
      assert IsMember(m, names, values, i);
      assert m in members;
      var k :| 0 <= k < |members| && members[k] == m;
      LookupFinds(members, k);
    }
    if names[i] in KeysOf(members) {
      var m :| m in members && m.key == names[i];
      var j: nat :| IsMember(m, names, values, j);
      assert j == i;
    }
  }

  /** The two values are both missing or mean the same. */
  predicate Agree(v: Option<Json>, w: Option<Json>) {
    (v.None? && w.None?) || (v.Some? && w.Some? && SameMeaning(v.value, w.value))
  }

  lemma SameObjectsAgree(names: seq<string>, v: seq<Option<Json>>, w: seq<Option<Json>>, i: nat)
    requires |names| == |v| == |w| && GoodNames(names) && i < |names|
    requires SameMeaning(Obj(Members(names, v)), Obj(Members(names, w)))
    ensures Agree(v[i], w[i])
  {
    var a, b := Members(names, v), Members(names, w);
    MemberLookup(names, v, i);
    MemberLookup(names, w, i);
    if v[i].Some? {
      MembersByName(names, v);
      var m := Member(names[i], v[i].value);
      assert IsMember(m, names, v, i);
      assert m in a;
      var k :| 0 <= k < |a| && a[k] == m;
      assert SameMeaning(a[k].value, Lookup(b, a[k].key));
    }
  }

  predicate AllProper(values: seq<Option<Json>>) {
    forall i :: 0 <= i < |values| && values[i].Some? ==> Proper(values[i].value) && HasNumbers(values[i].value)
  }

  lemma ObjectIsProper(names: seq<string>, values: seq<Option<Json>>)
    requires |names| == |values| && GoodNames(names) && AllProper(values)
    ensures Proper(Obj(Members(names, values))) && HasNumbers(Obj(Members(names, values)))
  {
    var members := Members(names, values);
    MembersByName(names, values);
    forall k | 0 <= k < |members| ensures Proper(members[k].value) && HasNumbers(members[k].value) {
      assert members[k] in members;
      var i: nat :| IsMember(members[k], names, values, i);
    }
  }

  // ---- Addresses and payloads ----

  lemma AddressNamesAreGood()
    ensures GoodNames(ADDRESS_KEYS)
  {
    var names := ADDRESS_KEYS;
    forall i, j | 0 <= i < j < |names| ensures names[i] != names[j] {
      assert names[i][0] != names[j][0] || names[i][4] != names[j][4];
    }
    forall i | 0 <= i < |names| ensures names[i] != PROTO { assert names[i][0] != '_'; }
  }

  lemma PayloadNamesAreGood()
    ensures GoodNames(PAYLOAD_KEYS)
  {
    var names := PAYLOAD_KEYS;
    forall i, j | 0 <= i < j < |names| ensures names[i] != names[j] {
      assert names[i][0] != names[j][0];
    }
    forall i | 0 <= i < |names| ensures names[i] != PROTO { assert names[i][0] != '_'; }
  }

  lemma AddressIsProper(a: PostalAddress)
    ensures Proper(AddressJson(a)) && HasNumbers(AddressJson(a))
  {
    AddressNamesAreGood();
    ObjectIsProper(ADDRESS_KEYS, AddressValues(a));
  }

  lemma AddressesAgree(a: PostalAddress, b: PostalAddress)
    requires SameMeaning(AddressJson(a), AddressJson(b))
    ensures a == b
  {
    AddressNamesAreGood();
    var v, w := AddressValues(a), AddressValues(b);
    SameObjectsAgree(ADDRESS_KEYS, v, w, 0);
    SameObjectsAgree(ADDRESS_KEYS, v, w, 1);
    SameObjectsAgree(ADDRESS_KEYS, v, w, 2);
    SameObjectsAgree(ADDRESS_KEYS, v, w, 3);
    SameObjectsAgree(ADDRESS_KEYS, v, w, 4);
    SameObjectsAgree(ADDRESS_KEYS, v, w, 5);
  }

  /** Its numbers are printed numbers. */
  predicate GoodNumbers(p: Payload) {
    && (p.employeeCount.Some? ==> IsNumber(p.employeeCount.value))
    && (p.workerLimit.Some? ==> IsNumber(p.workerLimit.value))
    && (p.powerCapacityHP.Some? ==> IsNumber(p.powerCapacityHP.value))
  }

  lemma NameIsProper(name: string)
    ensures var v := Obj([Member("name", Str(name))]); Proper(v) && HasNumbers(v)
  {
  }

  lemma PayloadIsProper(p: Payload)
    requires GoodNumbers(p)
    ensures Proper(PayloadJson(p)) && HasNumbers(PayloadJson(p))
  {
    PayloadNamesAreGood();
    if p.registeredAddress.Some? { AddressIsProper(p.registeredAddress.value); }
    if p.signatory.Some? { NameIsProper(p.signatory.value); }
    ObjectIsProper(PAYLOAD_KEYS, PayloadValues(p));
  }

  lemma NamesAgree(a: string, b: string)
    requires SameMeaning(Obj([Member("name", Str(a))]), Obj([Member("name", Str(b))]))
    ensures a == b
  {
    var one, other := [Member("name", Str(a))], [Member("name", Str(b))];
    assert one[0].key == "name" && other[0] in other && "name"[0] != PROTO[0];
    assert "name" in KeysOf(other);
    assert SameMeaning(one[0].value, Lookup(other, one[0].key));
  }

  lemma AgreeingValues(p: Payload, q: Payload)
    requires forall i :: 0 <= i < |PAYLOAD_KEYS| ==> Agree(PayloadValues(p)[i], PayloadValues(q)[i])
    ensures p.businessName == q.businessName && p.employeeCount == q.employeeCount && p.workerLimit == q.workerLimit
    ensures p.powerCapacityHP == q.powerCapacityHP && p.licenseExpiry == q.licenseExpiry
    ensures p.registeredAddress.Some? <==> q.registeredAddress.Some?
    ensures p.registeredAddress.Some? ==>
      SameMeaning(AddressJson(p.registeredAddress.value), AddressJson(q.registeredAddress.value))
    ensures p.signatory.Some? <==> q.signatory.Some?
    ensures p.signatory.Some? ==>
      SameMeaning(Obj([Member("name", Str(p.signatory.value))]), Obj([Member("name", Str(q.signatory.value))]))
  {
    var v, w := PayloadValues(p), PayloadValues(q);
    assert Agree(v[0], w[0]) && Agree(v[1], w[1]) && Agree(v[2], w[2]) && Agree(v[3], w[3]);
    assert Agree(v[4], w[4]) && Agree(v[5], w[5]) && Agree(v[6], w[6]);
  }

  lemma PayloadsAgree(p: Payload, q: Payload)
    requires SameMeaning(PayloadJson(p), PayloadJson(q))
    ensures p == q
  {
    PayloadNamesAreGood();
    forall i | 0 <= i < |PAYLOAD_KEYS| ensures Agree(PayloadValues(p)[i], PayloadValues(q)[i]) {
      SameObjectsAgree(PAYLOAD_KEYS, PayloadValues(p), PayloadValues(q), i);
    }
    AgreeingValues(p, q);
    if p.registeredAddress.Some? { AddressesAgree(p.registeredAddress.value, q.registeredAddress.value); }
    if p.signatory.Some? { NamesAgree(p.signatory.value, q.signatory.value); }
  }

  /** Two payloads have one hash exactly if every field of them is the same. */
  lemma HashTellsPayloadsApart(p: Payload, q: Payload)
    requires GoodNumbers(p) && GoodNumbers(q)
    ensures PayloadHash(p) == PayloadHash(q) <==> p == q
  {
    PayloadIsProper(p);
    PayloadIsProper(q);
    TextDecidesMeaning(PayloadJson(p), PayloadJson(q));
    if PayloadHash(p) == PayloadHash(q) { PayloadsAgree(p, q); }
  }
}
