/** Mass assignment as the façade's `map` performs it, stated on attribute
    maps. An insert bag is a PHP array of field name => value, in order.

    The allow-list branch filters each pair on whether its KEY occurs,
    loosely, among the bag's own VALUES; the names held in the
    repository's `keys` play no part beyond switching the branch on. */
module Mapping {
  import opened Values

  type Bag = seq<(string, Val)>

  type Attributes = map<string, Val>

  /** `array_values($inserts)`. */
  function ValuesOf(inserts: Bag): (vs: seq<Val>)
    ensures |vs| == |inserts|
    ensures forall j :: 0 <= j < |inserts| ==> vs[j] == inserts[j].1
  {
    seq(|inserts|, j requires 0 <= j < |inserts| => inserts[j].1)
  }

  /** The filter of the allow-list loop: `in_array($key, $inserts)`. */
  predicate Passes(key: string, inserts: Bag)
    ensures Passes(key, inserts) <==> exists j :: 0 <= j < |inserts| && LooseEquals(key, inserts[j].1)
  {
    InArray(key, ValuesOf(inserts))
  }

  /** The attributes after the allow-list loop has visited `pairs`, a
      prefix of `inserts`, writing each pair that passes the filter. */
  function Assign(attrs: Attributes, pairs: Bag, inserts: Bag): (after: Attributes)
    ensures forall k :: k in attrs ==> k in after
    ensures forall k :: k in after ==> k in attrs || exists j :: 0 <= j < |pairs| && pairs[j].0 == k
    decreases |pairs|
  {
    if pairs == [] then attrs
    else
      var before := Assign(attrs, pairs[..|pairs| - 1], inserts);
      var (key, val) := pairs[|pairs| - 1];
      if Passes(key, inserts) then before[key := val] else before
  }

  /** What `map` leaves on its target: the allow-list loop when `keys`
      has values, otherwise the model's own `fill`. */
  function Mapped(attrs: Attributes, inserts: Bag, keys: seq<string>,
                  fill: (Attributes, Bag) -> Attributes): (after: Attributes)
    ensures HasValues(keys) ==> forall k :: k in attrs ==> k in after
    ensures HasValues(keys) ==>
      forall k :: k in after ==> k in attrs || exists j :: 0 <= j < |inserts| && inserts[j].0 == k
    ensures !HasValues(keys) ==> after == fill(attrs, inserts)
  {
    if HasValues(keys) then Assign(attrs, inserts, inserts) else fill(attrs, inserts)
  }

  /** A field that no passing pair names keeps its old value (or stays absent). */
  lemma {:induction false} AssignLeavesOthers(attrs: Attributes, pairs: Bag, inserts: Bag, k: string)
    requires forall j :: 0 <= j < |pairs| && pairs[j].0 == k ==> !Passes(k, inserts)
    ensures var after := Assign(attrs, pairs, inserts);
      (k in after <==> k in attrs) && (k in attrs ==> after[k] == attrs[k])
  {
    if pairs != [] {
      var init := pairs[..|pairs| - 1];
      assert forall j :: 0 <= j < |init| ==> init[j] == pairs[j];
      AssignLeavesOthers(attrs, init, inserts, k);
    }
  }

  /** A passing pair that no later pair overrides is on the target afterwards. */
  lemma {:induction false} AssignWrites(attrs: Attributes, pairs: Bag, inserts: Bag, j: nat)
    requires j < |pairs| && Passes(pairs[j].0, inserts)
    requires forall l :: j < l < |pairs| ==> pairs[l].0 != pairs[j].0
    ensures var after := Assign(attrs, pairs, inserts);
      pairs[j].0 in after && after[pairs[j].0] == pairs[j].1
  {
    var init := pairs[..|pairs| - 1];
    var (key, val) := pairs[|pairs| - 1];
    var before := Assign(attrs, init, inserts);
    assert Assign(attrs, pairs, inserts) == if Passes(key, inserts) then before[key := val] else before;
    if j < |pairs| - 1 {
      assert init[j] == pairs[j];
      AssignWrites(attrs, init, inserts, j);
    }
  }

  /** Every field the loop writes was named by a passing pair. */
  lemma {:induction false} AssignOnlyPassing(attrs: Attributes, pairs: Bag, inserts: Bag, k: string)
    requires var after := Assign(attrs, pairs, inserts);
      !(k in attrs && k in after && after[k] == attrs[k]) && (k in attrs || k in after)
    ensures exists j :: 0 <= j < |pairs| && pairs[j].0 == k && Passes(k, inserts)
  {
    if forall j :: 0 <= j < |pairs| && pairs[j].0 == k ==> !Passes(k, inserts) {
      AssignLeavesOthers(attrs, pairs, inserts, k);
    }
  }

  /** With `keys = ["name"]` and `{"name": "a", "role": "admin"}`, neither
      field reaches the target: "name" and "role" are not among the values. */
  lemma AllowListExample(attrs: Attributes)
    ensures Mapped(attrs, [("name", Str("a")), ("role", Str("admin"))], ["name"], (a, b) => a) == attrs
  {
    var inserts: Bag := [("name", Str("a")), ("role", Str("admin"))];
    assert ValuesOf(inserts) == [Str("a"), Str("admin")];
    assert !IsNumericString("name") by { assert Unsigned("name") == "name"; }
    assert !IsNumericString("role") by { assert Unsigned("role") == "role"; }
    assert !Passes("name", inserts);
    assert !Passes("role", inserts);
    assert inserts[..1] == [("name", Str("a"))];
    assert inserts[..1][..0] == [];
    assert Assign(attrs, inserts[..1], inserts) == attrs;
    assert Assign(attrs, inserts, inserts) == Assign(attrs, inserts[..1], inserts);
  }

  /** A pair whose key repeats one of the bag's values is written. */
  lemma SelfNamedFieldExample(attrs: Attributes)
    ensures var after := Mapped(attrs, [("role", Str("role"))], ["name"], (a, b) => a);
      "role" in after && after["role"] == Str("role")
  {
  }

  /** The key "0" is the integer 0, which equals null: with
      `{"0": "x", "a": null}` field "0" is written. */
  lemma ZeroKeyMatchesNull(attrs: Attributes)
    ensures var after := Mapped(attrs, [("0", Str("x")), ("a", Null)], ["k"], (a, b) => a);
      "0" in after && after["0"] == Str("x")
  {
    var inserts: Bag := [("0", Str("x")), ("a", Null)];
    assert ValuesOf(inserts)[1] == Null;
    assert Passes("0", inserts);
    AssignWrites(attrs, inserts, inserts, 0);
  }
}
