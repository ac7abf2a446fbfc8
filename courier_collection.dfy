/**
 * CourierCollection: the couriers known to a dispatch batch, keyed by
 * courier name in registration order. Registering a name twice keeps the
 * first courier; deleting an unknown name does nothing.
 */
module Collection {
  import opened Wrappers
  import opened OrderedMap
  import opened Couriers

  /** Every entry is stored under its courier's own name, as `addCourier` does. */
  ghost predicate KeyedByName(m: seq<Entry<Courier>>) {
    forall i :: 0 <= i < |m| ==> m[i].key == m[i].value.name
  }

  /** The collection after `addCourier` is called with each courier of cs in turn. */
  function AddAll(m: seq<Entry<Courier>>, cs: seq<Courier>): seq<Entry<Courier>>
    decreases |cs|
  {
    if cs == [] then m else AddAll(Insert(m, cs[0].name, cs[0]), cs[1..])
  }

  ghost function Names(cs: seq<Courier>): set<string> {
    set c | c in cs :: c.name
  }

  class CourierCollection {
    var couriers: seq<Entry<Courier>>

    ghost predicate Valid()
      reads this
    {
      DistinctKeys(couriers) && KeyedByName(couriers)
    }

    constructor ()
      ensures Valid() && couriers == []
    {
      couriers := [];
    }

    method AddCourier(courier: Courier)
      requires Valid()
      modifies this
      ensures Valid()
      ensures couriers == Insert(old(couriers), courier.name, courier)
    {
      if !HasKey(couriers, courier.name) {
        assert Insert(couriers, courier.name, courier) == couriers + [Entry(courier.name, courier)];
        couriers := couriers + [Entry(courier.name, courier)];
      }
    }

    method DeleteCourier(courierRef: string)
      requires Valid()
      modifies this
      ensures Valid()
      ensures couriers == Remove(old(couriers), courierRef)
    {
      if HasKey(couriers, courierRef) {
        RemoveKeepsNames(couriers, courierRef);
        LookupAfterRemove(couriers, courierRef, courierRef);
        couriers := Remove(couriers, courierRef);
      } else {
        RemoveAbsent(couriers, courierRef);
      }
    }

    /** The courier stored under the reference, or None (PHP's NULL). */
    function GetCourier(courierRef: string): (r: Option<Courier>)
      reads this
      requires Valid()
      ensures r.Some? <==> HasKey(couriers, courierRef)
      ensures r.Some? ==> Entry(courierRef, r.value) in couriers && r.value.name == courierRef
    {
      if HasKey(couriers, courierRef) then Lookup(couriers, courierRef) else None
    }

    /** The whole array, in registration order; reading it changes nothing. */
    function GetAllCouriers(): (r: seq<Entry<Courier>>)
      reads this
      requires Valid()
      ensures r == couriers
      ensures DistinctKeys(r) && KeyedByName(r)
    {
      couriers
    }
  }

  // ---------------------------------------------------------------------------
  // Lemmas

  /** Deleting an entry keeps every remaining courier under its own name. */
  lemma {:induction false} RemoveKeepsNames(m: seq<Entry<Courier>>, k: string)
    requires KeyedByName(m)
    ensures KeyedByName(Remove(m, k))
  {
    if m != [] {
      RemoveKeepsNames(m[1..], k);
    }
  }

  /**
   * Registering couriers one after another from an empty collection gives
   * one entry per distinct name: duplicates are ignored.
   */
  lemma {:induction false} AddAllSize(cs: seq<Courier>)
    ensures |AddAll([], cs)| == |Names(cs)|
  {
    AddAllKeys([], cs);
    DistinctKeysCard(AddAll([], cs));
    assert KeySet<Courier>([]) == {};
  }

  lemma {:induction false} AddAllKeys(m: seq<Entry<Courier>>, cs: seq<Courier>)
    requires DistinctKeys(m)
    ensures DistinctKeys(AddAll(m, cs))
    ensures KeySet(AddAll(m, cs)) == KeySet(m) + Names(cs)
    decreases |cs|
  {
    if cs != [] {
      var c := cs[0];
      var m' := Insert(m, c.name, c);
      HasKeyAt(m, c.name);
      assert KeySet(m') == KeySet(m) + {c.name};
      AddAllKeys(m', cs[1..]);
      assert Names(cs) == {c.name} + Names(cs[1..]) by {
        assert forall x :: x in cs ==> x == c || x in cs[1..];
      }
    }
  }

  /**
   * The first registration of a name wins: whatever is added later under
   * the same name, lookup keeps returning the first courier.
   */
  lemma {:induction false} FirstRegistrationWins(m: seq<Entry<Courier>>, cs: seq<Courier>, name: string)
    requires HasKey(m, name)
    ensures Lookup(AddAll(m, cs), name) == Lookup(m, name)
    decreases |cs|
  {
    if cs != [] {
      var m' := Insert(m, cs[0].name, cs[0]);
      LookupAfterInsert(m, cs[0].name, cs[0], name);
      FirstRegistrationWins(m', cs[1..], name);
    }
  }
}
