/**
 * DispatchBatchManager: a batch that is either started or not, holding a
 * stack of Consignment objects per courier reference. Ending a started
 * batch hands each courier's stack, in collection order, to a
 * DispatchBatchTransport.
 */
module Manager {
  import opened OrderedMap
  import opened Couriers
  import opened Consignments
  import opened Collection
  import opened Payload
  import opened Effects
  import opened Transport

  /** The consignment stack: courier reference => consignments in call order. */
  type Stack = map<string, seq<Consignment>>

  /** `array_key_exists($ref, $stack) ? $stack[$ref] : []` */
  function SoFar(stack: Stack, courierRef: string): seq<Consignment> {
    if courierRef in stack then stack[courierRef] else []
  }

  /** What `addConsignment` does to the stack of a started batch. */
  function Push(stack: Stack, c: Consignment): (r: Stack)
    ensures r.Keys == stack.Keys + {c.courierRef}
    ensures SoFar(r, c.courierRef) == SoFar(stack, c.courierRef) + [c]
    ensures forall ref :: ref != c.courierRef ==> SoFar(r, ref) == SoFar(stack, ref)
  {
    if c.courierRef in stack then stack[c.courierRef := stack[c.courierRef] + [c]]
    else stack[c.courierRef := [c]]
  }

  /** The stack after adding each consignment of cs in turn to a started batch. */
  function PushAll(stack: Stack, cs: seq<Consignment>): Stack
    decreases |cs|
  {
    if cs == [] then stack else PushAll(Push(stack, cs[0]), cs[1..])
  }

  /** The consignments of cs for one courier reference, in call order. */
  function ForRef(cs: seq<Consignment>, courierRef: string): seq<Consignment> {
    if cs == [] then []
    else (if cs[0].courierRef == courierRef then [cs[0]] else []) + ForRef(cs[1..], courierRef)
  }

  /**
   * The outside effects of the `foreach` of `endBatch` over `couriers`:
   * each courier with a stack entry gets one send of its stack, in order.
   */
  function BatchEffects(couriers: seq<Entry<Courier>>, stack: Stack, batchDate: string): seq<Effect<Consignment>>
    decreases |couriers|
  {
    if couriers == [] then []
    else
      var last := couriers[|couriers| - 1];
      BatchEffects(couriers[..|couriers| - 1], stack, batchDate)
        + (if last.key in stack then SendEffects(batchDate, last.value, stack[last.key]) else [])
  }

  class DispatchBatchManager {
    /** The collection's array as it was at construction (PHP copies arrays on assignment). */
    const couriers: seq<Entry<Courier>>
    var consignmentStack: Stack
    var batchDate: string
    var batchStarted: bool

    ghost predicate Valid() {
      DistinctKeys(couriers) && KeyedByName(couriers)
    }

    constructor (couriersCol: Collection.CourierCollection)
      requires couriersCol.Valid()
      ensures Valid()
      ensures couriers == couriersCol.couriers
      ensures !batchStarted && consignmentStack == map[]
    {
      couriers := couriersCol.GetAllCouriers();
      batchStarted := false;
      consignmentStack := map[];
      batchDate := "";
    }

    /** Starts a batch dated `today` unless one is already started. */
    method StartBatch(today: string)
      requires Valid()
      modifies this
      ensures Valid()
      ensures batchStarted
      ensures old(batchStarted) ==> consignmentStack == old(consignmentStack) && batchDate == old(batchDate)
      ensures !old(batchStarted) ==> consignmentStack == map[] && batchDate == today
    {
      if !batchStarted {
        consignmentStack := map[];
        batchDate := today;
        batchStarted := true;
      }
    }

    /**
     * Ends a started batch: every courier of the collection that has a stack
     * entry, in collection order, gets one transport with the batch date,
     * the courier and its stack. The stack itself is kept.
     */
    method EndBatch(log: EffectLog<Consignment>) returns (ghost dispatched: seq<Entry<Courier>>)
      requires Valid()
      modifies this, log
      ensures Valid()
      ensures !batchStarted
      ensures consignmentStack == old(consignmentStack) && batchDate == old(batchDate)
      ensures dispatched == if old(batchStarted) then Restrict(couriers, consignmentStack.Keys) else []
      ensures log.events == old(log.events)
        + if old(batchStarted) then BatchEffects(couriers, consignmentStack, batchDate) else []
    {
      dispatched := [];
      if batchStarted {
        dispatched := TransportAll(log);
        batchStarted := false;
      }
    }

    /** The `foreach` of `endBatch`: one transport per courier with a stack entry. */
    method TransportAll(log: EffectLog<Consignment>) returns (ghost dispatched: seq<Entry<Courier>>)
      modifies log
      ensures dispatched == Restrict(couriers, consignmentStack.Keys)
      ensures log.events == old(log.events) + BatchEffects(couriers, consignmentStack, batchDate)
    {
      dispatched := [];
      var i := 0;
      while i < |couriers|
        invariant 0 <= i <= |couriers|
        invariant dispatched == Restrict(couriers[..i], consignmentStack.Keys)
        invariant log.events == old(log.events) + BatchEffects(couriers[..i], consignmentStack, batchDate)
      {
        RestrictStep(couriers, i, consignmentStack.Keys);
        BatchEffectsStep(couriers, i, consignmentStack, batchDate);
        var courierRef, courier := couriers[i].key, couriers[i].value;
        if courierRef in consignmentStack {
          var transport := new DispatchBatchTransport(batchDate, courier, consignmentStack[courierRef]);
          transport.Send(log);
          dispatched := dispatched + [couriers[i]];
        }
        i := i + 1;
      }
      assert couriers[..i] == couriers;
    }

    /** Appends the consignment to its courier reference's stack while a batch is started. */
    method AddConsignment(consignment: Consignment)
      requires Valid()
      modifies this
      ensures Valid()
      ensures batchStarted == old(batchStarted) && batchDate == old(batchDate)
      ensures consignmentStack == if old(batchStarted) then Push(old(consignmentStack), consignment)
                                  else old(consignmentStack)
    {
      if batchStarted {
        var courierRef := consignment.courierRef;
        if courierRef in consignmentStack {
          consignmentStack := consignmentStack[courierRef := consignmentStack[courierRef] + [consignment]];
        } else {
          consignmentStack := consignmentStack[courierRef := [consignment]];
        }
      }
    }

    /** The consignments so far for a reference, or none; callable in any state. */
    function GetConsignmentsSoFar(courierRef: string): (r: seq<Consignment>)
      reads this
      ensures courierRef in consignmentStack ==> r == consignmentStack[courierRef]
      ensures courierRef !in consignmentStack ==> r == []
    {
      SoFar(consignmentStack, courierRef)
    }
  }

  // ---------------------------------------------------------------------------
  // Lemmas

  lemma BatchEffectsStep(couriers: seq<Entry<Courier>>, i: nat, stack: Stack, batchDate: string)
    requires i < |couriers|
    ensures BatchEffects(couriers[..i + 1], stack, batchDate)
         == BatchEffects(couriers[..i], stack, batchDate)
            + (if couriers[i].key in stack then SendEffects(batchDate, couriers[i].value, stack[couriers[i].key]) else [])
  {
    assert couriers[..i + 1][..i] == couriers[..i];
  }

  /**
   * Consignments added to a started batch accumulate per courier reference
   * in call order, whatever the interleaving with other references.
   */
  lemma {:induction false} PushAllSoFar(stack: Stack, cs: seq<Consignment>, courierRef: string)
    ensures SoFar(PushAll(stack, cs), courierRef) == SoFar(stack, courierRef) + ForRef(cs, courierRef)
    decreases |cs|
  {
    if cs != [] {
      var next, rest := Push(stack, cs[0]), ForRef(cs[1..], courierRef);
      PushAllSoFar(next, cs[1..], courierRef);
      assert PushAll(stack, cs) == PushAll(next, cs[1..]);
      if cs[0].courierRef == courierRef {
        assert SoFar(next, courierRef) == SoFar(stack, courierRef) + [cs[0]];
        assert ForRef(cs, courierRef) == [cs[0]] + rest;
        assert SoFar(stack, courierRef) + [cs[0]] + rest == SoFar(stack, courierRef) + ([cs[0]] + rest);
      } else {
        assert SoFar(next, courierRef) == SoFar(stack, courierRef);
        assert ForRef(cs, courierRef) == [] + rest;
      }
    }
  }

  /**
   * Ending a batch dispatches each collection key that has a stack entry
   * exactly once (the dispatched keys are distinct and are exactly those
   * keys), and never a stack reference that is not a collection key: such
   * consignments are stored but never transported.
   */
  lemma DispatchedCouriers(couriers: seq<Entry<Courier>>, stack: Stack)
    requires DistinctKeys(couriers) && KeyedByName(couriers)
    ensures DistinctKeys(Restrict(couriers, stack.Keys)) && KeyedByName(Restrict(couriers, stack.Keys))
    ensures KeySet(Restrict(couriers, stack.Keys)) == KeySet(couriers) * stack.Keys
    ensures forall ref :: ref in stack && ref !in KeySet(couriers) ==> ref !in KeySet(Restrict(couriers, stack.Keys))
  {
    RestrictKeys(couriers, stack.Keys);
    var d := Restrict(couriers, stack.Keys);
    forall i | 0 <= i < |d| ensures d[i].key == d[i].value.name {
      assert d[i] in d;
    }
  }

  /**
   * The trace of ending a batch: one success log per dispatched courier
   * whose method is "email" or "ftp", in collection order; no error log;
   * and no local batch file left behind.
   */
  lemma {:induction false} BatchTrace(couriers: seq<Entry<Courier>>, stack: Stack, batchDate: string)
    requires KeyedByName(couriers)
    ensures SuccessRefs(BatchEffects(couriers, stack, batchDate)) == SupportedKeys(Restrict(couriers, stack.Keys))
    ensures NoErrorLogged(BatchEffects(couriers, stack, batchDate))
    ensures FilesAfter({}, BatchEffects(couriers, stack, batchDate)) == {}
    decreases |couriers|
  {
    if couriers != [] {
      var init, last := couriers[..|couriers| - 1], couriers[|couriers| - 1];
      assert KeyedByName(init) by {
        forall i | 0 <= i < |init| ensures init[i].key == init[i].value.name {
          assert init[i] == couriers[i];
        }
      }
      BatchTrace(init, stack, batchDate);
      var a := BatchEffects(init, stack, batchDate);
      if last.key in stack {
        var b := SendEffects(batchDate, last.value, stack[last.key]);
        var file, body := LocalFileName(TmpStorageFolder, batchDate), NumberLines(Numbers(stack[last.key]));
        StrategyOutcome(last.value.name, batchDate, last.value.transportMethod, stack[last.key], file, body);
        StrategyCleansUp({}, last.value.name, batchDate, last.value.transportMethod, stack[last.key], file, body);
        TraceAppend(a, b);
        SupportedKeysSnoc(Restrict(init, stack.Keys), last);
      } else {
        assert a + [] == a;
        assert Restrict(init, stack.Keys) + [] == Restrict(init, stack.Keys);
      }
    }
  }
}
