/**
 * DispatchBatch: the stricter batch. Consignments are plain number
 * strings drawn from the courier's generator; adding one checks that the
 * batch is started and the courier exists, re-draws while the candidate
 * is a key of the used-numbers list, and records the number. Ending a
 * started batch runs the email or FTP strategy itself for each courier
 * with a stack, in collection order.
 */
module Batch {
  import opened Wrappers
  import opened Php
  import opened OrderedMap
  import opened Couriers
  import opened Payload
  import opened Effects
  import opened Collection

  const NotStartedError: string := "Error - batch has not started."
  const UnknownCourierError: string := "Error - courier does not exist."

  /** The consignment stack: courier reference => numbers in call order. */
  type Stack = map<string, seq<string>>

  /** The stack after appending one number to a reference's entry, creating it if absent. */
  function AppendNumber(stack: Stack, courierRef: string, number: string): (r: Stack)
    ensures r.Keys == stack.Keys + {courierRef}
    ensures courierRef in stack ==> r[courierRef] == stack[courierRef] + [number]
    ensures courierRef !in stack ==> r[courierRef] == [number]
    ensures forall ref :: ref in stack && ref != courierRef ==> r[ref] == stack[ref]
  {
    if courierRef in stack then stack[courierRef := stack[courierRef] + [number]]
    else stack[courierRef := [number]]
  }

  /** Every number on the stack was recorded in the used list. */
  ghost predicate StackedNumbersUsed(stack: Stack, used: seq<string>) {
    forall ref | ref in stack :: forall j | 0 <= j < |stack[ref]| :: stack[ref][j] in used
  }

  /**
   * The generator results `draws` (successive `getConsignmentNumber()`
   * calls) contain a candidate the re-draw test lets through.
   */
  ghost predicate HasFreeDraw(draws: seq<string>, usedCount: nat) {
    exists i :: 0 <= i < |draws| && !IsListIndexKey(draws[i], usedCount)
  }

  /** The index of the first candidate the re-draw test lets through. */
  ghost function FirstFreeDraw(draws: seq<string>, usedCount: nat): (k: nat)
    requires HasFreeDraw(draws, usedCount)
    ensures k < |draws| && !IsListIndexKey(draws[k], usedCount)
    ensures forall j :: 0 <= j < k ==> IsListIndexKey(draws[j], usedCount)
    decreases |draws|
  {
    if !IsListIndexKey(draws[0], usedCount) then 0
    else
      HasFreeDrawTail(draws, usedCount);
      1 + FirstFreeDraw(draws[1..], usedCount)
  }

  lemma HasFreeDrawTail(draws: seq<string>, usedCount: nat)
    requires HasFreeDraw(draws, usedCount) && IsListIndexKey(draws[0], usedCount)
    ensures HasFreeDraw(draws[1..], usedCount)
  {
    var i :| 0 <= i < |draws| && !IsListIndexKey(draws[i], usedCount);
    assert draws[1..][i - 1] == draws[i];
  }

  /**
   * The draw and re-draw loop of `addConsignment`: keep calling the
   * generator while `array_key_exists($number, $used)` holds. The keys of
   * the used list are its indices, so the test is IsListIndexKey.
   */
  method DrawConsignmentNumber(draws: seq<string>, used: seq<string>) returns (number: string)
    requires HasFreeDraw(draws, |used|)
    ensures number == draws[FirstFreeDraw(draws, |used|)]
  {
    ghost var first := FirstFreeDraw(draws, |used|);
    var k := 0;
    number := draws[0];
    while IsListIndexKey(number, |used|)
      invariant k <= first
      invariant number == draws[k]
      decreases first - k
    {
      k := k + 1;
      number := draws[k];
    }
  }

  /**
   * The outside effects of the `foreach` of `endBatch` over `couriers`:
   * each courier with a stack entry gets the strategy its method selects.
   */
  function DispatchEffects(couriers: seq<Entry<Courier>>, stack: Stack, batchDate: string,
                           tmpFolder: string): seq<Effect<string>>
    decreases |couriers|
  {
    if couriers == [] then []
    else
      var last := couriers[|couriers| - 1];
      DispatchEffects(couriers[..|couriers| - 1], stack, batchDate, tmpFolder)
        + (if last.key in stack
           then StrategyEffects(last.key, batchDate, last.value.transportMethod, stack[last.key],
                                LocalFileName(tmpFolder, batchDate), NumberLines(stack[last.key]))
           else [])
  }

  class DispatchBatch {
    const couriers: seq<Entry<Courier>>
    const tmpStorageFolder: string
    /** None until the first `startBatch`: the PHP property is unset (NULL) until then. */
    var consignmentStack: Option<Stack>
    var batchDate: string
    var usedConsignmentNumbers: seq<string>
    var batchStarted: bool

    ghost predicate Valid()
      reads this
    {
      && DistinctKeys(couriers) && KeyedByName(couriers)
      && (batchStarted ==> consignmentStack.Some?)
      && (consignmentStack.Some? ==>
            && (forall ref :: ref in consignmentStack.value ==> HasKey(couriers, ref))
            && StackedNumbersUsed(consignmentStack.value, usedConsignmentNumbers))
    }

    constructor (couriersCol: Collection.CourierCollection, tmpFolder: string)
      requires couriersCol.Valid()
      ensures Valid()
      ensures couriers == couriersCol.couriers && tmpStorageFolder == tmpFolder
      ensures usedConsignmentNumbers == [] && !batchStarted && consignmentStack == None
    {
      couriers := couriersCol.GetAllCouriers();
      usedConsignmentNumbers := [];
      batchStarted := false;
      tmpStorageFolder := tmpFolder;
      consignmentStack := None;
      batchDate := "";
    }

    /** Starts a batch dated `today` unless one is started; the used list is never reset. */
    method StartBatch(today: string)
      requires Valid()
      modifies this
      ensures Valid() && batchStarted
      ensures usedConsignmentNumbers == old(usedConsignmentNumbers)
      ensures old(batchStarted) ==> consignmentStack == old(consignmentStack) && batchDate == old(batchDate)
      ensures !old(batchStarted) ==> consignmentStack == Some(map[]) && batchDate == today
    {
      if !batchStarted {
        consignmentStack := Some(map[]);
        batchDate := today;
        batchStarted := true;
      }
    }

    /**
     * Adds a consignment for `courierRef`, drawing its number from `draws`
     * (the results of the courier's generator, call by call). Returns the
     * number, or one of the two error strings with nothing changed.
     */
    method AddConsignment(courierRef: string, draws: seq<string>) returns (result: string)
      requires Valid()
      requires batchStarted && HasKey(couriers, courierRef) ==> HasFreeDraw(draws, |usedConsignmentNumbers|)
      modifies this
      ensures Valid()
      ensures batchStarted == old(batchStarted) && batchDate == old(batchDate)
      ensures !old(batchStarted) ==>
        && result == NotStartedError
        && consignmentStack == old(consignmentStack)
        && usedConsignmentNumbers == old(usedConsignmentNumbers)
      ensures old(batchStarted) && !HasKey(couriers, courierRef) ==>
        && result == UnknownCourierError
        && consignmentStack == old(consignmentStack)
        && usedConsignmentNumbers == old(usedConsignmentNumbers)
      ensures old(batchStarted) && HasKey(couriers, courierRef) ==>
        && result == draws[FirstFreeDraw(draws, |old(usedConsignmentNumbers)|)]
        && consignmentStack == Some(AppendNumber(old(consignmentStack).value, courierRef, result))
        && usedConsignmentNumbers == old(usedConsignmentNumbers) + [result]
    {
      if batchStarted {
        if !HasKey(couriers, courierRef) {
          return UnknownCourierError;
        }
        var consignmentNumber := DrawConsignmentNumber(draws, usedConsignmentNumbers);
        var stack := consignmentStack.value;
        if courierRef in stack {
          stack := stack[courierRef := stack[courierRef] + [consignmentNumber]];
        } else {
          stack := stack[courierRef := [consignmentNumber]];
        }
        consignmentStack := Some(stack);
        usedConsignmentNumbers := usedConsignmentNumbers + [consignmentNumber];
        return consignmentNumber;
      } else {
        return NotStartedError;
      }
    }

    /** The numbers so far for a reference, or none; needs the stack to have been set by a start. */
    function GetConsignmentsSoFar(courierRef: string): (r: seq<string>)
      reads this
      requires consignmentStack.Some?
      ensures courierRef in consignmentStack.value ==> r == consignmentStack.value[courierRef]
      ensures courierRef !in consignmentStack.value ==> r == []
    {
      if courierRef in consignmentStack.value then consignmentStack.value[courierRef] else []
    }

    /**
     * Ends a started batch: for every courier of the collection that has a
     * stack entry, in collection order, the email strategy for "email", the
     * FTP strategy for "ftp", nothing otherwise. The stack is kept.
     */
    method EndBatch(log: EffectLog<string>) returns (ghost dispatched: seq<Entry<Courier>>)
      requires Valid()
      modifies this, log
      ensures Valid() && !batchStarted
      ensures consignmentStack == old(consignmentStack) && batchDate == old(batchDate)
      ensures usedConsignmentNumbers == old(usedConsignmentNumbers)
      ensures old(batchStarted) ==>
        && dispatched == Restrict(couriers, consignmentStack.value.Keys)
        && log.events == old(log.events)
             + DispatchEffects(couriers, consignmentStack.value, batchDate, tmpStorageFolder)
      ensures !old(batchStarted) ==> dispatched == [] && log.events == old(log.events)
    {
      dispatched := [];
      if batchStarted {
        dispatched := TransportAll(log);
        batchStarted := false;
      }
    }

    /** The `foreach` of `endBatch` over the couriers. */
    method TransportAll(log: EffectLog<string>) returns (ghost dispatched: seq<Entry<Courier>>)
      requires DistinctKeys(couriers) && consignmentStack.Some?
      modifies log
      ensures dispatched == Restrict(couriers, consignmentStack.value.Keys)
      ensures log.events == old(log.events)
        + DispatchEffects(couriers, consignmentStack.value, batchDate, tmpStorageFolder)
    {
      var stack := consignmentStack.value;
      dispatched := [];
      var i := 0;
      while i < |couriers|
        invariant 0 <= i <= |couriers|
        invariant dispatched == Restrict(couriers[..i], stack.Keys)
        invariant log.events == old(log.events) + DispatchEffects(couriers[..i], stack, batchDate, tmpStorageFolder)
      {
        RestrictStep(couriers, i, stack.Keys);
        DispatchEffectsStep(couriers, i, stack, batchDate, tmpStorageFolder);
        if couriers[i].key in stack {
          Transport(i, log);
          dispatched := dispatched + [couriers[i]];
        }
        i := i + 1;
      }
      assert couriers[..i] == couriers;
    }

    /** The `switch` on the i-th courier's transport method inside `endBatch`. */
    method Transport(i: nat, log: EffectLog<string>)
      requires DistinctKeys(couriers) && i < |couriers|
      requires consignmentStack.Some? && couriers[i].key in consignmentStack.value
      modifies log
      ensures log.events == old(log.events)
        + StrategyEffects(couriers[i].key, batchDate, couriers[i].value.transportMethod,
                          consignmentStack.value[couriers[i].key], LocalFileName(tmpStorageFolder, batchDate),
                          NumberLines(consignmentStack.value[couriers[i].key]))
    {
      var courierRef, courier := couriers[i].key, couriers[i].value;
      LookupDistinct(couriers, i);
      match courier.transportMethod {
        case "email" =>
          TransportConsignmentNosEmail(courierRef, log);
        case "ftp" =>
          TransportConsignmentNosFtp(courierRef, log);
        case _ =>
      }
    }

    /** The recipient, subject, body and headers the email strategy prepares. */
    method ComposeEmail(courierRef: string) returns (mail: Email)
      requires consignmentStack.Some? && courierRef in consignmentStack.value && HasKey(couriers, courierRef)
      ensures mail == EmailFor(batchDate, Lookup(couriers, courierRef).value, consignmentStack.value[courierRef])
    {
      var courier := Lookup(couriers, courierRef).value;
      var transportCreds := courier.transportCredentials;
      var to := Credential(transportCreds, "to");
      var subject := "Batch " + batchDate + " " + courier.name;
      var consignmentBody := BuildNumberLines(consignmentStack.value[courierRef]);
      var headers := "From: " + Credential(transportCreds, "from");
      mail := Email(to, subject, consignmentBody, headers);
    }

    /** The local file name and contents the FTP strategy writes. */
    method ComposeBatchFile(courierRef: string) returns (localFile: string, contents: string)
      requires consignmentStack.Some? && courierRef in consignmentStack.value
      ensures localFile == LocalFileName(tmpStorageFolder, batchDate)
      ensures contents == NumberLines(consignmentStack.value[courierRef])
    {
      contents := BuildNumberLines(consignmentStack.value[courierRef]);
      localFile := tmpStorageFolder + "batch-" + batchDate + ".txt";
    }

    /** As written `mail()` is commented out, so the strategy always logs success. */
    method TransportConsignmentNosEmail(courierRef: string, log: EffectLog<string>)
      requires consignmentStack.Some? && courierRef in consignmentStack.value && HasKey(couriers, courierRef)
      modifies log
      ensures log.events == old(log.events) + EmailEffects(courierRef, batchDate, consignmentStack.value[courierRef])
    {
      var mail := ComposeEmail(courierRef);
      log.events := log.events + [LogSuccess(courierRef, batchDate, "email", consignmentStack.value[courierRef])];
    }

    /** As written the upload is disabled: the file is written, unlinked, and success is logged. */
    method TransportConsignmentNosFtp(courierRef: string, log: EffectLog<string>)
      requires consignmentStack.Some? && courierRef in consignmentStack.value && HasKey(couriers, courierRef)
      modifies log
      ensures log.events == old(log.events)
        + FtpEffects(courierRef, batchDate, consignmentStack.value[courierRef],
                     LocalFileName(tmpStorageFolder, batchDate), NumberLines(consignmentStack.value[courierRef]))
    {
      var localFile, contents := ComposeBatchFile(courierRef);
      log.events := log.events + [FileWritten(localFile, contents)];
      log.events := log.events + [FileDeleted(localFile)];
      log.events := log.events + [LogSuccess(courierRef, batchDate, "ftp", consignmentStack.value[courierRef])];
    }
  }

  // ---------------------------------------------------------------------------
  // Lemmas

  lemma DispatchEffectsStep(couriers: seq<Entry<Courier>>, i: nat, stack: Stack,
                            batchDate: string, tmpFolder: string)
    requires i < |couriers|
    ensures DispatchEffects(couriers[..i + 1], stack, batchDate, tmpFolder)
         == DispatchEffects(couriers[..i], stack, batchDate, tmpFolder)
            + (if couriers[i].key in stack
               then StrategyEffects(couriers[i].key, batchDate, couriers[i].value.transportMethod,
                                    stack[couriers[i].key], LocalFileName(tmpFolder, batchDate),
                                    NumberLines(stack[couriers[i].key]))
               else [])
  {
    assert couriers[..i + 1][..i] == couriers[..i];
  }

  /**
   * In this batch every stack key is a courier key, so ending a started
   * batch dispatches every stacked reference exactly once: the dispatched
   * keys are distinct and are exactly the stack's keys.
   */
  lemma EveryStackDispatched(couriers: seq<Entry<Courier>>, stack: Stack)
    requires DistinctKeys(couriers)
    requires forall ref :: ref in stack ==> HasKey(couriers, ref)
    ensures DistinctKeys(Restrict(couriers, stack.Keys))
    ensures KeySet(Restrict(couriers, stack.Keys)) == stack.Keys
  {
    RestrictKeys(couriers, stack.Keys);
    forall ref | ref in stack ensures ref in KeySet(couriers) {
      HasKeyAt(couriers, ref);
      var i :| 0 <= i < |couriers| && couriers[i].key == ref;
      assert couriers[i] in couriers;
    }
  }

  /**
   * The trace of ending a started batch: one success log per dispatched
   * courier whose method is "email" or "ftp", under its reference and in
   * collection order; no error log; no local batch file left behind.
   */
  lemma {:induction false} DispatchTrace(couriers: seq<Entry<Courier>>, stack: Stack, batchDate: string,
                                         tmpFolder: string)
    ensures SuccessRefs(DispatchEffects(couriers, stack, batchDate, tmpFolder))
         == SupportedKeys(Restrict(couriers, stack.Keys))
    ensures NoErrorLogged(DispatchEffects(couriers, stack, batchDate, tmpFolder))
    ensures FilesAfter({}, DispatchEffects(couriers, stack, batchDate, tmpFolder)) == {}
    decreases |couriers|
  {
    if couriers != [] {
      var init, last := couriers[..|couriers| - 1], couriers[|couriers| - 1];
      DispatchTrace(init, stack, batchDate, tmpFolder);
      var a := DispatchEffects(init, stack, batchDate, tmpFolder);
      if last.key in stack {
        var file, body := LocalFileName(tmpFolder, batchDate), NumberLines(stack[last.key]);
        var b := StrategyEffects(last.key, batchDate, last.value.transportMethod, stack[last.key], file, body);
        StrategyOutcome(last.key, batchDate, last.value.transportMethod, stack[last.key], file, body);
        StrategyCleansUp({}, last.key, batchDate, last.value.transportMethod, stack[last.key], file, body);
        TraceAppend(a, b);
        SupportedKeysSnoc(Restrict(init, stack.Keys), last);
      } else {
        assert a + [] == a;
        assert Restrict(init, stack.Keys) + [] == Restrict(init, stack.Keys);
      }
    }
  }

  /** A RoyalMail number ("-GB" suffix) is never a list index, so it is never re-drawn. */
  lemma RoyalMailNeverRedrawn(number: string, usedCount: nat)
    requires IsRoyalMailNumber(number)
    ensures !IsListIndexKey(number, usedCount)
  {
    assert number[10] == number[10..][0] == '-';
    assert !IsDigit(number[10]);
  }

  /**
   * An ANC number (an 8-digit date not starting with 0, then 6 digits) is
   * at least 10^13 as a decimal, so it is re-drawn only once more than
   * 10^13 numbers have been used.
   */
  lemma {:induction false} AncRedrawnOnlyPastTenTrillion(today: string, number: string, usedCount: nat)
    requires |today| == 8 && AllDigits(today) && today[0] != '0'
    requires |number| == |today| + 6 && number[..|today|] == today
    requires forall i :: |today| <= i < |number| ==> IsDigit(number[i])
    requires usedCount <= Pow10(13)
    ensures !IsListIndexKey(number, usedCount)
  {
    assert number[0] == today[0];
    assert AllDigits(number) by {
      forall i | 0 <= i < |number| ensures IsDigit(number[i]) {
        if i < 8 { assert number[i] == number[..|today|][i] == today[i]; }
      }
    }
    DecimalValueLowerBound(number);
  }

  /**
   * The re-draw test compares the candidate with the used list's indices,
   * not its values: a number already used is let through ...
   */
  lemma UsedNumberNotRedrawn()
    ensures var used := ["1234567890-GB"];
      used[0] in used && !IsListIndexKey(used[0], |used|)
  {
    RoyalMailNeverRedrawn("1234567890-GB", 1);
  }

  /**
   * ... while a number never used is re-drawn when it spells an index of
   * the used list: with i numbers issued, each spelling of 0 .. i-1 is
   * rejected whether or not it was ever issued.
   */
  lemma UnusedIndexRedrawn(used: seq<string>, i: nat)
    requires i < |used| && i <= PhpIntMax && NatString(i) !in used
    ensures IsListIndexKey(NatString(i), |used|)
  {
    NatStringCanonical(i);
  }
}
