/**
 * What a transport strategy does to the outside world, as a trace: the
 * local batch file written and deleted, and the log call made. The log
 * stubs always return TRUE and do no work, so only the call is recorded.
 * No mail event exists because the `mail()` call is commented out, and no
 * upload event because the FTP upload sits behind `if ($ftpSuccess && 1===2)`.
 */
module Effects {
  import opened OrderedMap
  import opened Couriers
  import opened Payload

  /** `T` is the element type of the logged stack (Consignment or number string). */
  datatype Effect<T> =
    | FileWritten(path: string, contents: string)
    | FileDeleted(path: string)
    | LogSuccess(courierRef: string, batchDate: string, transportMethod: string, consignments: seq<T>)
    | LogError(courierRef: string, transportMethod: string, consignments: seq<T>)

  /** The trace the strategies append to. */
  class EffectLog<T> {
    ghost var events: seq<Effect<T>>

    constructor ()
      ensures events == []
    {
      events := [];
    }
  }

  /** The email strategy as written: the mail is prepared but not sent, then success is logged. */
  function EmailEffects<T>(courierRef: string, batchDate: string, consignments: seq<T>): seq<Effect<T>> {
    [LogSuccess(courierRef, batchDate, "email", consignments)]
  }

  /**
   * The FTP strategy as written: the batch file is written, the upload is
   * skipped so `$ftpSuccess` stays TRUE, the file is unlinked, success is logged.
   */
  function FtpEffects<T>(courierRef: string, batchDate: string, consignments: seq<T>,
                         localFile: string, contents: string): seq<Effect<T>> {
    [FileWritten(localFile, contents), FileDeleted(localFile),
     LogSuccess(courierRef, batchDate, "ftp", consignments)]
  }

  /** `switch ($method) { case 'email': ...; case 'ftp': ...; }` with no default. */
  function StrategyEffects<T>(courierRef: string, batchDate: string, transportMethod: string,
                              consignments: seq<T>, localFile: string, contents: string): (r: seq<Effect<T>>)
    ensures r == [] <==> !IsSupportedMethod(transportMethod)
    ensures r != [] ==> r[|r| - 1] == LogSuccess(courierRef, batchDate, transportMethod, consignments)
  {
    if transportMethod == "email" then EmailEffects(courierRef, batchDate, consignments)
    else if transportMethod == "ftp" then FtpEffects(courierRef, batchDate, consignments, localFile, contents)
    else []
  }

  predicate IsSupportedMethod(transportMethod: string) {
    transportMethod == "email" || transportMethod == "ftp"
  }

  /** The local files present after the events, starting from `files`. */
  ghost function FilesAfter<T>(files: set<string>, events: seq<Effect<T>>): set<string>
    decreases |events|
  {
    if events == [] then files
    else
      var files' := match events[0]
        case FileWritten(p, _) => files + {p}
        case FileDeleted(p) => files - {p}
        case _ => files;
      FilesAfter(files', events[1..])
  }

  /** The courier references of the success log calls, in order. */
  ghost function SuccessRefs<T>(events: seq<Effect<T>>): seq<string> {
    if events == [] then []
    else (if events[0].LogSuccess? then [events[0].courierRef] else []) + SuccessRefs(events[1..])
  }

  /** The references of the couriers whose method is "email" or "ftp", in order. */
  ghost function SupportedKeys(dispatched: seq<Entry<Courier>>): seq<string>
    decreases |dispatched|
  {
    if dispatched == [] then []
    else
      var last := dispatched[|dispatched| - 1];
      SupportedKeys(dispatched[..|dispatched| - 1])
        + (if IsSupportedMethod(last.value.transportMethod) then [last.key] else [])
  }

  ghost predicate NoErrorLogged<T>(events: seq<Effect<T>>) {
    forall i :: 0 <= i < |events| ==> !events[i].LogError?
  }

  // ---------------------------------------------------------------------------
  // Lemmas

  /**
   * A strategy runs for "email" and "ftp" only; when it runs its last event
   * logs success for the courier, date, method and stack it was given, the
   * local file is deleted before that log call, and no error is ever logged.
   */
  lemma StrategyOutcome<T>(courierRef: string, batchDate: string, transportMethod: string,
                           consignments: seq<T>, localFile: string, contents: string)
    ensures var ev := StrategyEffects(courierRef, batchDate, transportMethod, consignments, localFile, contents);
      && (ev != [] <==> IsSupportedMethod(transportMethod))
      && (ev != [] ==> ev[|ev| - 1] == LogSuccess(courierRef, batchDate, transportMethod, consignments))
      && (transportMethod == "ftp" ==> ev[..2] == [FileWritten(localFile, contents), FileDeleted(localFile)])
      && SuccessRefs(ev) == (if IsSupportedMethod(transportMethod) then [courierRef] else [])
      && NoErrorLogged(ev)
  {
    var ev := StrategyEffects(courierRef, batchDate, transportMethod, consignments, localFile, contents);
    if transportMethod == "ftp" {
      assert ev[1..][1..][1..] == [];
      assert SuccessRefs(ev[1..][1..]) == [courierRef];
    } else if transportMethod == "email" {
      assert ev[1..] == [];
    }
  }

  /** Success logs, the absence of error logs and a clean file system carry over to a concatenated trace. */
  lemma TraceAppend<T>(a: seq<Effect<T>>, b: seq<Effect<T>>)
    requires NoErrorLogged(a) && NoErrorLogged(b)
    requires FilesAfter({}, a) == {} && FilesAfter({}, b) <= {}
    ensures SuccessRefs(a + b) == SuccessRefs(a) + SuccessRefs(b)
    ensures NoErrorLogged(a + b)
    ensures FilesAfter({}, a + b) == {}
  {
    SuccessRefsConcat(a, b);
    FilesAfterConcat({}, a, b);
    forall i | 0 <= i < |a + b| ensures !(a + b)[i].LogError? {
      if i < |a| { assert (a + b)[i] == a[i]; } else { assert (a + b)[i] == b[i - |a|]; }
    }
  }

  lemma SupportedKeysSnoc(dispatched: seq<Entry<Courier>>, next: Entry<Courier>)
    ensures SupportedKeys(dispatched + [next])
         == SupportedKeys(dispatched) + (if IsSupportedMethod(next.value.transportMethod) then [next.key] else [])
  {
    assert (dispatched + [next])[..|dispatched|] == dispatched;
  }

  lemma {:induction false} FilesAfterConcat<T>(files: set<string>, a: seq<Effect<T>>, b: seq<Effect<T>>)
    ensures FilesAfter(files, a + b) == FilesAfter(FilesAfter(files, a), b)
    decreases |a|
  {
    if a != [] {
      assert (a + b)[0] == a[0];
      assert (a + b)[1..] == a[1..] + b;
      var files' := match a[0]
        case FileWritten(p, _) => files + {p}
        case FileDeleted(p) => files - {p}
        case _ => files;
      FilesAfterConcat(files', a[1..], b);
    } else {
      assert a + b == b;
    }
  }

  lemma {:induction false} SuccessRefsConcat<T>(a: seq<Effect<T>>, b: seq<Effect<T>>)
    ensures SuccessRefs(a + b) == SuccessRefs(a) + SuccessRefs(b)
  {
    if a != [] {
      assert (a + b)[0] == a[0];
      assert (a + b)[1..] == a[1..] + b;
      SuccessRefsConcat(a[1..], b);
    } else {
      assert a + b == b;
    }
  }

  /** A strategy never leaves a local file behind that was not there before. */
  lemma StrategyCleansUp<T>(files: set<string>, courierRef: string, batchDate: string, transportMethod: string,
                            consignments: seq<T>, localFile: string, contents: string)
    ensures FilesAfter(files, StrategyEffects(courierRef, batchDate, transportMethod, consignments, localFile, contents))
         <= files
  {
    var ev := StrategyEffects(courierRef, batchDate, transportMethod, consignments, localFile, contents);
    if transportMethod == "ftp" {
      assert ev[1..][1..][1..] == [];
      assert FilesAfter(files - {localFile}, ev[1..][1..]) == files - {localFile};
      assert (files + {localFile}) - {localFile} == files - {localFile};
      assert FilesAfter(files + {localFile}, ev[1..]) == files - {localFile};
    } else if transportMethod == "email" {
      assert ev[1..] == [];
    }
  }
}
