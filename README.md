# Dispatch batch system: a Dafny model

A model of the core of a small PHP dispatch utility. Couriers are held in
an insertion-ordered collection keyed by courier name. During a business
day a *dispatch batch* collects consignments per courier. Ending the
batch hands each courier's consignments to a transport: an email or an
FTP upload, chosen from the courier's transport method string.

Two batch classes exist and both are modelled:

- `DispatchBatchManager` keeps `Consignment` objects and does not check
  the courier reference. Ending the batch builds one
  `DispatchBatchTransport` per courier.
- `DispatchBatch` is the older, stricter class. It keeps plain number
  strings and returns fixed error strings when the batch is not started
  or the courier is unknown. It draws each number from the courier's
  generator, re-draws in a loop and records every number in a
  used-numbers list. It runs the email and FTP strategies itself.

How the model is built:

- **PHP arrays.** A string-keyed PHP array becomes an ordered list of
  key/value entries with distinct keys (`OrderedMap`). `foreach` order
  is list order. `array_key_exists` is `HasKey`.
- **The used-numbers list.** This list has keys 0..n-1. The re-draw test
  `array_key_exists($number, $used)` is therefore PHP's key
  normalisation: a canonical non-negative decimal string no larger than
  `PHP_INT_MAX` and smaller than n is a key (`Php.IsListIndexKey`). Any
  other string is not a key. `Php.ListIndexKeyIsIndexSpelling` shows this
  is the same as being the `strval` spelling (`Php.NatString`) of an index.
- **Courier and Consignment** are immutable. They are datatypes, and
  their getters are the datatype's fields (app/Classes/Courier.php:58-95,
  app/Classes/Consignment.php:36-61).
- **Generators.** `getConsignmentNumber` is abstract (app/Classes/Courier.php:97-103).
  Its results are passed in as an oracle sequence `draws`. The two test
  algorithms (RoyalMail and ANC) are modelled as methods, with the
  `rand` results passed in.
- **Outside effects** go to a ghost trace (`Effects.EffectLog`): a local
  file written, a local file deleted, a success log call, an error log
  call. As written, `mail()` is commented out and the FTP upload sits
  behind `if ($ftpSuccess && 1===2)`. So every strategy that runs ends in
  a success log, and the FTP strategy always writes and then deletes its
  file first.
- **State.** The batches and the collection are classes whose methods
  update their fields. The accumulator loops that build the email body
  and the FTP file are methods proved equal to `Payload.NumberLines`.
- **`endBatch`** returns a ghost list of the courier entries it
  dispatched. The lemmas show what the trace of that dispatch looks
  like.

The strict class's re-draw test compares the candidate with the list's
*indices*, not with the numbers issued earlier. The model keeps the test
as written and makes no uniqueness claim. `Batch.UsedNumberNotRedrawn`
shows, on a concrete list, that it lets an issued number through.
`Batch.UnusedIndexRedrawn` shows, for every list, that it re-draws a
number never issued whenever that number spells an index of the list.

`Scenarios` restates the unit tests' scenarios as methods whose assertions follow from the contracts.

## Model

| member | source | states |
|---|---|---|
| Collection.CourierCollection.constructor | app/Classes/CourierCollection.php:24-27 | a new collection is empty and satisfies the invariant (distinct keys, each key is its courier's name) |
| Collection.CourierCollection.AddCourier | app/Classes/CourierCollection.php:37-42 | a name not yet present is appended under `getName()` at the end of iteration order; a name already present leaves the collection unchanged; the invariant is kept |
| Collection.CourierCollection.DeleteCourier | app/Classes/CourierCollection.php:52-57 | the entry for the reference is removed and nothing else changes; an absent reference changes nothing; the invariant is kept |
| Collection.CourierCollection.GetCourier | app/Classes/CourierCollection.php:67-71 | returns a courier exactly when the reference is a key, and then it is the stored entry's courier, whose name is the reference; otherwise NULL (`None`) |
| Collection.CourierCollection.GetAllCouriers | app/Classes/CourierCollection.php:78-81 | returns the whole ordered map unchanged, with distinct keys each equal to its courier's name |
| Collection.AddAllSize | tests/CourierCollectionTest.php:20-47 | after adding any sequence of couriers to an empty collection, the size is the number of distinct names among them |
| Collection.AddAllKeys | app/Classes/CourierCollection.php:37-42 | repeated adds keep the keys distinct; the keys become the old keys plus the added names |
| Collection.FirstRegistrationWins | app/Classes/CourierCollection.php:39-40 | once a name is present, no later sequence of adds changes the courier stored under it |
| Collection.RemoveKeepsNames | app/Classes/CourierCollection.php:54-56 | deleting keeps every remaining entry keyed by its courier's name |
| OrderedMap.HasKeyAt | app/Classes/CourierCollection.php:39 | `array_key_exists` on a string-keyed array (`HasKey`) holds exactly when some entry has that key |
| OrderedMap.Remove | app/Classes/CourierCollection.php:54-55 | `unset` shortens the map by one entry when the key is present and by none otherwise, and keeps only entries the map already had |
| OrderedMap.Lookup | app/Classes/CourierCollection.php:69-70 | a value is found exactly when the key is present, and it is an entry of the map under that key |
| OrderedMap.Insert | app/Classes/CourierCollection.php:39-40 | inserting a present key changes nothing; an absent key is appended at the end; distinct keys are kept |
| OrderedMap.LookupAfterInsert | app/Classes/CourierCollection.php:39-40 | after an insert, the new key maps to the new value only if it was absent; every other lookup is unchanged |
| OrderedMap.RemoveSplices | app/Classes/CourierCollection.php:54-56 | `unset` drops exactly the entry at the key's position; the entries before and after keep their order |
| OrderedMap.RemoveAbsent | app/Classes/CourierCollection.php:54 | removing an absent key changes nothing |
| OrderedMap.LookupAfterRemove | app/Classes/CourierCollection.php:54-56 | after removal, the key is absent, every other lookup is unchanged, and keys stay distinct |
| OrderedMap.RestrictKeys | app/Classes/DispatchBatchManager.php:85-88 | the entries visited by `foreach` with an `array_key_exists` filter have distinct keys; those keys are exactly the map's keys that pass the filter; each entry comes from the map |
| OrderedMap.RestrictStep | app/Classes/DispatchBatchManager.php:85-88 | one more pass of the `foreach` keeps the entry exactly when its key passes the `array_key_exists` filter |
| OrderedMap.DistinctKeysCard | tests/CourierCollectionTest.php:28 | with distinct keys, the count of a map is the number of its keys |
| Couriers.RoyalMailConsignmentNumber | tests/CourierTest.php:103-110 | the number is one digit 1-9, nine digits 0-9, then "-GB", and its digits are the `rand` results in order |
| Couriers.AncConsignmentNumber | tests/CourierTest.php:127-134 | the number is the date string followed by exactly six digits, and the i-th of those digits is the i-th `rand(0,9)` result |
| Consignments.Numbers | app/Classes/Consignment.php:58-61 | the stack's `getConsignmentNumber()` values: the same length, element by element in stack order |
| Payload.BuildNumberLines | app/Classes/DispatchBatch.php:204-207 | the accumulator loop yields `NumberLines`: each number followed by "\r\n", in order |
| Payload.NumberLinesSnoc | app/Classes/DispatchBatchTransport.php:98-99 | one more loop step appends exactly the number and "\r\n" |
| Payload.SplitNumberLines | app/Classes/DispatchBatchTransport.php:97-100 | splitting the body at "\r\n" gives back the numbers in order, when no number contains a carriage return |
| Payload.NumberLinesLength | app/Classes/DispatchBatchTransport.php:97-100 | the body is empty exactly when the stack is empty, and is at least two characters per number |
| Payload.Credential | app/Classes/DispatchBatchTransport.php:95-101 | reading a credential gives the stored value when the key is present and "" (NULL concatenated) when it is missing |
| Payload.SubjectParts | app/Classes/DispatchBatchTransport.php:96 | the subject is "Batch ", the date, a space and the courier name, in that order |
| Payload.SubjectInjective | app/Classes/DispatchBatchTransport.php:96 | for one date, distinct courier names give distinct subjects |
| Payload.LocalFileNameInjective | app/Classes/DispatchBatchTransport.php:143 | for one temp folder, distinct dates give distinct local file names |
| Php.NatStringCanonical | app/Classes/DispatchBatch.php:147-148 | the `strval` spelling of a non-negative integer is a canonical decimal key, which PHP normalises back to that integer |
| Php.CanonicalIsNatString | app/Classes/DispatchBatch.php:147-148 | a canonical decimal key is the `strval` spelling of the integer PHP normalises it to |
| Php.ListIndexKeyIsIndexSpelling | app/Classes/DispatchBatch.php:147-148 | `array_key_exists($n, $used)` on a list of n numbers (`IsListIndexKey`) holds exactly when $n is the decimal spelling of an index below n that fits in a PHP integer |
| Php.DecimalValueLowerBound | app/Classes/DispatchBatch.php:147-148 | a digit string without a leading zero has a decimal value of at least 10^(length-1), which bounds when such a number can be a list index |
| Effects.StrategyEffects | app/Classes/DispatchBatchTransport.php:69-76 | the `switch` has no default: a method other than "email" and "ftp" has no effect at all; a supported one ends by logging success under its own method name |
| Effects.StrategyOutcome | app/Classes/DispatchBatchTransport.php:89-198 | a strategy runs for "email" and "ftp" only; when it runs, its last event logs success for the given reference, date, method and stack; for FTP the file is written and then deleted before the log; no error is ever logged |
| Effects.StrategyCleansUp | app/Classes/DispatchBatchTransport.php:184-185 | a strategy never leaves a local file that was not there before |
| Effects.FilesAfterConcat | app/Classes/DispatchBatchTransport.php:146-185 | the files after two traces are those after the first, then the second |
| Effects.SuccessRefsConcat | app/Classes/DispatchBatchTransport.php:188-189 | the success logs of two traces are those of the first followed by those of the second |
| Effects.TraceAppend | app/Classes/DispatchBatchManager.php:85-96 | appending one courier's trace to a batch trace keeps the success logs in order, keeps the trace free of error logs, and keeps the file system clean |
| Effects.SupportedKeysSnoc | app/Classes/DispatchBatchTransport.php:69-76 | one more dispatched courier adds its reference to the expected success logs exactly when its method is "email" or "ftp" |
| Transport.BuildConsignmentLines | app/Classes/DispatchBatchTransport.php:97-100 | the loop over the stack yields `NumberLines` of the stack's numbers |
| Transport.DispatchBatchTransport.constructor | app/Classes/DispatchBatchTransport.php:49-58 | date, courier and stack are stored unchanged; the temp folder is TAB followed by "mp" |
| Transport.DispatchBatchTransport.Send | app/Classes/DispatchBatchTransport.php:66-77 | the trace grows by the email strategy's effects for "email", the FTP strategy's for "ftp", and by nothing for any other method |
| Transport.DispatchBatchTransport.ComposeEmail | app/Classes/DispatchBatchTransport.php:92-101 | recipient `creds["to"]`, subject "Batch date name", the body from the stack, header "From: " plus `creds["from"]` |
| Transport.DispatchBatchTransport.ComposeBatchFile | app/Classes/DispatchBatchTransport.php:139-143 | the file contents are the email body; the file name is temp folder + "batch-" + date + ".txt" |
| Transport.DispatchBatchTransport.TransportConsignmentNosEmail | app/Classes/DispatchBatchTransport.php:89-119 | with `mail()` commented out, exactly one success log is appended: courier name, date, "email", the stack |
| Transport.DispatchBatchTransport.TransportConsignmentNosFtp | app/Classes/DispatchBatchTransport.php:132-198 | with the upload gated off, the trace grows by a write of the body to the local file, its deletion, then a success log: courier name, date, "ftp", the stack |
| Transport.PayloadListsNumbers | app/Classes/DispatchBatchTransport.php:139-143 | the FTP file holds exactly the email body, and reading either back line by line gives the stack's numbers in order |
| Transport.SendOutcome | app/Classes/DispatchBatchTransport.php:66-77 | a send does nothing exactly for unsupported methods; otherwise it ends in a success log for the courier's name, the date, the method and the whole stack; it never leaves the local file behind |
| Manager.Push | app/Classes/DispatchBatchManager.php:117-124 | adding appends the consignment to the end of its reference's stack, creating it if absent; every other reference is untouched |
| Manager.PushAllSoFar | tests/DispatchBatchManagerTest.php:149-198 | after any sequence of adds, each reference's stack is its old stack followed by that reference's consignments in call order |
| Manager.DispatchBatchManager.constructor | app/Classes/DispatchBatchManager.php:47-53 | the manager holds a copy of the collection's map, is not started, and has an empty stack |
| Manager.DispatchBatchManager.StartBatch | app/Classes/DispatchBatchManager.php:62-70 | when not started, the stack is emptied, the date set and the batch started; when started, stack and date are kept |
| Manager.DispatchBatchManager.AddConsignment | app/Classes/DispatchBatchManager.php:115-126 | while started, the stack becomes `Push` of the consignment, with no check of the reference; while not started, nothing changes |
| Manager.DispatchBatchManager.GetConsignmentsSoFar | app/Classes/DispatchBatchManager.php:137-141 | the reference's stack, or the empty list when it has none |
| Manager.DispatchBatchManager.EndBatch | app/Classes/DispatchBatchManager.php:79-101 | when started: the couriers with a stack entry are dispatched in collection order; the trace grows by one transport send each, with date, courier and that stack; then not started; stack and date are kept. When not started: only `batchStarted` stays false and the trace is unchanged |
| Manager.DispatchBatchManager.TransportAll | app/Classes/DispatchBatchManager.php:85-96 | the loop dispatches the couriers with a stack entry, in order, and appends each one's send effects |
| Manager.BatchEffectsStep | app/Classes/DispatchBatchManager.php:85-95 | one more pass of the loop appends the courier's send effects when it has a stack entry, and nothing otherwise |
| Manager.DispatchedCouriers | app/Classes/DispatchBatchManager.php:85-88 | each collection key with a stack entry is dispatched exactly once; a stack reference that is not a collection key is never dispatched |
| Manager.BatchTrace | app/Classes/DispatchBatchManager.php:85-96 | the success logs of the loop are exactly the dispatched couriers (those with a stack entry) whose method is "email" or "ftp", once each, in collection order; no error is logged and no local file is left |
| Batch.AppendNumber | app/Classes/DispatchBatch.php:153-157 | the number is appended to the end of the reference's stack, creating it if absent; other references are untouched |
| Batch.FirstFreeDraw | app/Classes/DispatchBatch.php:145-151 | the first generator result that is not a key of the used list; every earlier result is one |
| Batch.HasFreeDrawTail | app/Classes/DispatchBatch.php:147-151 | when the first result is re-drawn, a later one still passes the test |
| Batch.DrawConsignmentNumber | app/Classes/DispatchBatch.php:145-151 | the re-draw loop returns the first generator result that is not an index key of the used list |
| Batch.DispatchBatch.constructor | app/Classes/DispatchBatch.php:63-70 | holds a copy of the collection's map and the temp folder; the used list is empty; not started; the stack is unset |
| Batch.DispatchBatch.StartBatch | app/Classes/DispatchBatch.php:79-87 | when not started, the stack becomes empty, the date is set and the batch is started; when started, nothing changes; the used list is never reset |
| Batch.DispatchBatch.AddConsignment | app/Classes/DispatchBatch.php:136-165 | not started: returns "Error - batch has not started." and changes nothing. Unknown courier: returns "Error - courier does not exist." and changes nothing. Otherwise: returns the first free draw, appended to the end of the reference's stack and of the used list. Every stack key stays a courier key and every stacked number stays in the used list |
| Batch.DispatchBatch.GetConsignmentsSoFar | app/Classes/DispatchBatch.php:176-180 | the reference's numbers, or the empty list when it has none |
| Batch.DispatchBatch.EndBatch | app/Classes/DispatchBatch.php:96-122 | when started: the couriers with a stack entry are dispatched in collection order, running the strategy their method selects; then not started; stack, date and used list are kept. When not started: nothing happens |
| Batch.DispatchBatch.TransportAll | app/Classes/DispatchBatch.php:102-117 | the loop dispatches the couriers with a stack entry, in order, and appends each one's strategy effects |
| Batch.DispatchBatch.Transport | app/Classes/DispatchBatch.php:108-115 | the switch runs email for "email", FTP for "ftp", nothing otherwise |
| Batch.DispatchBatch.ComposeEmail | app/Classes/DispatchBatch.php:198-208 | recipient, subject "Batch date name", the body built from the reference's numbers, and the "From: " header |
| Batch.DispatchBatch.ComposeBatchFile | app/Classes/DispatchBatch.php:250-254 | the file contents are the numbers each followed by "\r\n"; the name is temp folder + "batch-" + date + ".txt" |
| Batch.DispatchBatch.TransportConsignmentNosEmail | app/Classes/DispatchBatch.php:195-226 | exactly one success log is appended: reference, date, "email", the reference's numbers |
| Batch.DispatchBatch.TransportConsignmentNosFtp | app/Classes/DispatchBatch.php:242-309 | the file write, its deletion, then a success log: reference, date, "ftp", the reference's numbers |
| Batch.DispatchEffectsStep | app/Classes/DispatchBatch.php:102-116 | one more pass of the loop appends the courier's strategy effects when it has a stack entry, and nothing otherwise |
| Batch.EveryStackDispatched | app/Classes/DispatchBatch.php:141-142 | since only courier keys get a stack entry, ending a batch dispatches every stacked reference exactly once |
| Batch.DispatchTrace | app/Classes/DispatchBatch.php:99-121 | the success logs of the loop are exactly the references with a stack entry whose courier's method is "email" or "ftp", once each, in collection order; no error is logged and no local file is left |
| Batch.RoyalMailNeverRedrawn | app/Classes/DispatchBatch.php:147-148 | a RoyalMail-shaped number is never an index key, so it is never re-drawn |
| Batch.AncRedrawnOnlyPastTenTrillion | app/Classes/DispatchBatch.php:147-148 | an ANC number (8-digit date without a leading zero, then six digits) is re-drawn only once more than 10^13 numbers are in the used list |
| Batch.UsedNumberNotRedrawn | app/Classes/DispatchBatch.php:147-159 | an issued number already in the used list passes the re-draw test |
| Batch.UnusedIndexRedrawn | app/Classes/DispatchBatch.php:147-148 | for any used list and any index i of it, the spelling of i is re-drawn even when no issued number equals it |

## Left out

- I/O is not modelled: `mail()`, `fopen`/`fwrite`/`fclose`, `@unlink`, the `ftp_*` calls and the `or die` at app/Classes/DispatchBatch.php:257. Only the file write, the file deletion and the log calls appear, as trace events.
- `date('Y-m-d')`, `date('Ymd')` and `rand()` are parameters: `today`, `draws` and `rolls`.
- The log classes (app/Classes/DispatchBatchLog.php, app/Classes/DispatchBatchTransportLog.php) are stubs that always return TRUE. Only their calls are recorded.
- The `logError` branches are not modelled. They can be reached only through `catch (Exception $e)`, which inside the namespace names a class that does not exist. The calls also pass three arguments to a four-parameter function.
- The undefined `$remote` and the rest of the upload branch sit behind `1===2` and are dead code.
- Missing credential keys are read as the empty string. PHP yields NULL with a warning, and NULL concatenates as "". The warning is not modelled.
- Courier names that PHP would turn into integer array keys ("123") are kept as strings. In the strict class such a key reaches the `string`-typed strategy methods as an int, and `strict_types` raises a TypeError. That failure is not modelled.
- Manager.DispatchBatchManager.constructor: `batchDate` is unset until the first start. The model starts it as "", which nothing reads before a start.
- Batch.DispatchBatch.GetConsignmentsSoFar: requires that a batch has been started once. Before that the PHP property is NULL, and `array_key_exists` on NULL fails.
- Batch.DispatchBatch.AddConsignment: requires that the generator eventually yields a candidate that passes the re-draw test. Otherwise the source loops forever.
- Batch.DrawConsignmentNumber: the same requirement; the generator's results are an oracle sequence, not a random source.
- No uniqueness of consignment numbers is claimed. The source's re-draw test does not compare against issued numbers; see the two counterexample lemmas.
- example-app.php is not part of this model. It is a demo script with a malformed credentials array and a constructor call that `Courier` does not have.
- Tests that contradict the code are not followed. They instantiate the abstract `Courier` with a closure, and they expect keys from a second argument ("RM") that `addCourier` ignores.
- There is no concurrency in the source.
