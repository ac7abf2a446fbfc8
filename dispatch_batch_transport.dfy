/**
 * DispatchBatchTransport: sends one courier's stack of consignments by the
 * courier's transport method. The date, courier and stack are fixed at
 * construction (`send` never reassigns them); the strategies' outside
 * effects go to an EffectLog.
 */
module Transport {
  import opened Couriers
  import opened Consignments
  import opened Payload
  import opened Effects

  /**
   * The temporary folder literal "\tmp": in a PHP double-quoted string "\t"
   * is a TAB, so the folder is TAB followed by "mp".
   */
  const TmpStorageFolder: string := "\tmp"

  /** The effects of `send` for this date, courier and stack. */
  function SendEffects(batchDate: string, courier: Courier, stack: seq<Consignment>): seq<Effect<Consignment>> {
    StrategyEffects(courier.name, batchDate, courier.transportMethod, stack,
                    LocalFileName(TmpStorageFolder, batchDate), NumberLines(Numbers(stack)))
  }

  /** The accumulator loop over the stack: each consignment number and "\r\n". */
  method BuildConsignmentLines(stack: seq<Consignment>) returns (lines: string)
    ensures lines == NumberLines(Numbers(stack))
  {
    lines := "";
    for i := 0 to |stack|
      invariant lines == NumberLines(Numbers(stack[..i]))
    {
      assert Numbers(stack[..i + 1]) == Numbers(stack[..i]) + [stack[i].consignmentNumber];
      NumberLinesSnoc(Numbers(stack[..i]), stack[i].consignmentNumber);
      lines := lines + stack[i].consignmentNumber + "\r\n";
    }
    assert stack[..|stack|] == stack;
  }

  class DispatchBatchTransport {
    const batchDate: string
    const courier: Courier
    const consignmentStack: seq<Consignment>
    const tmpStorageFolder: string := TmpStorageFolder

    constructor (batchDate: string, courier: Courier, consignmentStack: seq<Consignment>)
      ensures this.batchDate == batchDate
      ensures this.courier == courier
      ensures this.consignmentStack == consignmentStack
      ensures tmpStorageFolder == TmpStorageFolder == ['\t', 'm', 'p']
    {
      this.batchDate := batchDate;
      this.courier := courier;
      this.consignmentStack := consignmentStack;
    }

    /** Runs the email strategy for "email", the FTP one for "ftp", nothing otherwise. */
    method Send(log: EffectLog<Consignment>)
      modifies log
      ensures log.events == old(log.events) + SendEffects(batchDate, courier, consignmentStack)
    {
      match courier.transportMethod
      case "email" =>
        TransportConsignmentNosEmail(log);
      case "ftp" =>
        TransportConsignmentNosFtp(log);
      case _ =>
    }

    /** The recipient, subject, body and headers the email strategy prepares. */
    method ComposeEmail() returns (mail: Email)
      ensures mail == EmailFor(batchDate, courier, Numbers(consignmentStack))
    {
      var transportCreds := courier.transportCredentials;
      var to := Credential(transportCreds, "to");
      var subject := "Batch " + batchDate + " " + courier.name;
      var consignmentBody := BuildConsignmentLines(consignmentStack);
      var headers := "From: " + Credential(transportCreds, "from");
      mail := Email(to, subject, consignmentBody, headers);
    }

    /** The local file name and contents the FTP strategy writes. */
    method ComposeBatchFile() returns (localFile: string, contents: string)
      ensures localFile == LocalFileName(tmpStorageFolder, batchDate)
      ensures contents == NumberLines(Numbers(consignmentStack))
    {
      contents := BuildConsignmentLines(consignmentStack);
      localFile := tmpStorageFolder + "batch-" + batchDate + ".txt";
    }

    /** As written `mail()` is commented out, so the strategy always logs success. */
    method TransportConsignmentNosEmail(log: EffectLog<Consignment>)
      modifies log
      ensures log.events == old(log.events) + EmailEffects(courier.name, batchDate, consignmentStack)
    {
      var mail := ComposeEmail();
      log.events := log.events + [LogSuccess(courier.name, batchDate, "email", consignmentStack)];
    }

    /**
     * As written the upload is disabled, so `$ftpSuccess` stays TRUE: the
     * file is written, unlinked, and success is logged.
     */
    method TransportConsignmentNosFtp(log: EffectLog<Consignment>)
      modifies log
      ensures log.events == old(log.events)
        + FtpEffects(courier.name, batchDate, consignmentStack,
                     LocalFileName(tmpStorageFolder, batchDate), NumberLines(Numbers(consignmentStack)))
    {
      var localFile, contents := ComposeBatchFile();
      log.events := log.events + [FileWritten(localFile, contents)];
      log.events := log.events + [FileDeleted(localFile)];
      log.events := log.events + [LogSuccess(courier.name, batchDate, "ftp", consignmentStack)];
    }
  }

  // ---------------------------------------------------------------------------
  // Lemmas

  /**
   * The FTP file carries exactly the email body, and a receiver reading
   * either back line by line recovers the consignment numbers in stack order.
   */
  lemma {:induction false} PayloadListsNumbers(batchDate: string, courier: Courier, stack: seq<Consignment>)
    requires forall i :: 0 <= i < |stack| ==> '\r' !in stack[i].consignmentNumber
    ensures SplitLines(EmailFor(batchDate, courier, Numbers(stack)).body) == Numbers(stack)
    ensures courier.transportMethod == "ftp" ==>
      SendEffects(batchDate, courier, stack)[0]
        == FileWritten(LocalFileName(TmpStorageFolder, batchDate), EmailFor(batchDate, courier, Numbers(stack)).body)
  {
    SplitNumberLines(Numbers(stack));
  }

  /**
   * A send for "email" or "ftp" ends in a success log for the courier's
   * name, the date, the method and the whole stack; any other method does
   * nothing; no send leaves the local file behind.
   */
  lemma SendOutcome(batchDate: string, courier: Courier, stack: seq<Consignment>)
    ensures var ev := SendEffects(batchDate, courier, stack);
      && (ev == [] <==> !IsSupportedMethod(courier.transportMethod))
      && (ev != [] ==> ev[|ev| - 1] == LogSuccess(courier.name, batchDate, courier.transportMethod, stack))
      && FilesAfter({}, ev) == {}
  {
    var file, body := LocalFileName(TmpStorageFolder, batchDate), NumberLines(Numbers(stack));
    StrategyOutcome(courier.name, batchDate, courier.transportMethod, stack, file, body);
    StrategyCleansUp({}, courier.name, batchDate, courier.transportMethod, stack, file, body);
  }
}
