/**
 * The strings both dispatch variants build for a courier: the list of
 * consignment numbers one per CRLF-terminated line (email body and FTP file
 * contents), the email subject and headers, and the local batch file name.
 */
module Payload {
  import opened Couriers

  /** Each number followed by "\r\n", in order. */
  function NumberLines(numbers: seq<string>): string {
    if numbers == [] then "" else numbers[0] + "\r\n" + NumberLines(numbers[1..])
  }

  /** The accumulator loop `foreach (...) $body .= $number . "\r\n";` */
  method BuildNumberLines(numbers: seq<string>) returns (body: string)
    ensures body == NumberLines(numbers)
  {
    body := "";
    for i := 0 to |numbers|
      invariant body == NumberLines(numbers[..i])
    {
      NumberLinesSnoc(numbers[..i], numbers[i]);
      assert numbers[..i + 1] == numbers[..i] + [numbers[i]];
      body := body + numbers[i] + "\r\n";
    }
    assert numbers[..|numbers|] == numbers;
  }

  /** The position of the first "\r\n" in s, or |s| when there is none. */
  function LineEnd(s: string): (k: nat)
    ensures k <= |s|
    ensures k < |s| ==> k + 1 < |s| && s[k] == '\r' && s[k + 1] == '\n'
  {
    if |s| < 2 then |s|
    else if s[0] == '\r' && s[1] == '\n' then 0
    else 1 + LineEnd(s[1..])
  }

  /**
   * How a receiver reads a batch body back: the CRLF-terminated lines, and
   * an unterminated rest as a last line.
   */
  function SplitLines(s: string): seq<string>
    decreases |s|
  {
    if s == [] then []
    else
      var k := LineEnd(s);
      if k == |s| then [s] else [s[..k]] + SplitLines(s[k + 2..])
  }

  /** `"Batch " . $batchDate . " " . $courier->getName()` */
  function Subject(batchDate: string, name: string): string {
    "Batch " + batchDate + " " + name
  }

  /** `$tmpStorageFolder . "batch-" . $batchDate . ".txt"` */
  function LocalFileName(tmpFolder: string, batchDate: string): string {
    tmpFolder + "batch-" + batchDate + ".txt"
  }

  /**
   * `$transportCreds[$key]`: a missing key reads as NULL, which
   * concatenates as "".
   */
  function Credential(creds: map<string, string>, key: string): (c: string)
    ensures key in creds ==> c == creds[key]
    ensures key !in creds ==> c == ""
  {
    if key in creds then creds[key] else ""
  }

  /** The arguments the email strategy prepares for `mail()`. */
  datatype Email = Email(to: string, subject: string, body: string, headers: string)

  function EmailFor(batchDate: string, courier: Courier, numbers: seq<string>): Email {
    Email(
      Credential(courier.transportCredentials, "to"),
      Subject(batchDate, courier.name),
      NumberLines(numbers),
      "From: " + Credential(courier.transportCredentials, "from"))
  }

  // ---------------------------------------------------------------------------
  // Lemmas

  /** Appending a number appends its line. */
  lemma {:induction false} NumberLinesSnoc(numbers: seq<string>, n: string)
    ensures NumberLines(numbers + [n]) == NumberLines(numbers) + n + "\r\n"
  {
    if numbers != [] {
      assert (numbers + [n])[1..] == numbers[1..] + [n];
      NumberLinesSnoc(numbers[1..], n);
    }
  }

  /** A line without a carriage return ends at its own CRLF. */
  lemma {:induction false} LineEndAfter(n: string, rest: string)
    requires '\r' !in n
    ensures LineEnd(n + "\r\n" + rest) == |n|
  {
    var s := n + "\r\n" + rest;
    if n != [] {
      assert s[0] == n[0];
      assert s[1..] == n[1..] + "\r\n" + rest;
      LineEndAfter(n[1..], rest);
    }
  }

  /**
   * The batch body round-trips: a receiver splitting it at CRLF gets the
   * consignment numbers back, in order, as long as no number contains a
   * carriage return.
   */
  lemma {:induction false} SplitNumberLines(numbers: seq<string>)
    requires forall i :: 0 <= i < |numbers| ==> '\r' !in numbers[i]
    ensures SplitLines(NumberLines(numbers)) == numbers
  {
    if numbers != [] {
      var n, rest := numbers[0], NumberLines(numbers[1..]);
      var s := n + "\r\n" + rest;
      LineEndAfter(n, rest);
      assert s[..|n|] == n;
      assert s[|n| + 2..] == rest;
      SplitNumberLines(numbers[1..]);
    }
  }

  /** The body is empty exactly when there are no numbers; each number adds at least its two-character terminator. */
  lemma {:induction false} NumberLinesLength(numbers: seq<string>)
    ensures |NumberLines(numbers)| >= 2 * |numbers|
    ensures numbers == [] <==> NumberLines(numbers) == ""
  {
    if numbers != [] {
      NumberLinesLength(numbers[1..]);
    }
  }

  /** The subject names the batch date and the courier, and the name can be read back from it. */
  lemma SubjectParts(batchDate: string, name: string)
    ensures Subject(batchDate, name)[..6] == "Batch "
    ensures Subject(batchDate, name)[6..6 + |batchDate|] == batchDate
    ensures Subject(batchDate, name)[7 + |batchDate|..] == name
  {
    var s := Subject(batchDate, name);
    assert s == "Batch " + (batchDate + (" " + name));
  }

  /** On one batch date, distinct couriers get distinct subjects. */
  lemma SubjectInjective(batchDate: string, name1: string, name2: string)
    requires Subject(batchDate, name1) == Subject(batchDate, name2)
    ensures name1 == name2
  {
    SubjectParts(batchDate, name1);
    SubjectParts(batchDate, name2);
  }

  /**
   * The local file depends only on the folder and the date, so every FTP
   * courier of one batch writes the same file; distinct dates never share one.
   */
  lemma LocalFileNameInjective(tmpFolder: string, date1: string, date2: string)
    requires LocalFileName(tmpFolder, date1) == LocalFileName(tmpFolder, date2)
    ensures date1 == date2
  {
    var s1, s2 := LocalFileName(tmpFolder, date1), LocalFileName(tmpFolder, date2);
    var p := |tmpFolder| + 6;
    assert |date1| == |date2|;
    assert s1[p..p + |date1|] == date1;
    assert s2[p..p + |date2|] == date2;
  }
}
