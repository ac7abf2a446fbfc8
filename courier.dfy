/**
 * Courier: a name, a transport method and transport credentials, all fixed
 * at construction (the datatype's fields are the three getters). The
 * consignment-number algorithm is abstract in the source; each concrete
 * courier supplies one. The two algorithms the tests define are modelled
 * below with the values of `rand` passed in as oracles.
 */
module Couriers {
  import opened Php

  /**
   * A Courier as constructed: `getName`, `getTransportMethod` and
   * `getTransportCredentials` are the fields. The method string is not
   * validated; credentials are the PHP array as given.
   */
  datatype Courier = Courier(
    name: string,
    transportMethod: string,
    transportCredentials: map<string, string>)

  /** One digit 1-9, nine digits 0-9, then "-GB". */
  predicate IsRoyalMailNumber(n: string) {
    && |n| == 13
    && '1' <= n[0] <= '9'
    && (forall i :: 1 <= i < 10 ==> IsDigit(n[i]))
    && n[10..] == "-GB"
  }

  /**
   * The RoyalMail test courier's algorithm. `rolls[0]` is the result of
   * `rand(1,9)` and `rolls[1..]` the nine results of `rand(0,9)`.
   */
  method RoyalMailConsignmentNumber(rolls: seq<int>) returns (number: string)
    requires |rolls| == 10
    requires 1 <= rolls[0] <= 9
    requires forall i :: 1 <= i < 10 ==> 0 <= rolls[i] <= 9
    ensures IsRoyalMailNumber(number)
    ensures forall i :: 0 <= i < 10 ==> number[i] as int - '0' as int == rolls[i]
  {
    number := [DigitChar(rolls[0])];
    for i := 0 to 9
      invariant |number| == i + 1
      invariant forall j :: 0 <= j <= i ==> number[j] == DigitChar(rolls[j])
    {
      number := number + [DigitChar(rolls[i + 1])];
    }
    number := number + "-GB";
  }

  /**
   * The ANC test courier's algorithm: `date('Ymd')` (passed in as `today`)
   * followed by six results of `rand(0,9)`.
   */
  method AncConsignmentNumber(today: string, rolls: seq<int>) returns (number: string)
    requires |rolls| == 6
    requires forall i :: 0 <= i < 6 ==> 0 <= rolls[i] <= 9
    ensures |number| == |today| + 6
    ensures number[..|today|] == today
    ensures forall i :: |today| <= i < |number| ==> IsDigit(number[i])
    ensures forall i :: 0 <= i < 6 ==> number[|today| + i] as int - '0' as int == rolls[i]
  {
    number := today;
    for i := 0 to 6
      invariant |number| == |today| + i
      invariant number[..|today|] == today
      invariant forall j :: |today| <= j < |number| ==> IsDigit(number[j])
      invariant forall j :: 0 <= j < i ==> number[|today| + j] == DigitChar(rolls[j])
    {
      number := number + [DigitChar(rolls[i])];
    }
  }
}
