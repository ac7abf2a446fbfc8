/**
 * Consignment: a courier reference and a consignment number, both fixed at
 * construction (the fields are the two getters). Nothing checks the
 * reference against a courier collection.
 */
module Consignments {

  datatype Consignment = Consignment(courierRef: string, consignmentNumber: string)

  /** The numbers of a stack of consignments, in stack order. */
  function Numbers(stack: seq<Consignment>): (ns: seq<string>)
    ensures |ns| == |stack|
    ensures forall i :: 0 <= i < |stack| ==> ns[i] == stack[i].consignmentNumber
  {
    if stack == [] then [] else [stack[0].consignmentNumber] + Numbers(stack[1..])
  }
}
