/**
 * The unit tests' scenarios, replayed against the model's contracts with
 * concrete couriers, consignments and generator results.
 */
module Scenarios {
  import opened Wrappers
  import opened OrderedMap
  import opened Couriers
  import opened Consignments
  import opened Effects
  import opened Collection
  import opened Manager
  import opened Batch

  const RoyalMail: Courier := Courier("Royal Mail", "email", map[])
  const Anc: Courier := Courier("ANC", "email", map[])

  /** Adding two couriers gives two; adding each twice still gives two. */
  method CollectionAddAndDuplicates() {
    var col := new CourierCollection();
    col.AddCourier(RoyalMail);
    assert col.couriers == [Entry("Royal Mail", RoyalMail)];
    col.AddCourier(RoyalMail);
    assert col.couriers[1..] == [] && "Royal Mail" != "ANC";
    assert !HasKey(col.couriers, "ANC");
    col.AddCourier(Anc);
    assert col.couriers == [Entry("Royal Mail", RoyalMail), Entry("ANC", Anc)];
    assert col.couriers[1..][0].key == "ANC" && HasKey(col.couriers[1..], "ANC");
    assert HasKey(col.couriers, "ANC");
    col.AddCourier(Anc);
    var all := col.GetAllCouriers();
    assert all == [Entry("Royal Mail", RoyalMail), Entry("ANC", Anc)];
    assert |all| == 2;
  }

  /** Deleting a courier makes its lookup return NULL. */
  method CollectionDelete() {
    var col := new CourierCollection();
    col.AddCourier(RoyalMail);
    col.DeleteCourier("Royal Mail");
    assert col.GetCourier("Royal Mail") == None;
  }

  /** Six interleaved consignments accumulate per courier in call order. */
  method ManagerAddConsignments() {
    var col := new CourierCollection();
    col.AddCourier(RoyalMail);
    col.AddCourier(Anc);
    var manager := new DispatchBatchManager(col);
    manager.StartBatch("2020-10-18");
    AddSixConsignments(manager);
  }

  method AddSixConsignments(manager: DispatchBatchManager)
    requires manager.Valid() && manager.batchStarted && manager.consignmentStack == map[]
    modifies manager
  {
    var c1 := Consignment("Royal Mail", "1234567890-GB");
    var c2 := Consignment("ANC", "20201018123456");
    var c3 := Consignment("ANC", "20201018654321");
    var c4 := Consignment("Royal Mail", "2234567890-GB");
    var c5 := Consignment("Royal Mail", "3234567890-GB");
    var c6 := Consignment("Royal Mail", "4234567890-GB");
    manager.AddConsignment(c1);
    manager.AddConsignment(c2);
    manager.AddConsignment(c3);
    assert manager.GetConsignmentsSoFar("Royal Mail") == [c1];
    assert manager.GetConsignmentsSoFar("ANC") == [c2, c3];
    manager.AddConsignment(c4);
    manager.AddConsignment(c5);
    manager.AddConsignment(c6);
    assert manager.GetConsignmentsSoFar("Royal Mail") == [c1, c4, c5, c6];
    assert manager.GetConsignmentsSoFar("ANC") == [c2, c3];
  }

  /** Without a start, adding does nothing; a double start keeps the empty stack. */
  method ManagerNotStartedAndDoubleStart() {
    var col := new CourierCollection();
    col.AddCourier(RoyalMail);
    var manager := new DispatchBatchManager(col);
    manager.AddConsignment(Consignment("Royal Mail", "1234567890-GB"));
    assert manager.GetConsignmentsSoFar("Royal Mail") == [];
    manager.StartBatch("2020-10-18");
    manager.StartBatch("2020-10-19");
    assert manager.batchDate == "2020-10-18";
    assert manager.GetConsignmentsSoFar("Royal Mail") == [];
  }

  /** start, add, end, start: the new batch has an empty stack; the end logged one success. */
  method ManagerStartAndEnd() {
    var col := new CourierCollection();
    col.AddCourier(RoyalMail);
    var manager := new DispatchBatchManager(col);
    manager.StartBatch("2020-10-18");
    var c := Consignment("Royal Mail", "1234567890-GB");
    manager.AddConsignment(c);
    var log := new EffectLog<Consignment>();
    ghost var dispatched := manager.EndBatch(log);
    assert [Entry("Royal Mail", RoyalMail)][..0] == [];
    assert dispatched == [Entry("Royal Mail", RoyalMail)];
    assert log.events == [LogSuccess("Royal Mail", "2020-10-18", "email", [c])];
    manager.StartBatch("2020-10-19");
    assert manager.GetConsignmentsSoFar("Royal Mail") == [];
  }

  /** The strict batch's two error strings, and a successful add. */
  method StrictBatchErrors() {
    var col := new CourierCollection();
    col.AddCourier(RoyalMail);
    var batch := new DispatchBatch(col, "tmp/");
    var r := batch.AddConsignment("Royal Mail", []);
    assert r == NotStartedError;
    batch.StartBatch("2020-10-18");
    assert batch.couriers == [Entry("Royal Mail", RoyalMail)];
    assert batch.couriers[1..] == [] && "Royal Mail" != "ANC";
    assert !HasKey(batch.couriers, "ANC");
    r := batch.AddConsignment("ANC", []);
    assert r == UnknownCourierError;
    var draws := ["1234567890-GB"];
    RoyalMailNeverRedrawn(draws[0], 0);
    r := batch.AddConsignment("Royal Mail", draws);
    assert r == "1234567890-GB";
    assert batch.GetConsignmentsSoFar("Royal Mail") == ["1234567890-GB"];
    assert batch.usedConsignmentNumbers == ["1234567890-GB"];
  }
}
