/** The dry-run copy of the cloud function
    (4_dry_run_making_changes_to_GoogleAds_account.py): the same operation
    loop, then a tally of enables and pauses in place of the mutate call. The
    model has no mutate call to make. */
module DryRun {
  import opened Wrappers
  import opened AdsOperations

  /** The number of operations setting `status`. */
  function CountStatus(ops: seq<Operation>, status: AdStatus): nat {
    if ops == [] then 0
    else CountStatus(ops[..|ops| - 1], status) + (if ops[|ops| - 1].status == status then 1 else 0)
  }

  /** Every operation enables or pauses: the two counts add up to the total. */
  lemma {:induction false} EnablesPlusPauses(ops: seq<Operation>)
    ensures CountStatus(ops, Enabled) + CountStatus(ops, Paused) == |ops|
  {
    if ops != [] {
      EnablesPlusPauses(ops[..|ops| - 1]);
    }
  }

  /** The number of changes whose upper-cased status is `name`. */
  function CountUpper(changes: seq<Change>, name: string): nat {
    if changes == [] then 0
    else CountUpper(changes[..|changes| - 1], name) + (if Upper(changes[|changes| - 1].status) == name then 1 else 0)
  }

  /** The enable count is the number of rows asking for ENABLED, the pause
      count the number asking for PAUSED, whatever their case. */
  lemma {:induction false} TallyMatchesRows(customerId: string, changes: seq<Change>)
    ensures CountStatus(Operations(customerId, changes), Enabled) == CountUpper(changes, "ENABLED")
    ensures CountStatus(Operations(customerId, changes), Paused) == CountUpper(changes, "PAUSED")
  {
    if changes != [] {
      var init := changes[..|changes| - 1];
      var last := changes[|changes| - 1];
      TallyMatchesRows(customerId, init);
      var ops0 := Operations(customerId, init);
      var ops := Operations(customerId, changes);
      if ParseStatus(last.status).Some? {
        assert ops[..|ops| - 1] == ops0;
      } else {
        assert ops == ops0;
      }
    }
  }

  /** `enables = sum(1 for op ... if status == ENABLED)` and
      `pauses = len(mutate_operations) - enables`. */
  method TallyStatuses(mutateOperations: seq<Operation>) returns (enables: nat, pauses: nat)
    ensures enables == CountStatus(mutateOperations, Enabled)
    ensures pauses == CountStatus(mutateOperations, Paused)
  {
    enables := 0;
    var n := 0;
    while n < |mutateOperations|
      invariant 0 <= n <= |mutateOperations|
      invariant enables == CountStatus(mutateOperations[..n], Enabled)
    {
      assert mutateOperations[..n + 1][..n] == mutateOperations[..n];
      if mutateOperations[n].status == Enabled {
        enables := enables + 1;
      }
      n := n + 1;
    }
    assert mutateOperations[..n] == mutateOperations;
    EnablesPlusPauses(mutateOperations);
    pauses := |mutateOperations| - enables;
  }

  /** How the dry run ends. */
  datatype DryRunReport =
    | NoKeywords
    | NothingPrepared
    | Prepared(operations: seq<Operation>, enables: nat, pauses: nat)

  /** `update_google_ads_keywords` of the dry run once the client is built:
      an empty row list exits before any operation is built; otherwise the
      operations are built and, when there are some, tallied. */
  method UpdateGoogleAdsKeywords(customerId: string, keywordsToUpdate: seq<Change>) returns (report: DryRunReport)
    ensures keywordsToUpdate == [] ==> report == NoKeywords
    ensures keywordsToUpdate != [] && Operations(customerId, keywordsToUpdate) == [] ==> report == NothingPrepared
    ensures keywordsToUpdate != [] && Operations(customerId, keywordsToUpdate) != [] ==> report.Prepared?
    ensures report.Prepared? ==>
      && report.operations == Operations(customerId, keywordsToUpdate) != []
      && report.enables == CountUpper(keywordsToUpdate, "ENABLED")
      && report.pauses == CountUpper(keywordsToUpdate, "PAUSED")
      && report.enables + report.pauses == |report.operations| <= |keywordsToUpdate|
  {
    if keywordsToUpdate == [] {
      return NoKeywords;
    }
    var mutateOperations := BuildMutateOperations(customerId, keywordsToUpdate);
    if mutateOperations == [] {
      return NothingPrepared;
    }
    var enables, pauses := TallyStatuses(mutateOperations);
    TallyMatchesRows(customerId, keywordsToUpdate);
    EnablesPlusPauses(mutateOperations);
    OperationsCount(customerId, keywordsToUpdate);
    report := Prepared(mutateOperations, enables, pauses);
  }
}
