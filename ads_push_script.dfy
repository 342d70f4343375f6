/** The older push script (changes_to_gads.py): the same per-customer
    operation loop without history rows, gated by the `DRY_RUN` switch (a
    module constant set to True in the script, a parameter here). Every
    exception of a push is caught and printed, so the mutate call's answer
    changes nothing the model records. */
module AdsPushScript {
  import opened Wrappers
  import opened AdsOperations

  /** What one customer's push did. */
  datatype ScriptPush = ScriptPush(customerId: string, operations: seq<Operation>, mutateCalled: bool)

  /** `update_keyword_statuses_in_google_ads`: one operation per row with a
      valid status; no mutate call when there is none or in a dry run. */
  method UpdateKeywordStatusesInGoogleAds(customerId: string, rows: seq<StatusRow>, dryRun: bool)
    returns (operations: seq<Operation>, mutateCalled: bool)
    ensures operations == Operations(customerId, Changes(rows))
    ensures mutateCalled <==> operations != [] && !dryRun
  {
    operations := [];
    mutateCalled := false;
    var n := 0;
    while n < |rows|
      invariant 0 <= n <= |rows|
      invariant operations == Operations(customerId, Changes(rows[..n]))
    {
      var row := rows[n];
      ChangesPrefix(rows, n);
      var newStatusStr := Upper(row.status);
      var status;
      if newStatusStr == "ENABLED" {
        status := Enabled;
      } else if newStatusStr == "PAUSED" {
        status := Paused;
      } else {
        n := n + 1;
        continue;
      }
      operations := operations + [Operation(customerId, row.adGroupId, row.criterionId, status)];
      n := n + 1;
    }
    assert rows[..n] == rows;
    if operations == [] {
      return;
    }
    if !dryRun {
      mutateCalled := true;
    }
  }

  /** The push of one customer's rows: its operations, and a mutate call
      when there are some and it is not a dry run. */
  function ExpectedPush(customerId: string, rows: seq<StatusRow>, dryRun: bool): ScriptPush {
    var ops := Operations(customerId, Changes(rows));
    ScriptPush(customerId, ops, ops != [] && !dryRun)
  }

  /** The push of the group of raw customer id `key`, under its normalised id. */
  function GroupPush(key: string, rows: seq<StatusRow>, dryRun: bool): ScriptPush {
    ExpectedPush(StripDashes(key), Group(rows, key), dryRun)
  }

  /** The pushes of the customer groups `keys`, in order. */
  function GroupPushes(keys: seq<string>, rows: seq<StatusRow>, dryRun: bool): seq<ScriptPush> {
    if keys == [] then []
    else GroupPushes(keys[..|keys| - 1], rows, dryRun) + [GroupPush(keys[|keys| - 1], rows, dryRun)]
  }

  lemma {:induction false} GroupPushesIndex(keys: seq<string>, rows: seq<StatusRow>, dryRun: bool)
    ensures var pushes := GroupPushes(keys, rows, dryRun);
      && |pushes| == |keys|
      && forall j | 0 <= j < |keys| :: pushes[j] == GroupPush(keys[j], rows, dryRun)
    decreases |keys|
  {
    if keys != [] {
      var init := keys[..|keys| - 1];
      GroupPushesIndex(init, rows, dryRun);
      var pushes := GroupPushes(keys, rows, dryRun);
      assert pushes == GroupPushes(init, rows, dryRun) + [GroupPush(keys[|keys| - 1], rows, dryRun)];
      forall j | 0 <= j < |keys|
        ensures pushes[j] == GroupPush(keys[j], rows, dryRun)
      {
        if j < |init| {
          assert keys[j] == init[j];
        }
      }
    }
  }

  /** `main` once the configuration is loaded: nothing happens when the query
      fails or returns no rows; otherwise each customer group is pushed, on
      its own, under its id with every `-` removed. */
  method RunScript(source: Option<seq<StatusRow>>, dryRun: bool) returns (pushes: seq<ScriptPush>)
    ensures source.None? || source == Some([]) ==> pushes == []
    ensures source.Some? ==>
      var keys := CustomerKeys(source.value);
      && |pushes| == |keys|
      && forall j | 0 <= j < |keys| ::
           pushes[j] == GroupPush(keys[j], source.value, dryRun)
  {
    pushes := [];
    if source.None? || source.value == [] {
      return;
    }
    var keys := CustomerKeys(source.value);
    pushes := PushGroups(source.value, keys, dryRun);
    GroupPushesIndex(keys, source.value, dryRun);
  }

  /** The loop of `main` over the customer groups `keys` of `keywordsDf`. */
  method PushGroups(keywordsDf: seq<StatusRow>, keys: seq<string>, dryRun: bool) returns (pushes: seq<ScriptPush>)
    ensures pushes == GroupPushes(keys, keywordsDf, dryRun)
  {
    pushes := [];
    var j := 0;
    while j < |keys|
      invariant 0 <= j <= |keys|
      invariant pushes == GroupPushes(keys[..j], keywordsDf, dryRun)
    {
      var customerIdStr := StripDashes(keys[j]);
      var operations, mutateCalled := UpdateKeywordStatusesInGoogleAds(customerIdStr, Group(keywordsDf, keys[j]), dryRun);
      assert keys[..j + 1][..j] == keys[..j];
      pushes := pushes + [ScriptPush(customerIdStr, operations, mutateCalled)];
      j := j + 1;
    }
    assert keys[..j] == keys;
  }

  /** Across all customer groups, the operations number exactly the valid
      rows: grouping loses and duplicates no row. */
  lemma {:induction false} OperationsAcrossGroups(rows: seq<StatusRow>, keys: seq<string>)
    requires Distinct(keys)
    requires forall i | 0 <= i < |rows| :: rows[i].customerId in keys
    ensures TotalOperations(rows, keys) == ValidCount(Changes(rows))
  {
    if rows == [] {
      TotalOperationsOfNothing(keys);
    } else {
      var init := rows[..|rows| - 1];
      var last := rows[|rows| - 1];
      assert forall i | 0 <= i < |init| :: init[i] == rows[i];
      OperationsAcrossGroups(init, keys);
      TotalOperationsAppend(init, last, keys);
      OccursOnce(keys, last.customerId);
      assert init + [last] == rows;
      ValidCountAppend(init, last);
    }
  }

  /** The number of valid rows in each key's group, summed over the keys. */
  function TotalOperations(rows: seq<StatusRow>, keys: seq<string>): nat {
    if keys == [] then 0 else ValidCount(Changes(Group(rows, keys[0]))) + TotalOperations(rows, keys[1..])
  }

  lemma {:induction false} TotalOperationsOfNothing(keys: seq<string>)
    ensures TotalOperations([], keys) == 0
  {
    if keys != [] {
      TotalOperationsOfNothing(keys[1..]);
      assert Changes([]) == [];
    }
  }

  lemma {:induction false} TotalOperationsAppend(rows: seq<StatusRow>, r: StatusRow, keys: seq<string>)
    ensures TotalOperations(rows + [r], keys) ==
      TotalOperations(rows, keys) + Occurrences(keys, r.customerId) * (if ParseStatus(r.status).Some? then 1 else 0)
  {
    if keys != [] {
      TotalOperationsAppend(rows, r, keys[1..]);
      var g := Group(rows, keys[0]);
      assert (rows + [r])[..|rows + [r]| - 1] == rows;
      if r.customerId == keys[0] {
        assert Group(rows + [r], keys[0]) == g + [r];
        ValidCountAppend(g, r);
      } else {
        assert Group(rows + [r], keys[0]) == g;
      }
    }
  }
}
