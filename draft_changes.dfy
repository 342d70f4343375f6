/** The preview script (draft_changes_to_gads.py): builds the desired statuses
    from the warehouse and the current statuses from the ads account, both
    keyed by criterion id, and counts the keywords whose status would change.
    Criterion ids are strings on both sides (cast in the query, `str()` of the
    account's integer id). */
module DraftChanges {
  import opened Wrappers

  /** The dictionary a Python loop or comprehension builds from `(key, value)`
      pairs, writing them in order. */
  function LastWins<V>(pairs: seq<(string, V)>): map<string, V> {
    if pairs == [] then map[]
    else LastWins(pairs[..|pairs| - 1])[pairs[|pairs| - 1].0 := pairs[|pairs| - 1].1]
  }

  /** Every key written is present, and the value of a key is the last one
      written for it. */
  lemma {:induction false} LastWinsSpec<V>(pairs: seq<(string, V)>)
    ensures LastWins(pairs).Keys == set i | 0 <= i < |pairs| :: pairs[i].0
    ensures forall i | 0 <= i < |pairs| && (forall j | i < j < |pairs| :: pairs[j].0 != pairs[i].0) ::
              LastWins(pairs)[pairs[i].0] == pairs[i].1
  {
    if pairs != [] {
      var init := pairs[..|pairs| - 1];
      LastWinsSpec(init);
      assert forall i | 0 <= i < |init| :: init[i] == pairs[i];
    }
  }

  /** A row of the desired-status query. */
  datatype DesiredRow = DesiredRow(criterionId: string, status: string)

  /** A row of the account's keyword stream. */
  datatype AccountRow = AccountRow(criterionId: string, resourceName: string, status: string)

  /** The account-side value: `(resource_name, status.name)`. */
  datatype AccountKeyword = AccountKeyword(resourceName: string, currentStatus: string)

  /** The dict comprehension `{row.criterion_id: row.status for row in rows}`. */
  function DesiredStatuses(rows: seq<DesiredRow>): map<string, string> {
    LastWins(seq(|rows|, i requires 0 <= i < |rows| => (rows[i].criterionId, rows[i].status)))
  }

  /** A later row for the same criterion id replaces an earlier one. */
  lemma DesiredStatusesLastRowWins(rows: seq<DesiredRow>, i: int)
    requires 0 <= i < |rows|
    requires forall j | i < j < |rows| :: rows[j].criterionId != rows[i].criterionId
    ensures rows[i].criterionId in DesiredStatuses(rows)
    ensures DesiredStatuses(rows)[rows[i].criterionId] == rows[i].status
  {
    var pairs := seq(|rows|, k requires 0 <= k < |rows| => (rows[k].criterionId, rows[k].status));
    LastWinsSpec(pairs);
    assert pairs[i].0 == rows[i].criterionId;
    assert forall j | i < j < |pairs| :: pairs[j].0 != pairs[i].0;
  }

  function AccountPairs(rows: seq<AccountRow>): seq<(string, AccountKeyword)> {
    seq(|rows|, i requires 0 <= i < |rows| => (rows[i].criterionId, AccountKeyword(rows[i].resourceName, rows[i].status)))
  }

  /** The rows of every batch of the stream, in order. */
  function Flatten(batches: seq<seq<AccountRow>>): seq<AccountRow> {
    if batches == [] then [] else Flatten(batches[..|batches| - 1]) + batches[|batches| - 1]
  }

  /** Writing one more pair updates the map at its key. */
  lemma LastWinsAppend<V>(pairs: seq<(string, V)>, p: (string, V))
    ensures LastWins(pairs + [p]) == LastWins(pairs)[p.0 := p.1]
  {
    assert (pairs + [p])[..|pairs|] == pairs;
  }

  lemma AccountPairsAppend(rows: seq<AccountRow>, row: AccountRow)
    ensures AccountPairs(rows + [row]) == AccountPairs(rows) + [(row.criterionId, AccountKeyword(row.resourceName, row.status))]
  {
  }

  lemma FlattenAppend(batches: seq<seq<AccountRow>>, b: int)
    requires 0 <= b < |batches|
    ensures Flatten(batches[..b + 1]) == Flatten(batches[..b]) + batches[b]
  {
    assert batches[..b + 1][..b] == batches[..b];
  }

  /** The nested loops of `get_keywords_from_google_ads`, over the stream's
      batches and each batch's rows: the account map of all rows, the last
      row of an id winning. */
  method CollectAccountKeywords(batches: seq<seq<AccountRow>>) returns (accountKeywords: map<string, AccountKeyword>)
    ensures accountKeywords == LastWins(AccountPairs(Flatten(batches)))
  {
    accountKeywords := map[];
    var b := 0;
    while b < |batches|
      invariant 0 <= b <= |batches|
      invariant accountKeywords == LastWins(AccountPairs(Flatten(batches[..b])))
    {
      var batch := batches[b];
      var r := 0;
      assert Flatten(batches[..b]) + batch[..0] == Flatten(batches[..b]);
      while r < |batch|
        invariant 0 <= r <= |batch|
        invariant accountKeywords == LastWins(AccountPairs(Flatten(batches[..b]) + batch[..r]))
      {
        var row := batch[r];
        ghost var before := Flatten(batches[..b]) + batch[..r];
        assert Flatten(batches[..b]) + batch[..r + 1] == before + [row];
        AccountPairsAppend(before, row);
        LastWinsAppend(AccountPairs(before), (row.criterionId, AccountKeyword(row.resourceName, row.status)));
        accountKeywords := accountKeywords[row.criterionId := AccountKeyword(row.resourceName, row.status)];
        r := r + 1;
      }
      FlattenAppend(batches, b);
      assert batch[..r] == batch;
      b := b + 1;
    }
    assert batches[..b] == batches;
  }

  /** The ids whose desired status differs from the account's current one;
      ids missing from the account are not among them. */
  function PlannedChanges(desired: map<string, string>, account: map<string, AccountKeyword>): set<string> {
    set id | id in desired && id in account && desired[id] != account[id].currentStatus
  }

  function PlannedAmong(ids: set<string>, desired: map<string, string>, account: map<string, AccountKeyword>): set<string> {
    set id | id in ids && id in desired && id in account && desired[id] != account[id].currentStatus
  }

  /** Visiting one more id adds it to the counted set exactly when it is
      planned. */
  lemma PlannedAmongStep(ids: set<string>, x: string, desired: map<string, string>, account: map<string, AccountKeyword>)
    requires x in desired && x !in ids
    ensures PlannedAmong(ids + {x}, desired, account) ==
      PlannedAmong(ids, desired, account) + (if x in account && desired[x] != account[x].currentStatus then {x} else {})
    ensures x !in PlannedAmong(ids, desired, account)
    ensures |PlannedAmong(ids + {x}, desired, account)| ==
      |PlannedAmong(ids, desired, account)| + (if x in account && desired[x] != account[x].currentStatus then 1 else 0)
  {
    assert PlannedAmong(ids + {x}, desired, account) ==
      PlannedAmong(ids, desired, account) + (if x in account && desired[x] != account[x].currentStatus then {x} else {});
  }

  lemma PlannedAmongAllKeys(desired: map<string, string>, account: map<string, AccountKeyword>)
    ensures PlannedAmong(desired.Keys, desired, account) == PlannedChanges(desired, account)
  {
  }

  /** `report_on_planned_changes`: the number of ids present in both maps
      whose statuses differ. Neither map is changed. */
  method ReportOnPlannedChanges(desired: map<string, string>, account: map<string, AccountKeyword>)
    returns (updateCount: nat)
    ensures updateCount == |PlannedChanges(desired, account)|
  {
    updateCount := 0;
    var remaining := desired.Keys;
    ghost var visited: set<string> := {};
    while remaining != {}
      invariant remaining + visited == desired.Keys && remaining !! visited
      invariant updateCount == |PlannedAmong(visited, desired, account)|
      decreases remaining
    {
      var criterionId :| criterionId in remaining;
      var desiredStatus := desired[criterionId];
      PlannedAmongStep(visited, criterionId, desired, account);
      if criterionId in account {
        var currentStatus := account[criterionId].currentStatus;
        if desiredStatus != currentStatus {
          updateCount := updateCount + 1;
        }
      }
      remaining := remaining - {criterionId};
      visited := visited + {criterionId};
    }
    PlannedAmongAllKeys(desired, account);
  }

  /** The count never exceeds the number of desired keywords, and is zero
      exactly when every shared id already has its desired status. */
  lemma PlannedChangesBounds(desired: map<string, string>, account: map<string, AccountKeyword>)
    ensures |PlannedChanges(desired, account)| <= |desired|
    ensures |PlannedChanges(desired, account)| == 0 <==>
      forall id | id in desired && id in account :: desired[id] == account[id].currentStatus
  {
    var planned := PlannedChanges(desired, account);
    assert planned <= desired.Keys;
    SubsetCardinality(planned, desired.Keys);
    if forall id | id in desired && id in account :: desired[id] == account[id].currentStatus {
      assert planned == {};
    }
    if |planned| == 0 {
      assert planned == {};
      forall id | id in desired && id in account
        ensures desired[id] == account[id].currentStatus
      {
        assert id !in planned;
      }
    }
  }

  lemma {:induction false} SubsetCardinality(a: set<string>, b: set<string>)
    requires a <= b
    ensures |a| <= |b|
  {
    if a != {} {
      var x :| x in a;
      SubsetCardinality(a - {x}, b - {x});
    }
  }

  /** Ids of the desired map that the account lacks are never counted. */
  lemma MissingIdsNotCounted(desired: map<string, string>, account: map<string, AccountKeyword>, id: string)
    requires id in desired && id !in account
    ensures id !in PlannedChanges(desired, account)
  {
  }

  /** What `main` ends with. */
  datatype Preview = NoDesiredKeywords | NoAccountKeywords | InSync | ChangesNeeded(count: nat)

  /** `main`: an empty desired map or an empty account map ends the run before
      any comparison; otherwise the planned changes are counted. The account
      is never modified. A failing warehouse query exits the process and is not
      part of this model. */
  method PreviewChanges(desired: map<string, string>, account: map<string, AccountKeyword>) returns (preview: Preview)
    ensures desired == map[] ==> preview == NoDesiredKeywords
    ensures desired != map[] && account == map[] ==> preview == NoAccountKeywords
    ensures desired != map[] && account != map[] ==>
      (preview == InSync <==> PlannedChanges(desired, account) == {}) &&
      (preview.ChangesNeeded? ==> preview.count == |PlannedChanges(desired, account)| > 0)
    ensures desired != map[] && account != map[] && PlannedChanges(desired, account) != {} ==>
      preview == ChangesNeeded(|PlannedChanges(desired, account)|)
  {
    if desired == map[] {
      return NoDesiredKeywords;
    }
    if account == map[] {
      return NoAccountKeywords;
    }
    var totalChangesNeeded := ReportOnPlannedChanges(desired, account);
    if totalChangesNeeded == 0 {
      preview := InSync;
    } else {
      preview := ChangesNeeded(totalChangesNeeded);
    }
  }
}
