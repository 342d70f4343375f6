/** The push service (changes_to_gads/main.py): per customer, prepares one
    operation and one history row per row with a valid status, then tags all
    history rows with the outcome of the run (dry run, success, or the ads
    API's exception) and logs them. Timestamps are left out of the history
    rows; the invocation id is given. */
module AdsPushService {
  import opened Wrappers
  import opened AdsOperations

  datatype Outcome = Info | Success | Failure

  /** One history record; `outcome` and `details` start unset. */
  datatype HistoryRow = HistoryRow(
    invocationId: string,
    customerId: string,
    adGroupId: string,
    criterionId: string,
    keywordText: string,
    previousStatus: string,
    newStatus: string,
    action: string,
    outcome: Option<Outcome>,
    changeReason: string,
    details: Option<string>)

  /** The history record built for a row before its status is checked. */
  function PendingHistoryRow(invocationId: string, customerId: string, row: StatusRow): HistoryRow {
    HistoryRow(invocationId, customerId, row.adGroupId, row.criterionId, row.keyword,
               row.status, Upper(row.status), "STATUS_UPDATE", None, row.changeReason.GetOr("N/A"), None)
  }

  /** The history records kept: those of the rows with a valid status, in order. */
  function HistoryRows(invocationId: string, customerId: string, rows: seq<StatusRow>): seq<HistoryRow> {
    if rows == [] then []
    else
      var last := rows[|rows| - 1];
      HistoryRows(invocationId, customerId, rows[..|rows| - 1]) +
        (if ParseStatus(last.status).Some? then [PendingHistoryRow(invocationId, customerId, last)] else [])
  }

  /** History rows stay parallel to the operations: same length, and the i-th
      history row records the i-th operation's ids and status, with the raw
      status as the previous one. */
  lemma {:induction false} HistoryAlignedWithOperations(invocationId: string, customerId: string, rows: seq<StatusRow>)
    ensures var ops := Operations(customerId, Changes(rows));
            var history := HistoryRows(invocationId, customerId, rows);
            && |history| == |ops|
            && forall i | 0 <= i < |ops| ::
                 && history[i].customerId == ops[i].customerId
                 && history[i].adGroupId == ops[i].adGroupId
                 && history[i].criterionId == ops[i].criterionId
                 && history[i].newStatus == StatusName(ops[i].status) == Upper(history[i].previousStatus)
                 && history[i].outcome.None? && history[i].details.None?
  {
    if rows != [] {
      var n := |rows| - 1;
      HistoryAlignedWithOperations(invocationId, customerId, rows[..n]);
      ChangesPrefix(rows, n);
      assert rows[..n + 1] == rows;
    }
  }

  /** The loop of `update_keyword_statuses_in_google_ads`: the operation and
      the history row of a row are appended together, or the row is skipped. */
  method PrepareOperations(customerId: string, rows: seq<StatusRow>, invocationId: string)
    returns (preparedOperations: seq<Operation>, historyRowsToLog: seq<HistoryRow>)
    ensures preparedOperations == Operations(customerId, Changes(rows))
    ensures historyRowsToLog == HistoryRows(invocationId, customerId, rows)
  {
    preparedOperations, historyRowsToLog := [], [];
    var n := 0;
    while n < |rows|
      invariant 0 <= n <= |rows|
      invariant preparedOperations == Operations(customerId, Changes(rows[..n]))
      invariant historyRowsToLog == HistoryRows(invocationId, customerId, rows[..n])
    {
      var row := rows[n];
      ChangesPrefix(rows, n);
      assert rows[..n + 1][..n] == rows[..n];
      var historyLog := PendingHistoryRow(invocationId, customerId, row);
      var newStatusStr := Upper(row.status);
      var status;
      if newStatusStr == "ENABLED" {
        status := Enabled;
      } else if newStatusStr == "PAUSED" {
        status := Paused;
      } else {
        n := n + 1;
        continue;
      }
      preparedOperations := preparedOperations + [Operation(customerId, row.adGroupId, row.criterionId, status)];
      historyRowsToLog := historyRowsToLog + [historyLog];
      n := n + 1;
    }
    assert rows[..n] == rows;
  }

  /** Every history row with its outcome and details set. */
  function Tagged(history: seq<HistoryRow>, outcome: Outcome, details: string): seq<HistoryRow> {
    seq(|history|, i requires 0 <= i < |history| => history[i].(outcome := Some(outcome), details := Some(details)))
  }

  /** The loops that set `outcome` and `details` on each history row in place. */
  method TagHistoryRows(history: seq<HistoryRow>, outcome: Outcome, details: string) returns (tagged: seq<HistoryRow>)
    ensures tagged == Tagged(history, outcome, details)
  {
    tagged := history;
    var n := 0;
    while n < |tagged|
      invariant 0 <= n <= |tagged| == |history|
      invariant forall i | 0 <= i < n :: tagged[i] == history[i].(outcome := Some(outcome), details := Some(details))
      invariant forall i | n <= i < |tagged| :: tagged[i] == history[i]
    {
      tagged := tagged[n := tagged[n].(outcome := Some(outcome), details := Some(details))];
      n := n + 1;
    }
  }

  /** What the ads API's mutate call does for a customer: succeed, or raise
      its exception with error messages and a request id. */
  datatype MutateResult = MutateOk | AdsException(messages: seq<string>, requestId: string)

  /** `", ".join(parts)`. */
  function Join(parts: seq<string>, separator: string): string {
    if parts == [] then ""
    else if |parts| == 1 then parts[0]
    else parts[0] + separator + Join(parts[1..], separator)
  }

  /** The outcome and details every history row of a run receives. */
  function Verdict(dryRun: bool, mutate: MutateResult): (Outcome, string) {
    if dryRun then (Info, "Dry run, no changes made.")
    else match mutate
      case MutateOk => (Success, "Keyword status updated successfully.")
      case AdsException(messages, requestId) =>
        (Failure, "GoogleAdsException: " + Join(messages, ", ") + " | Request ID: " + requestId)
  }

  /** What one customer's push did: the operations prepared, whether the
      mutate call was made, and the history rows passed to the log. */
  datatype PushResult = PushResult(operations: seq<Operation>, mutateCalled: bool, logged: seq<HistoryRow>)

  /** The push of one customer's rows: nothing when no row is valid;
      otherwise the operations, a mutate call unless it is a dry run, and the
      history rows tagged with the verdict. */
  function ExpectedPush(customerId: string, rows: seq<StatusRow>, invocationId: string, dryRun: bool, mutate: MutateResult): PushResult {
    var ops := Operations(customerId, Changes(rows));
    if ops == [] then PushResult([], false, [])
    else
      var verdict := Verdict(dryRun, mutate);
      PushResult(ops, !dryRun, Tagged(HistoryRows(invocationId, customerId, rows), verdict.0, verdict.1))
  }

  /** `update_keyword_statuses_in_google_ads`. */
  method UpdateKeywordStatusesInGoogleAds(customerId: string, rows: seq<StatusRow>, invocationId: string, dryRun: bool, mutate: MutateResult)
    returns (result: PushResult)
    ensures result == ExpectedPush(customerId, rows, invocationId, dryRun, mutate)
  {
    var preparedOperations, historyRowsToLog := PrepareOperations(customerId, rows, invocationId);
    if preparedOperations == [] {
      return PushResult([], false, []);
    }
    var mutateCalled := false;
    if dryRun {
      historyRowsToLog := TagHistoryRows(historyRowsToLog, Info, "Dry run, no changes made.");
    } else {
      mutateCalled := true;
      match mutate
      case MutateOk =>
        historyRowsToLog := TagHistoryRows(historyRowsToLog, Success, "Keyword status updated successfully.");
      case AdsException(messages, requestId) =>
        var errorDetails := Join(messages, ", ");
        historyRowsToLog := TagHistoryRows(historyRowsToLog, Failure,
          "GoogleAdsException: " + errorDetails + " | Request ID: " + requestId);
    }
    result := PushResult(preparedOperations, mutateCalled, historyRowsToLog);
  }

  /** What a push promises: no mutate call and nothing logged without a valid
      row; one logged row per operation; in a dry run every row is INFO and no
      mutate call is made; in live mode every row is SUCCESS, or every row is
      FAILURE carrying the joined error messages. */
  lemma PushOutcomes(customerId: string, rows: seq<StatusRow>, invocationId: string, dryRun: bool, mutate: MutateResult)
    ensures var r := ExpectedPush(customerId, rows, invocationId, dryRun, mutate);
      && (r.operations == [] ==> !r.mutateCalled && r.logged == [])
      && |r.logged| == |r.operations| <= |rows|
      && (r.mutateCalled <==> r.operations != [] && !dryRun)
      && (dryRun ==> forall i | 0 <= i < |r.logged| :: r.logged[i].outcome == Some(Info))
      && (!dryRun && mutate.MutateOk? ==> forall i | 0 <= i < |r.logged| :: r.logged[i].outcome == Some(Success))
      && (!dryRun && mutate.AdsException? ==> forall i | 0 <= i < |r.logged| ::
            r.logged[i].outcome == Some(Failure) &&
            r.logged[i].details == Some("GoogleAdsException: " + Join(mutate.messages, ", ") + " | Request ID: " + mutate.requestId))
  {
    HistoryAlignedWithOperations(invocationId, customerId, rows);
    OperationsCount(customerId, Changes(rows));
  }

  /** The pushes of one request, one per customer group. */
  datatype CustomerPush = CustomerPush(customerId: string, result: PushResult)

  /** The push of the group of raw customer id `key`, under its normalised id. */
  function GroupPush(key: string, rows: seq<StatusRow>, invocationId: string, dryRun: bool, mutate: string -> MutateResult): CustomerPush {
    var id := StripDashes(key);
    CustomerPush(id, ExpectedPush(id, Group(rows, key), invocationId, dryRun, mutate(id)))
  }

  /** The pushes of the groups `keys`, in order. */
  function GroupPushes(keys: seq<string>, rows: seq<StatusRow>, invocationId: string, dryRun: bool, mutate: string -> MutateResult): seq<CustomerPush> {
    if keys == [] then []
    else GroupPushes(keys[..|keys| - 1], rows, invocationId, dryRun, mutate) + [GroupPush(keys[|keys| - 1], rows, invocationId, dryRun, mutate)]
  }

  lemma {:induction false} GroupPushesIndex(keys: seq<string>, rows: seq<StatusRow>, invocationId: string, dryRun: bool, mutate: string -> MutateResult)
    ensures var pushes := GroupPushes(keys, rows, invocationId, dryRun, mutate);
      && |pushes| == |keys|
      && forall j | 0 <= j < |keys| :: pushes[j] == GroupPush(keys[j], rows, invocationId, dryRun, mutate)
    decreases |keys|
  {
    if keys != [] {
      var init := keys[..|keys| - 1];
      GroupPushesIndex(init, rows, invocationId, dryRun, mutate);
      var pushes := GroupPushes(keys, rows, invocationId, dryRun, mutate);
      assert pushes == GroupPushes(init, rows, invocationId, dryRun, mutate) + [GroupPush(keys[|keys| - 1], rows, invocationId, dryRun, mutate)];
      forall j | 0 <= j < |keys|
        ensures pushes[j] == GroupPush(keys[j], rows, invocationId, dryRun, mutate)
      {
        if j < |init| {
          assert keys[j] == init[j];
        }
      }
    }
  }

  /** `main_handler` once the service is initialised: a failed query answers
      500 and an empty one 200, both without pushing; otherwise each customer
      group is pushed under its id with every `-` removed, in order of first
      appearance. `mutate` gives the ads API's answer per customer. */
  method MainHandler(source: Option<seq<StatusRow>>, invocationId: string, dryRun: bool, mutate: string -> MutateResult)
    returns (code: int, pushes: seq<CustomerPush>)
    ensures source.None? ==> code == 500 && pushes == []
    ensures source.Some? ==> code == 200
    ensures source.Some? ==>
      var keys := CustomerKeys(source.value);
      && |pushes| == |keys|
      && forall j | 0 <= j < |keys| ::
           pushes[j] == GroupPush(keys[j], source.value, invocationId, dryRun, mutate)
  {
    pushes := [];
    if source.None? {
      return 500, pushes;
    }
    var keywordsDf := source.value;
    if keywordsDf == [] {
      return 200, pushes;
    }
    var keys := CustomerKeys(keywordsDf);
    pushes := PushGroups(keywordsDf, keys, invocationId, dryRun, mutate);
    GroupPushesIndex(keys, keywordsDf, invocationId, dryRun, mutate);
    code := 200;
  }

  /** The loop of `main_handler` over the customer groups `keys` of `keywordsDf`. */
  method PushGroups(keywordsDf: seq<StatusRow>, keys: seq<string>, invocationId: string, dryRun: bool, mutate: string -> MutateResult)
    returns (pushes: seq<CustomerPush>)
    ensures pushes == GroupPushes(keys, keywordsDf, invocationId, dryRun, mutate)
  {
    pushes := [];
    var j := 0;
    while j < |keys|
      invariant 0 <= j <= |keys|
      invariant pushes == GroupPushes(keys[..j], keywordsDf, invocationId, dryRun, mutate)
    {
      var customerIdStr := StripDashes(keys[j]);
      var result := UpdateKeywordStatusesInGoogleAds(customerIdStr, Group(keywordsDf, keys[j]), invocationId, dryRun, mutate(customerIdStr));
      assert keys[..j + 1][..j] == keys[..j];
      pushes := pushes + [CustomerPush(customerIdStr, result)];
      j := j + 1;
    }
    assert keys[..j] == keys;
  }
}
