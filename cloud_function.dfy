/** The cloud function (main.py): builds one operation per valid row for the
    account's customer, sends them in one partial-failure request, reports
    the index of each failed operation and counts the results that carry a
    resource name. */
module CloudFunction {
  import opened Wrappers
  import opened AdsOperations

  /** One element of an error's `location.fieldPathElements`. */
  datatype PathElement = PathElement(index: Option<int>)

  datatype Location = Location(fieldPathElements: Option<seq<PathElement>>)

  /** One entry of the partial-failure error's `errors` list. */
  datatype ErrorDetail = ErrorDetail(location: Option<Location>, message: Option<string>)

  /** The index an error is reported at, or `"N/A"`. */
  datatype IndexLabel = AtIndex(n: int) | NotAvailable

  /** `error.get("location", {}).get("fieldPathElements", [{}])[0].get("index", "N/A")`:
      `None` when the lookup raises, which it does for an empty
      `fieldPathElements` list. */
  function ErrorIndex(e: ErrorDetail): (r: Option<IndexLabel>)
    ensures r.None? <==> e.location.Some? && e.location.value.fieldPathElements == Some([])
    ensures e.location.None? || e.location.value.fieldPathElements.None? ==> r == Some(NotAvailable)
    ensures r.Some? && r.value.AtIndex? ==>
      e.location.Some? && e.location.value.fieldPathElements.Some? &&
      e.location.value.fieldPathElements.value[0].index == Some(r.value.n)
    ensures e.location.Some? && e.location.value.fieldPathElements.Some? &&
            |e.location.value.fieldPathElements.value| > 0 ==>
      var first := e.location.value.fieldPathElements.value[0];
      (first.index.Some? ==> r == Some(AtIndex(first.index.value))) &&
      (first.index.None? ==> r == Some(NotAvailable))
  {
    var elements := if e.location.None? then [PathElement(None)]
                    else e.location.value.fieldPathElements.GetOr([PathElement(None)]);
    if elements == [] then None
    else if elements[0].index.Some? then Some(AtIndex(elements[0].index.value))
    else Some(NotAvailable)
  }

  /** The answer of a mutate call that did not raise. `partialFailureError` is
      `None` when the response carries no partial-failure error. */
  datatype MutateResponse = MutateResponse(partialFailureError: Option<seq<ErrorDetail>>, results: seq<string>)

  /** The mutate call: a response, or the ads API's exception for a request
      that failed as a whole. */
  datatype MutateCall = Responded(response: MutateResponse) | RequestFailed(messages: seq<string>)

  /** The number of results with a non-empty resource name. */
  function SuccessCount(results: seq<string>): nat {
    if results == [] then 0
    else SuccessCount(results[..|results| - 1]) + (if results[|results| - 1] != "" then 1 else 0)
  }

  /** The success count never exceeds the number of results, and equals it
      exactly when every result has a resource name. */
  lemma {:induction false} SuccessCountBounds(results: seq<string>)
    ensures SuccessCount(results) <= |results|
    ensures SuccessCount(results) == |results| <==> forall i | 0 <= i < |results| :: results[i] != ""
  {
    if results != [] {
      var init := results[..|results| - 1];
      SuccessCountBounds(init);
      assert forall i | 0 <= i < |init| :: init[i] == results[i];
    }
  }

  /** The loop counting successful results. */
  method CountSuccessful(results: seq<string>) returns (successfulCount: nat)
    ensures successfulCount == SuccessCount(results)
  {
    successfulCount := 0;
    var n := 0;
    while n < |results|
      invariant 0 <= n <= |results|
      invariant successfulCount == SuccessCount(results[..n])
    {
      assert results[..n + 1][..n] == results[..n];
      if results[n] != "" {
        successfulCount := successfulCount + 1;
      }
      n := n + 1;
    }
    assert results[..n] == results;
  }

  /** The reported indices of the errors, or `None` when one lookup raises. */
  function ErrorIndices(errors: seq<ErrorDetail>): Option<seq<IndexLabel>> {
    if errors == [] then Some([])
    else
      var init := ErrorIndices(errors[..|errors| - 1]);
      var last := ErrorIndex(errors[|errors| - 1]);
      if init.None? || last.None? then None else Some(init.value + [last.value])
  }

  /** How a run of the function ends. */
  datatype RunOutcome =
    | NothingToUpdate
    | Sent(operations: seq<Operation>, failedAt: seq<IndexLabel>, successfulCount: nat)
    | WholeRequestFailed(operations: seq<Operation>)
    | ErrorLookupRaised(operations: seq<Operation>)

  /** `update_google_ads_keywords` once the secrets and the client are in
      hand: an empty row list ends the run before any operation is built;
      otherwise the operations are built and sent (even when none is valid),
      and the response is read. */
  method UpdateGoogleAdsKeywords(customerId: string, keywordsToUpdate: seq<Change>, call: MutateCall)
    returns (outcome: RunOutcome)
    ensures keywordsToUpdate == [] ==> outcome == NothingToUpdate
    ensures keywordsToUpdate != [] && call.RequestFailed? ==>
      outcome == WholeRequestFailed(Operations(customerId, keywordsToUpdate))
    ensures keywordsToUpdate != [] && call.Responded? ==>
      var errors := call.response.partialFailureError.GetOr([]);
      var ops := Operations(customerId, keywordsToUpdate);
      outcome == if ErrorIndices(errors).None? then ErrorLookupRaised(ops)
                 else Sent(ops, ErrorIndices(errors).value, SuccessCount(call.response.results))
  {
    if keywordsToUpdate == [] {
      return NothingToUpdate;
    }
    var mutateOperations := BuildMutateOperations(customerId, keywordsToUpdate);
    if call.RequestFailed? {
      return WholeRequestFailed(mutateOperations);
    }
    var mutateResponse := call.response;
    var failedAt: seq<IndexLabel> := [];
    if mutateResponse.partialFailureError.Some? {
      var errors := mutateResponse.partialFailureError.value;
      var n := 0;
      while n < |errors|
        invariant 0 <= n <= |errors|
        invariant ErrorIndices(errors[..n]) == Some(failedAt)
      {
        assert errors[..n + 1][..n] == errors[..n];
        var errorIndex := ErrorIndex(errors[n]);
        if errorIndex.None? {
          assert ErrorIndices(errors[..n + 1]).None?;
          NoneStaysNone(errors, n + 1);
          assert errors[..|errors|] == errors;
          return ErrorLookupRaised(mutateOperations);
        }
        failedAt := failedAt + [errorIndex.value];
        n := n + 1;
      }
      assert errors[..n] == errors;
    }
    var successfulCount := CountSuccessful(mutateResponse.results);
    outcome := Sent(mutateOperations, failedAt, successfulCount);
  }

  /** Once a lookup has raised, the whole error list raises. */
  lemma {:induction false} NoneStaysNone(errors: seq<ErrorDetail>, n: int)
    requires 0 <= n <= |errors|
    requires ErrorIndices(errors[..n]).None?
    ensures ErrorIndices(errors).None?
    decreases |errors| - n
  {
    if n < |errors| {
      assert errors[..n + 1][..n] == errors[..n];
      NoneStaysNone(errors, n + 1);
    } else {
      assert errors[..n] == errors;
    }
  }

  /** When the lookups succeed there is one reported index per error, `"N/A"`
      for each error without a location index. */
  lemma {:induction false} ErrorIndicesParallel(errors: seq<ErrorDetail>)
    requires ErrorIndices(errors).Some?
    ensures |ErrorIndices(errors).value| == |errors|
    ensures forall i | 0 <= i < |errors| :: Some(ErrorIndices(errors).value[i]) == ErrorIndex(errors[i])
  {
    if errors != [] {
      var init := errors[..|errors| - 1];
      ErrorIndicesParallel(init);
      assert forall i | 0 <= i < |init| :: init[i] == errors[i];
    }
  }
}
