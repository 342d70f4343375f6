/** The older single-device script (serp_analysis.py): the same competitor
    check, a rank check in which the first rank-1 organic item decides, and a
    loop that writes a keyword's status only when the decision changes it. */
module SerpLegacy {
  import opened Wrappers
  import opened SerpData
  import SerpLogic

  /** `check_for_competitor_ads` of the script: the same guard and the same
      `ads`-block condition as the service's version. */
  function CheckForCompetitorAds(data: Option<Payload>, domainUrl: Option<string>): (r: bool)
    ensures FirstResult(data).None? ==> !r
    ensures FirstResult(data).Some? ==>
      (r <==> exists i | 0 <= i < |SerpLogic.ScannedItems(FirstResult(data).value)| ::
                SerpLogic.IsCompetitorAdBlock(SerpLogic.ScannedItems(FirstResult(data).value)[i], domainUrl))
  {
    match FirstResult(data)
    case None => false
    case Some(entry) => SerpLogic.FindCompetitorAd(SerpLogic.ScannedItems(entry), domainUrl)
  }

  /** Item `i` is the first rank-1 organic item of `items`. */
  predicate IsFirstTopOrganic(items: seq<Item>, i: int) {
    && 0 <= i < |items|
    && SerpLogic.IsTopOrganic(items[i])
    && forall j | 0 <= j < i :: !SerpLogic.IsTopOrganic(items[j])
  }

  /** The loop of the script's `is_domain_ranked_number_one`: the first rank-1
      organic item returns whether it is the advertiser's. */
  function FirstTopOrganicIsOwn(items: seq<Item>, domainUrl: Option<string>): (own: bool)
    ensures own <==> exists i | 0 <= i < |items| :: IsFirstTopOrganic(items, i) && items[i].domain == domainUrl
  {
    if items == [] then false
    else if SerpLogic.IsTopOrganic(items[0]) then items[0].domain == domainUrl
    else
      var rest := FirstTopOrganicIsOwn(items[1..], domainUrl);
      assert forall i | 1 <= i < |items| :: items[i] == items[1..][i - 1];
      assert forall i | 1 <= i < |items| :: IsFirstTopOrganic(items, i) <==> IsFirstTopOrganic(items[1..], i - 1);
      rest
  }

  /** `is_domain_ranked_number_one` of the script: false when the guard fails,
      otherwise whether the first rank-1 organic item is the advertiser's
      (false when there is none). */
  function IsDomainRankedNumberOne(data: Option<Payload>, domainUrl: Option<string>): (r: bool)
    ensures FirstResult(data).None? ==> !r
    ensures FirstResult(data).Some? ==>
      (r <==> exists i | 0 <= i < |SerpLogic.ScannedItems(FirstResult(data).value)| ::
                var items := SerpLogic.ScannedItems(FirstResult(data).value);
                IsFirstTopOrganic(items, i) && items[i].domain == domainUrl)
  {
    match FirstResult(data)
    case None => false
    case Some(entry) => FirstTopOrganicIsOwn(SerpLogic.ScannedItems(entry), domainUrl)
  }

  /** The two competitor checks are the same predicate. */
  lemma CompetitorChecksAgree(data: Option<Payload>, domainUrl: Option<string>)
    ensures CheckForCompetitorAds(data, domainUrl) == SerpLogic.CheckForCompetitorAds(data, domainUrl)
  {
  }

  /** The script's rank check implies the service's; when the items hold at
      most one rank-1 organic item the two agree. */
  lemma RankChecksCompared(data: Option<Payload>, domainUrl: Option<string>)
    ensures IsDomainRankedNumberOne(data, domainUrl) ==> SerpLogic.IsDomainRankedNumberOne(data, domainUrl)
    ensures FirstResult(data).Some? &&
            (var items := SerpLogic.ScannedItems(FirstResult(data).value);
             forall i, j | 0 <= i < j < |items| :: !(SerpLogic.IsTopOrganic(items[i]) && SerpLogic.IsTopOrganic(items[j])))
            ==> IsDomainRankedNumberOne(data, domainUrl) == SerpLogic.IsDomainRankedNumberOne(data, domainUrl)
  {
    if FirstResult(data).Some? {
      var items := SerpLogic.ScannedItems(FirstResult(data).value);
      if SerpLogic.IsDomainRankedNumberOne(data, domainUrl) &&
         forall i, j | 0 <= i < j < |items| :: !(SerpLogic.IsTopOrganic(items[i]) && SerpLogic.IsTopOrganic(items[j])) {
        var i :| 0 <= i < |items| && SerpLogic.IsTopOrganic(items[i]) && items[i].domain == domainUrl;
        assert IsFirstTopOrganic(items, i);
      }
    }
  }

  /** Where the two rank checks part: a rank-1 organic item of another domain
      ahead of the advertiser's ends the script's search with false. */
  lemma FirstTopOrganicDecides(other: Option<string>, domainUrl: Option<string>)
    requires other != domainUrl
    ensures var data := PayloadWith(ResultEntry(Some([
              Item(Some(ORGANIC), other, Some(1), None),
              Item(Some(ORGANIC), domainUrl, Some(1), None)])));
            !IsDomainRankedNumberOne(data, domainUrl) && SerpLogic.IsDomainRankedNumberOne(data, domainUrl)
  {
    SerpLogic.OtherTopOrganicDoesNotStopSearch(other, domainUrl);
  }

  /** The per-row decision of the script's `main`: no decision without SERP
      data; a competitor ad gives ENABLED; otherwise rank one gives PAUSED;
      otherwise ENABLED. */
  function SingleDeviceDecision(data: Option<Payload>, domainUrl: Option<string>): (newStatus: Option<string>)
    ensures newStatus.None? <==> data.None?
    ensures newStatus.Some? ==> newStatus.value == ENABLED || newStatus.value == PAUSED
    ensures newStatus == Some(PAUSED) <==>
      data.Some? && !CheckForCompetitorAds(data, domainUrl) && IsDomainRankedNumberOne(data, domainUrl)
  {
    if data.None? then None
    else if CheckForCompetitorAds(data, domainUrl) then Some(ENABLED)
    else if IsDomainRankedNumberOne(data, domainUrl) then Some(PAUSED)
    else Some(ENABLED)
  }

  /** One call of the script's sink `update_keyword_status`. */
  datatype StatusUpdate = StatusUpdate(keyword: string, newStatus: string)

  /** The update a row produces, if any: only when there is a decision and it
      differs from the stored status. */
  function RowUpdate(row: KeywordRow, fetch: string -> Option<Payload>): Option<StatusUpdate> {
    var decision := SingleDeviceDecision(fetch(row.keyword), row.domainUrl);
    if decision.Some? && decision != row.status then Some(StatusUpdate(row.keyword, decision.value))
    else None
  }

  /** The updates of a run over `rows`, in row order. */
  function Updates(rows: seq<KeywordRow>, fetch: string -> Option<Payload>): seq<StatusUpdate> {
    if rows == [] then []
    else
      var last := RowUpdate(rows[|rows| - 1], fetch);
      Updates(rows[..|rows| - 1], fetch) + (if last.Some? then [last.value] else [])
  }

  /** An update is issued exactly for each row whose decision exists and
      differs from its stored status. */
  lemma {:induction false} UpdatesExactlyChangedRows(rows: seq<KeywordRow>, fetch: string -> Option<Payload>, u: StatusUpdate)
    ensures u in Updates(rows, fetch) <==> exists i | 0 <= i < |rows| :: RowUpdate(rows[i], fetch) == Some(u)
  {
    if rows != [] {
      var init := rows[..|rows| - 1];
      UpdatesExactlyChangedRows(init, fetch, u);
      assert forall i | 0 <= i < |init| :: init[i] == rows[i];
      if u in Updates(rows, fetch) && u !in Updates(init, fetch) {
        assert RowUpdate(rows[|rows| - 1], fetch) == Some(u);
      }
    }
  }

  /** Every update carries a new status of the two and differs from the row it
      came from; there are never more updates than rows. */
  lemma {:induction false} UpdatesChangeStatus(rows: seq<KeywordRow>, fetch: string -> Option<Payload>)
    ensures |Updates(rows, fetch)| <= |rows|
    ensures forall u | u in Updates(rows, fetch) :: u.newStatus == ENABLED || u.newStatus == PAUSED
    ensures forall u | u in Updates(rows, fetch) ::
      exists i | 0 <= i < |rows| :: rows[i].keyword == u.keyword && rows[i].status != Some(u.newStatus)
  {
    if rows != [] {
      var init, last := rows[..|rows| - 1], rows[|rows| - 1];
      UpdatesChangeStatus(init, fetch);
      assert forall i | 0 <= i < |init| :: init[i] == rows[i];
      var update := RowUpdate(last, fetch);
      if update.Some? {
        assert rows[|rows| - 1].keyword == update.value.keyword && rows[|rows| - 1].status != Some(update.value.newStatus);
      }
    }
  }

  /** The script's `main` after the client is built: a failed query yields no
      rows (the query function returns an empty list), an empty list ends the
      run, and every row is then decided and written if changed; a row
      without SERP data is skipped and the others continue. */
  method RunScript(source: Option<seq<KeywordRow>>, fetch: string -> Option<Payload>)
    returns (updates: seq<StatusUpdate>)
    ensures source.None? || source == Some([]) ==> updates == []
    ensures source.Some? ==> updates == Updates(source.value, fetch)
  {
    var keywordsData := source.GetOr([]);
    updates := [];
    if keywordsData == [] {
      return;
    }
    var n := 0;
    while n < |keywordsData|
      invariant 0 <= n <= |keywordsData|
      invariant updates == Updates(keywordsData[..n], fetch)
    {
      var row := keywordsData[n];
      var newStatus: Option<string> := None;
      var serpData := fetch(row.keyword);
      if serpData.Some? {
        var hasCompetitorAd := CheckForCompetitorAds(serpData, row.domainUrl);
        if hasCompetitorAd {
          newStatus := Some(ENABLED);
        } else {
          var isRankedOne := IsDomainRankedNumberOne(serpData, row.domainUrl);
          if isRankedOne {
            newStatus := Some(PAUSED);
          } else {
            newStatus := Some(ENABLED);
          }
        }
        if newStatus.Some? && newStatus != row.status {
          updates := updates + [StatusUpdate(row.keyword, newStatus.value)];
        }
      }
      assert keywordsData[..n + 1][..n] == keywordsData[..n];
      n := n + 1;
    }
    assert keywordsData[..n] == keywordsData;
  }
}
