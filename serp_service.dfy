/** The Flask service (serp_analysis/main.py): competitor-domain extraction,
    and the request handler that decides each keyword from its desktop and
    mobile SERPs and hands every truthy status to the sink. */
module SerpService {
  import opened Wrappers
  import opened SerpData
  import SerpLogic

  /** An organic rank, or the infinite rank the source uses for "not found"
      and for an item without `rank_absolute`. */
  datatype Rank = Finite(n: int) | Infinite

  /** Python's `<` between the source's ranks (`float('inf')` is below nothing). */
  predicate Below(a: Rank, b: Rank) {
    match (a, b)
    case (Finite(x), Finite(y)) => x < y
    case (Finite(_), Infinite) => true
    case (Infinite, _) => false
  }

  /** `item.get('rank_absolute', float('inf'))`. */
  function RankOf(item: Item): Rank {
    if item.rankAbsolute.Some? then Finite(item.rankAbsolute.value) else Infinite
  }

  /** An organic item of the advertiser's own domain. */
  predicate IsOwnOrganic(item: Item, myDomain: string) {
    item.kind == Some(ORGANIC) && item.domain == Some(myDomain)
  }

  /** The advertiser's rank: that of the first own organic item, infinite
      when there is none. */
  function OwnRank(items: seq<Item>, myDomain: string): Rank {
    if items == [] then Infinite
    else if IsOwnOrganic(items[0], myDomain) then RankOf(items[0])
    else OwnRank(items[1..], myDomain)
  }

  /** An item whose domain is collected: it has a non-empty domain other than
      the advertiser's, and is either paid or organic and ranked strictly
      better than `myRank`. */
  predicate Qualifies(item: Item, myDomain: string, myRank: Rank) {
    && item.domain.Some?
    && item.domain.value != ""
    && item.domain.value != myDomain
    && (item.kind == Some(PAID) || (item.kind == Some(ORGANIC) && Below(RankOf(item), myRank)))
  }

  /** The domains of the qualifying items among `items`. */
  function CollectedDomains(items: seq<Item>, myDomain: string, myRank: Rank): set<string> {
    set i | 0 <= i < |items| && Qualifies(items[i], myDomain, myRank) :: items[i].domain.value
  }

  /** The competitor set of a well-formed item list. */
  function Competitors(items: seq<Item>, myDomain: string): set<string> {
    CollectedDomains(items, myDomain, OwnRank(items, myDomain))
  }

  /** `extract_competitor_domains`: empty when the payload lacks
      `tasks[0].result[0].items` (a missing `items` key counts as malformed
      here); otherwise the competitor set. The source returns the set as a
      list; its order is not modelled. */
  method ExtractCompetitorDomains(data: Option<Payload>, myDomain: string) returns (domains: set<string>)
    ensures FirstResult(data).None? || FirstResult(data).value.items.None? ==> domains == {}
    ensures FirstResult(data).Some? && FirstResult(data).value.items.Some? ==>
      domains == Competitors(FirstResult(data).value.items.value, myDomain)
  {
    domains := {};
    var myRank := Infinite;
    var entry := FirstResult(data);
    if entry.None? || entry.value.items.None? {
      return;
    }
    var items := entry.value.items.value;

    var i := 0;
    while i < |items|
      invariant 0 <= i <= |items|
      invariant OwnRank(items, myDomain) == OwnRank(items[i..], myDomain)
    {
      if IsOwnOrganic(items[i], myDomain) {
        myRank := RankOf(items[i]);
        break;
      }
      assert items[i..][1..] == items[i + 1..];
      i := i + 1;
    }
    assert myRank == OwnRank(items, myDomain);

    var k := 0;
    while k < |items|
      invariant 0 <= k <= |items|
      invariant domains == CollectedDomains(items[..k], myDomain, myRank)
    {
      var item := items[k];
      assert items[..k + 1][..k] == items[..k];
      if item.domain.None? || item.domain.value == "" || item.domain.value == myDomain {
        assert CollectedDomains(items[..k + 1], myDomain, myRank) == CollectedDomains(items[..k], myDomain, myRank);
        k := k + 1;
        continue;
      }
      var domain := item.domain.value;
      if item.kind == Some(PAID) {
        domains := domains + {domain};
      }
      if item.kind == Some(ORGANIC) && Below(RankOf(item), myRank) {
        domains := domains + {domain};
      }
      assert CollectedDomains(items[..k + 1], myDomain, myRank)
          == CollectedDomains(items[..k], myDomain, myRank) + (if Qualifies(item, myDomain, myRank) then {domain} else {});
      k := k + 1;
    }
    assert items[..k] == items;
  }

  /** The set never holds the advertiser's domain or an empty domain. */
  lemma CompetitorsExcludeOwnAndEmpty(items: seq<Item>, myDomain: string)
    ensures myDomain !in Competitors(items, myDomain)
    ensures "" !in Competitors(items, myDomain)
  {
  }

  /** Every paid item's non-empty domain other than the advertiser's is in
      the set, whatever the ranks. */
  lemma PaidDomainsIncluded(items: seq<Item>, myDomain: string, i: int)
    requires 0 <= i < |items|
    requires items[i].kind == Some(PAID)
    requires items[i].domain.Some? && items[i].domain.value != "" && items[i].domain.value != myDomain
    ensures items[i].domain.value in Competitors(items, myDomain)
  {
  }

  /** The advertiser's rank is that of its first organic item, or infinite
      when it has none. */
  lemma {:induction false} OwnRankIsFirstMatch(items: seq<Item>, myDomain: string)
    ensures (forall i | 0 <= i < |items| :: !IsOwnOrganic(items[i], myDomain)) ==> OwnRank(items, myDomain) == Infinite
    ensures forall i | 0 <= i < |items| && IsOwnOrganic(items[i], myDomain) &&
                       (forall j | 0 <= j < i :: !IsOwnOrganic(items[j], myDomain)) ::
              OwnRank(items, myDomain) == RankOf(items[i])
  {
    if items != [] {
      OwnRankIsFirstMatch(items[1..], myDomain);
      assert forall i | 1 <= i < |items| :: items[i] == items[1..][i - 1];
    }
  }

  /** An organic domain is collected exactly when some organic item of that
      domain ranks strictly better than the advertiser's first organic item
      (or than infinity when there is none), unless a paid item brings it in. */
  lemma OrganicDomainIncludedIff(items: seq<Item>, myDomain: string, d: string)
    requires d != "" && d != myDomain
    requires forall i | 0 <= i < |items| :: items[i].domain == Some(d) ==> items[i].kind != Some(PAID)
    ensures d in Competitors(items, myDomain) <==>
      exists i | 0 <= i < |items| ::
        items[i].kind == Some(ORGANIC) && items[i].domain == Some(d) && Below(RankOf(items[i]), OwnRank(items, myDomain))
  {
    if d in Competitors(items, myDomain) {
      var i :| 0 <= i < |items| && Qualifies(items[i], myDomain, OwnRank(items, myDomain)) && items[i].domain.value == d;
      assert items[i].kind == Some(ORGANIC);
    }
  }

  /** When the advertiser has no organic item, every organic item that has a
      rank and a non-empty domain other than the advertiser's is collected. */
  lemma AbsentDomainCollectsAllRankedOrganic(items: seq<Item>, myDomain: string, i: int)
    requires forall j | 0 <= j < |items| :: !IsOwnOrganic(items[j], myDomain)
    requires 0 <= i < |items| && items[i].kind == Some(ORGANIC) && items[i].rankAbsolute.Some?
    requires items[i].domain.Some? && items[i].domain.value != "" && items[i].domain.value != myDomain
    ensures items[i].domain.value in Competitors(items, myDomain)
  {
    OwnRankIsFirstMatch(items, myDomain);
    assert Qualifies(items[i], myDomain, OwnRank(items, myDomain));
  }

  /** The analysis signals of one keyword, as the handler computes them. */
  datatype Signals = Signals(
    desktopCompetitorAd: bool,
    mobileCompetitorAd: bool,
    desktopRankedOne: bool,
    mobileRankedOne: bool)

  datatype Device = Desktop | Mobile

  function Analyse(desktop: Option<Payload>, mobile: Option<Payload>, domainUrl: Option<string>): Signals {
    Signals(
      SerpLogic.CheckForCompetitorAds(desktop, domainUrl),
      SerpLogic.CheckForCompetitorAds(mobile, domainUrl),
      SerpLogic.IsDomainRankedNumberOne(desktop, domainUrl),
      SerpLogic.IsDomainRankedNumberOne(mobile, domainUrl))
  }

  /** The two-device rule: a competitor ad on either device gives ENABLED;
      otherwise rank one on both devices gives PAUSED; otherwise the stored
      status is kept as it is (NULL included). */
  function TwoDeviceStatus(current: Option<string>, s: Signals): (newStatus: Option<string>)
    ensures newStatus == current || newStatus == Some(ENABLED) || newStatus == Some(PAUSED)
    ensures newStatus == Some(PAUSED) && current != Some(PAUSED) ==>
      !s.desktopCompetitorAd && !s.mobileCompetitorAd && s.desktopRankedOne && s.mobileRankedOne
    ensures newStatus != current ==> s.desktopCompetitorAd || s.mobileCompetitorAd || (s.desktopRankedOne && s.mobileRankedOne)
    ensures s.desktopCompetitorAd || s.mobileCompetitorAd ==> newStatus == Some(ENABLED)
    ensures !s.desktopCompetitorAd && !s.mobileCompetitorAd && s.desktopRankedOne && s.mobileRankedOne ==> newStatus == Some(PAUSED)
  {
    if s.desktopCompetitorAd || s.mobileCompetitorAd then Some(ENABLED)
    else if s.desktopRankedOne && s.mobileRankedOne then Some(PAUSED)
    else current
  }

  /** A competitor ad on either device enables the keyword, whatever the
      ranks and the stored status. */
  lemma CompetitorAdWins(current: Option<string>, desktop: Option<Payload>, mobile: Option<Payload>, domainUrl: Option<string>, entry: ResultEntry, i: int)
    requires FirstResult(desktop) == Some(entry) || FirstResult(mobile) == Some(entry)
    requires 0 <= i < |SerpLogic.ScannedItems(entry)|
    requires SerpLogic.IsCompetitorAdBlock(SerpLogic.ScannedItems(entry)[i], domainUrl)
    ensures TwoDeviceStatus(current, Analyse(desktop, mobile, domainUrl)) == Some(ENABLED)
  {
  }

  /** With no competitor ad on either device and the advertiser's organic
      rank-1 item on both, the keyword is paused. */
  lemma RankedOneOnBothPauses(current: Option<string>, desktop: Option<Payload>, mobile: Option<Payload>, domainUrl: Option<string>)
    requires !SerpLogic.CheckForCompetitorAds(desktop, domainUrl) && !SerpLogic.CheckForCompetitorAds(mobile, domainUrl)
    requires SerpLogic.IsDomainRankedNumberOne(desktop, domainUrl) && SerpLogic.IsDomainRankedNumberOne(mobile, domainUrl)
    ensures TwoDeviceStatus(current, Analyse(desktop, mobile, domainUrl)) == Some(PAUSED)
  {
  }

  /** A failed fetch on one device, with no competitor ad on the other, keeps
      the stored status: the missing SERP counts as "not ranked one". */
  lemma FailedFetchKeepsStatus(current: Option<string>, desktop: Option<Payload>, domainUrl: Option<string>)
    requires !SerpLogic.CheckForCompetitorAds(desktop, domainUrl)
    ensures TwoDeviceStatus(current, Analyse(desktop, None, domainUrl)) == current
    ensures TwoDeviceStatus(current, Analyse(None, desktop, domainUrl)) == current
  {
  }

  /** A paid item is not an `ads` block: a rival's paid item on mobile with
      the advertiser ranked one on desktop leaves the stored status as it is. */
  lemma PaidItemDoesNotEnable(current: Option<string>)
    ensures
      var desktop := PayloadWith(ResultEntry(Some([Item(Some(ORGANIC), Some("example.com"), Some(1), None)])));
      var mobile := PayloadWith(ResultEntry(Some([Item(Some(PAID), Some("rival.com"), None, None)])));
      TwoDeviceStatus(current, Analyse(desktop, mobile, Some("example.com"))) == current
  {
    var mobileItems := [Item(Some(PAID), Some("rival.com"), None, None)];
    assert !SerpLogic.IsTopOrganic(mobileItems[0]);
  }

  /** The third argument of every sink call: the extraction function object
      itself, not a computed domain list. */
  datatype CompetitorArgument = ExtractorFunctionObject

  /** One call of `update_keyword_data`. */
  datatype SinkCall = SinkCall(keyword: string, newStatus: string, competitors: CompetitorArgument)

  /** Python truthiness of a status: neither NULL nor empty. */
  predicate Truthy(status: Option<string>) {
    status.Some? && status.value != ""
  }

  function RowStatus(row: KeywordRow, fetch: (string, Device) -> Option<Payload>): Option<string> {
    TwoDeviceStatus(row.status, Analyse(fetch(row.keyword, Desktop), fetch(row.keyword, Mobile), row.domainUrl))
  }

  /** The sink calls of the loop over `rows`, in row order. */
  function SinkCalls(rows: seq<KeywordRow>, fetch: (string, Device) -> Option<Payload>): seq<SinkCall> {
    if rows == [] then []
    else
      var last := rows[|rows| - 1];
      var status := RowStatus(last, fetch);
      SinkCalls(rows[..|rows| - 1], fetch) +
        (if Truthy(status) then [SinkCall(last.keyword, status.value, ExtractorFunctionObject)] else [])
  }

  /** The sink is called for exactly the rows whose new status is truthy,
      whether or not it differs from the stored one. */
  lemma {:induction false} SinkCalledForTruthyRows(rows: seq<KeywordRow>, fetch: (string, Device) -> Option<Payload>, c: SinkCall)
    ensures c in SinkCalls(rows, fetch) <==>
      exists i | 0 <= i < |rows| ::
        Truthy(RowStatus(rows[i], fetch)) &&
        c == SinkCall(rows[i].keyword, RowStatus(rows[i], fetch).value, ExtractorFunctionObject)
  {
    if rows != [] {
      var init := rows[..|rows| - 1];
      SinkCalledForTruthyRows(init, fetch, c);
      assert forall i | 0 <= i < |init| :: init[i] == rows[i];
    }
  }

  /** There are never more sink calls than rows. */
  lemma {:induction false} SinkCallsBounded(rows: seq<KeywordRow>, fetch: (string, Device) -> Option<Payload>)
    ensures |SinkCalls(rows, fetch)| <= |rows|
  {
    if rows != [] {
      SinkCallsBounded(rows[..|rows| - 1], fetch);
    }
  }

  /** A row whose stored status is truthy and unchanged by the rule is still
      written, with that same status. */
  lemma UnchangedStatusStillWritten(rows: seq<KeywordRow>, fetch: (string, Device) -> Option<Payload>, i: int)
    requires 0 <= i < |rows| && Truthy(rows[i].status)
    requires RowStatus(rows[i], fetch) == rows[i].status
    ensures SinkCall(rows[i].keyword, rows[i].status.value, ExtractorFunctionObject) in SinkCalls(rows, fetch)
  {
    SinkCalledForTruthyRows(rows, fetch, SinkCall(rows[i].keyword, rows[i].status.value, ExtractorFunctionObject));
  }

  /** The handler's answer: an HTTP status code. */
  datatype Response = Response(code: int)

  /** `main` once configured: a failed keyword query answers 500 and an empty
      one 200, both without any sink call; otherwise every row is analysed on
      both devices and each truthy status goes to the sink. */
  method HandleRequest(source: Option<seq<KeywordRow>>, fetch: (string, Device) -> Option<Payload>)
    returns (response: Response, calls: seq<SinkCall>)
    ensures source.None? ==> response.code == 500 && calls == []
    ensures source.Some? ==> response.code == 200 && calls == SinkCalls(source.value, fetch)
  {
    calls := [];
    if source.None? {
      return Response(500), calls;
    }
    var keywordsData := source.value;
    if keywordsData == [] {
      return Response(200), calls;
    }
    var n := 0;
    while n < |keywordsData|
      invariant 0 <= n <= |keywordsData|
      invariant calls == SinkCalls(keywordsData[..n], fetch)
    {
      var row := keywordsData[n];
      var desktopSerpData := fetch(row.keyword, Desktop);
      var mobileSerpData := fetch(row.keyword, Mobile);
      var desktopHasCompetitorAd := SerpLogic.CheckForCompetitorAds(desktopSerpData, row.domainUrl);
      var mobileHasCompetitorAd := SerpLogic.CheckForCompetitorAds(mobileSerpData, row.domainUrl);
      var desktopIsRankedOne := SerpLogic.IsDomainRankedNumberOne(desktopSerpData, row.domainUrl);
      var mobileIsRankedOne := SerpLogic.IsDomainRankedNumberOne(mobileSerpData, row.domainUrl);

      var newStatus := row.status;
      if desktopHasCompetitorAd || mobileHasCompetitorAd {
        newStatus := Some(ENABLED);
      } else if desktopIsRankedOne && mobileIsRankedOne {
        newStatus := Some(PAUSED);
      }

      if newStatus.Some? && newStatus.value != "" {
        calls := calls + [SinkCall(row.keyword, newStatus.value, ExtractorFunctionObject)];
      }
      assert keywordsData[..n + 1][..n] == keywordsData[..n];
      n := n + 1;
    }
    assert keywordsData[..n] == keywordsData;
    response := Response(200);
  }
}
