/** The two SERP predicates the Flask service calls (serp_analysis/logic.py).
    Both pass the structure guard, then search `tasks[0].result[0].items`
    (a missing `items` key reads as an empty list) and return at the first hit. */
module SerpLogic {
  import opened Wrappers
  import opened SerpData

  /** An ad entry names a competitor when it carries a `domain` key whose value
      is not the advertiser's domain. */
  predicate IsCompetitorEntry(ad: Ad, domainUrl: Option<string>) {
    ad.domain.Some? && ad.domain != domainUrl
  }

  /** An item counts as a competitor ad only when its type is `ads`, it carries
      a nested `ads` list, and one entry of that list names a competitor. */
  predicate IsCompetitorAdBlock(item: Item, domainUrl: Option<string>) {
    && item.kind == Some(ADS)
    && item.ads.Some?
    && exists j | 0 <= j < |item.ads.value| :: IsCompetitorEntry(item.ads.value[j], domainUrl)
  }

  /** An organic item at absolute rank 1. */
  predicate IsTopOrganic(item: Item) {
    item.kind == Some(ORGANIC) && item.rankAbsolute == Some(1)
  }

  /** The items both predicates scan once the guard has passed. */
  function ScannedItems(entry: ResultEntry): seq<Item> {
    entry.items.GetOr([])
  }

  /** The inner loop over one item's `ads` list. */
  function FindCompetitorEntry(ads: seq<Ad>, domainUrl: Option<string>): (found: bool)
    ensures found <==> exists j | 0 <= j < |ads| :: IsCompetitorEntry(ads[j], domainUrl)
  {
    if ads == [] then false
    else if IsCompetitorEntry(ads[0], domainUrl) then true
    else
      var rest := FindCompetitorEntry(ads[1..], domainUrl);
      assert forall j | 1 <= j < |ads| :: ads[j] == ads[1..][j - 1];
      rest
  }

  /** The outer loop over the items, returning at the first competitor ad. */
  function FindCompetitorAd(items: seq<Item>, domainUrl: Option<string>): (found: bool)
    ensures found <==> exists i | 0 <= i < |items| :: IsCompetitorAdBlock(items[i], domainUrl)
  {
    if items == [] then false
    else if items[0].kind == Some(ADS) && items[0].ads.Some?
         && FindCompetitorEntry(items[0].ads.value, domainUrl) then true
    else
      var rest := FindCompetitorAd(items[1..], domainUrl);
      assert forall i | 1 <= i < |items| :: items[i] == items[1..][i - 1];
      rest
  }

  /** The loop over the items, returning at the first rank-1 organic item of
      the advertiser; a rank-1 item of another domain does not end it. */
  function FindOwnTopOrganic(items: seq<Item>, domainUrl: Option<string>): (found: bool)
    ensures found <==> exists i | 0 <= i < |items| :: IsTopOrganic(items[i]) && items[i].domain == domainUrl
  {
    if items == [] then false
    else if IsTopOrganic(items[0]) && items[0].domain == domainUrl then true
    else
      var rest := FindOwnTopOrganic(items[1..], domainUrl);
      assert forall i | 1 <= i < |items| :: items[i] == items[1..][i - 1];
      rest
  }

  /** `check_for_competitor_ads`: false when the guard fails; otherwise true
      exactly when some scanned item is an `ads` block naming a competitor. */
  function CheckForCompetitorAds(data: Option<Payload>, domainUrl: Option<string>): (r: bool)
    ensures FirstResult(data).None? ==> !r
    ensures FirstResult(data).Some? ==>
      (r <==> exists i | 0 <= i < |ScannedItems(FirstResult(data).value)| ::
                IsCompetitorAdBlock(ScannedItems(FirstResult(data).value)[i], domainUrl))
  {
    match FirstResult(data)
    case None => false
    case Some(entry) => FindCompetitorAd(ScannedItems(entry), domainUrl)
  }

  /** `is_domain_ranked_number_one`: false when the guard fails; otherwise true
      exactly when some scanned organic rank-1 item is the advertiser's. */
  function IsDomainRankedNumberOne(data: Option<Payload>, domainUrl: Option<string>): (r: bool)
    ensures FirstResult(data).None? ==> !r
    ensures FirstResult(data).Some? ==>
      (r <==> exists i | 0 <= i < |ScannedItems(FirstResult(data).value)| ::
                var item := ScannedItems(FirstResult(data).value)[i];
                IsTopOrganic(item) && item.domain == domainUrl)
  {
    match FirstResult(data)
    case None => false
    case Some(entry) => FindOwnTopOrganic(ScannedItems(entry), domainUrl)
  }

  /** Each malformed shape the guard names makes both predicates false. */
  lemma GuardedShapesGiveFalse(data: Option<Payload>, domainUrl: Option<string>)
    requires || data.None?
             || data.value.tasks.None?
             || data.value.tasks == Some([])
             || data.value.tasks.value[0].result.None?
             || data.value.tasks.value[0].result == Some([])
    ensures !CheckForCompetitorAds(data, domainUrl)
    ensures !IsDomainRankedNumberOne(data, domainUrl)
  {
  }

  /** A first result entry without an `items` key behaves exactly like one
      whose `items` list is empty, and both predicates are then false. */
  lemma MissingItemsLikeEmptyList(domainUrl: Option<string>)
    ensures CheckForCompetitorAds(PayloadWith(ResultEntry(None)), domainUrl)
         == CheckForCompetitorAds(PayloadWith(ResultEntry(Some([]))), domainUrl)
         == false
    ensures IsDomainRankedNumberOne(PayloadWith(ResultEntry(None)), domainUrl)
         == IsDomainRankedNumberOne(PayloadWith(ResultEntry(Some([]))), domainUrl)
         == false
  {
  }

  /** Both predicates read nothing but `tasks[0].result[0]`: later tasks and
      results, and every other key, are ignored. */
  lemma OnlyFirstResultMatters(d1: Option<Payload>, d2: Option<Payload>, domainUrl: Option<string>)
    requires FirstResult(d1) == FirstResult(d2)
    ensures CheckForCompetitorAds(d1, domainUrl) == CheckForCompetitorAds(d2, domainUrl)
    ensures IsDomainRankedNumberOne(d1, domainUrl) == IsDomainRankedNumberOne(d2, domainUrl)
  {
  }

  /** Items of any type other than `ads` (type `paid` included) and ad entries
      without a `domain` key never make the competitor check true. */
  lemma NonAdsItemsNeverCompete(items: seq<Item>, domainUrl: Option<string>)
    requires forall i | 0 <= i < |items| ::
      items[i].kind != Some(ADS) ||
      items[i].ads.None? ||
      forall j | 0 <= j < |items[i].ads.value| ::
        items[i].ads.value[j].domain.None? || items[i].ads.value[j].domain == domainUrl
    ensures !CheckForCompetitorAds(PayloadWith(ResultEntry(Some(items))), domainUrl)
  {
  }

  /** A rank-1 organic item of another domain ahead of the advertiser's own
      rank-1 item does not stop the search. */
  lemma OtherTopOrganicDoesNotStopSearch(other: Option<string>, domainUrl: Option<string>)
    requires other != domainUrl
    ensures IsDomainRankedNumberOne(
      PayloadWith(ResultEntry(Some([
        Item(Some(ORGANIC), other, Some(1), None),
        Item(Some(ORGANIC), domainUrl, Some(1), None)]))),
      domainUrl)
  {
    var items := [Item(Some(ORGANIC), other, Some(1), None),
                  Item(Some(ORGANIC), domainUrl, Some(1), None)];
    assert IsTopOrganic(items[1]) && items[1].domain == domainUrl;
  }

  /** With a NULL `domain_url` every ad entry carrying a domain names a
      competitor, and a rank-1 organic item without a `domain` key is taken
      for the advertiser's own. */
  lemma NullDomainUrl(ads: seq<Ad>, item: Item)
    ensures FindCompetitorEntry(ads, None) <==> exists j | 0 <= j < |ads| :: ads[j].domain.Some?
    ensures IsTopOrganic(item) && item.domain.None? ==>
      IsDomainRankedNumberOne(PayloadWith(ResultEntry(Some([item]))), None)
  {
    if IsTopOrganic(item) && item.domain.None? {
      assert IsTopOrganic([item][0]) && [item][0].domain == None;
    }
  }
}
