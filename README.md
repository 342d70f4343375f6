# Keyword status automation: a Dafny model

This repository keeps paid-search keywords in step with the organic results.

1. A SERP service fetches each keyword's results page for desktop and mobile and decides a new status:
   - `ENABLED` when a competitor advertises;
   - `PAUSED` when the advertiser ranks first organically on both devices;
   - otherwise the stored status is kept.

   It hands the status to the warehouse.
2. Push services read the warehouse's desired statuses and turn every row whose status is valid into one ads-API update operation. They group the rows per customer, honour a dry-run switch and log a tagged history row per operation.
3. A preview script compares the desired statuses with the account's current ones and counts the differences.

The model covers the decision logic, the loops that build operations, counts and maps, and the guards and error paths around them. Each module follows one source file:

| module | file | form |
|---|---|---|
| `SerpData` | JSON payload and keyword rows | datatypes |
| `SerpLogic` | `serp_analysis/logic.py` | pure functions |
| `SerpLegacy` | `serp_analysis.py` | functions, plus a method for the update loop |
| `SerpService` | `serp_analysis/main.py` | methods for the extraction loops and the request handler |
| `DraftChanges` | `draft_changes_to_gads.py` | methods for the dictionary-building and counting loops |
| `AdsOperations` | shared status check, operation building, customer grouping | functions and one method |
| `AdsPushService` | `changes_to_gads/main.py` | methods |
| `AdsPushScript` | `changes_to_gads.py` | methods |
| `CloudFunction` | `main.py` | methods |
| `DryRun` | `4_dry_run_making_changes_to_GoogleAds_account.py` | methods |

JSON payloads are datatypes with `Option` fields: `None` means the key is absent.

- A whole payload of `None` stands for both a failed fetch and an empty object. The source's `not serp_data` test treats the two alike.
- `float('inf')` ranks become the `Infinite` constructor of `SerpService.Rank`.

Every method is proved against a specification function, and the lemmas state what the source promises of that function.

### Where the code and the intended rule differ

The rule is meant to enable a keyword whenever a rival pays for that search. One intended example: with a rival's paid result on mobile and the advertiser ranked one on desktop, the keyword becomes `ENABLED`. The code does not do this.

- `check_for_competitor_ads` only looks at items of type `ads` that carry a nested `ads` list (`serp_analysis/logic.py:7`). A `paid` item is never a competitor ad.
- The two-device rule (`serp_analysis/main.py:269-273`) keeps the stored status when neither branch fires.

So in that example the stored status stays. The model follows the code, and `SerpService.PaidItemDoesNotEnable` proves this behaviour.

## Model

| member | source | states |
|---|---|---|
| SerpLogic.FindCompetitorEntry | serp_analysis/logic.py:8-10 | the inner loop finds a competitor exactly when some ad entry has a `domain` key different from the advertiser's |
| SerpLogic.FindCompetitorAd | serp_analysis/logic.py:6-11 | the outer loop is true exactly when some item is of type `ads`, carries an `ads` list, and names a competitor |
| SerpLogic.FindOwnTopOrganic | serp_analysis/logic.py:18-26 | the loop is true exactly when some organic rank-1 item has the advertiser's domain |
| SerpLogic.CheckForCompetitorAds | serp_analysis/logic.py:1-11 | false when the structure guard fails; otherwise true iff a scanned item is an `ads` block naming a competitor |
| SerpLogic.IsDomainRankedNumberOne | serp_analysis/logic.py:13-26 | false when the guard fails; otherwise true iff a scanned organic rank-1 item is the advertiser's |
| SerpLogic.GuardedShapesGiveFalse | serp_analysis/logic.py:3-16 | each malformed shape the guard names (no payload, no or empty `tasks`, no or empty `result`) makes both predicates false |
| SerpLogic.MissingItemsLikeEmptyList | serp_analysis/logic.py:6-18 | a result entry without `items` behaves like an empty list, and both predicates are then false |
| SerpLogic.OnlyFirstResultMatters | serp_analysis/logic.py:3-18 | payloads with the same `tasks[0].result[0]` give the same answers |
| SerpLogic.NonAdsItemsNeverCompete | serp_analysis/logic.py:7-9 | items not of type `ads`, and ad entries without a foreign `domain`, never make the competitor check true |
| SerpLogic.OtherTopOrganicDoesNotStopSearch | serp_analysis/logic.py:19-22 | a rank-1 item of another domain before the advertiser's own rank-1 item does not end the search |
| SerpLogic.NullDomainUrl | serp_analysis/logic.py:9-21 | with a NULL `domain_url`, every ad entry carrying a domain names a competitor, and a rank-1 organic item without a domain counts as the advertiser's |
| SerpLegacy.CheckForCompetitorAds | serp_analysis.py:51-62 | the script's competitor check: false on a failed guard, else iff some `ads` block names a competitor |
| SerpLegacy.FirstTopOrganicIsOwn | serp_analysis.py:69-78 | the loop returns true iff the first rank-1 organic item exists and is the advertiser's |
| SerpLegacy.IsDomainRankedNumberOne | serp_analysis.py:64-78 | false on a failed guard; otherwise iff the first rank-1 organic item is the advertiser's |
| SerpLegacy.CompetitorChecksAgree | serp_analysis.py:51-62 | the script's competitor check equals the service's |
| SerpLegacy.RankChecksCompared | serp_analysis.py:69-77 | the script's rank check implies the service's, and the two agree when there is at most one rank-1 organic item |
| SerpLegacy.FirstTopOrganicDecides | serp_analysis.py:75-77 | with another domain's rank-1 item first, the script says false where the service says true |
| SerpLegacy.SingleDeviceDecision | serp_analysis.py:126-143 | no decision iff there is no SERP data; the decision is `ENABLED` or `PAUSED`, and `PAUSED` iff there is no competitor ad and the advertiser ranks one |
| SerpLegacy.UpdatesExactlyChangedRows | serp_analysis.py:145-147 | an update is written exactly for the rows whose decision exists and differs from the stored status |
| SerpLegacy.UpdatesChangeStatus | serp_analysis.py:116-147 | there are no more updates than rows; every update writes `ENABLED` or `PAUSED` and comes from a row of that keyword whose stored status differs |
| SerpLegacy.RunScript | serp_analysis.py:110-149 | a failed or empty query writes nothing; otherwise the writes are exactly the changed rows' updates, in row order |
| SerpService.ExtractCompetitorDomains | serp_analysis/main.py:184-216 | empty when `tasks[0].result[0].items` is missing; otherwise the set of non-empty foreign domains that are paid, or organic and ranked strictly better than the advertiser's first organic item |
| SerpService.CompetitorsExcludeOwnAndEmpty | serp_analysis/main.py:207-208 | the set never holds the advertiser's domain or the empty domain |
| SerpService.PaidDomainsIncluded | serp_analysis/main.py:210-211 | every paid item's non-empty foreign domain is collected, whatever the ranks |
| SerpService.OwnRankIsFirstMatch | serp_analysis/main.py:198-201 | the advertiser's rank is that of its first organic item, or infinite when it has none |
| SerpService.OrganicDomainIncludedIff | serp_analysis/main.py:213-214 | a domain with no paid item is collected iff one of its organic items ranks strictly better than the advertiser |
| SerpService.AbsentDomainCollectsAllRankedOrganic | serp_analysis/main.py:190-214 | when the advertiser has no organic item, every ranked organic item with a non-empty foreign domain is collected |
| SerpService.TwoDeviceStatus | serp_analysis/main.py:268-273 | a competitor ad on either device gives `ENABLED`; failing that, rank one on both devices gives `PAUSED`; otherwise the stored status (NULL included) is kept |
| SerpService.CompetitorAdWins | serp_analysis/main.py:254-271 | a competitor ad on either device gives `ENABLED`, whatever the ranks and the stored status |
| SerpService.RankedOneOnBothPauses | serp_analysis/main.py:254-273 | no competitor ad and rank one on both devices gives `PAUSED` |
| SerpService.FailedFetchKeepsStatus | serp_analysis/main.py:251-273 | a failed fetch on one device, with no competitor ad on the other, keeps the stored status |
| SerpService.PaidItemDoesNotEnable | serp_analysis/logic.py:6-10 | a rival's `paid` item on mobile and rank one on desktop leave the stored status unchanged |
| SerpService.SinkCalledForTruthyRows | serp_analysis/main.py:281-282 | the sink is called exactly for the rows whose new status is truthy, with the extraction function object as the competitor argument |
| SerpService.SinkCallsBounded | serp_analysis/main.py:242-282 | there are never more sink calls than rows |
| SerpService.UnchangedStatusStillWritten | serp_analysis/main.py:269-282 | a truthy stored status that the rule leaves alone is still written |
| SerpService.HandleRequest | serp_analysis/main.py:233-285 | a failed query answers 500 with no sink call; otherwise 200 with exactly the sink calls of the truthy rows |
| DraftChanges.LastWinsSpec | draft_changes_to_gads.py:70-77 | the dictionary built by writing pairs in order holds every key written, and the last value written for it |
| DraftChanges.DesiredStatusesLastRowWins | draft_changes_to_gads.py:38 | the last row of a criterion id decides its desired status |
| DraftChanges.CollectAccountKeywords | draft_changes_to_gads.py:70-77 | the nested batch/row loops build the dictionary of all streamed rows, the last row of an id winning |
| DraftChanges.ReportOnPlannedChanges | draft_changes_to_gads.py:83-110 | the count is the number of ids present in both dictionaries whose statuses differ |
| DraftChanges.PlannedChangesBounds | draft_changes_to_gads.py:94-110 | the count is at most the number of desired ids, and zero iff every shared id already has its desired status |
| DraftChanges.MissingIdsNotCounted | draft_changes_to_gads.py:97-108 | an id missing from the account is never counted |
| DraftChanges.PreviewChanges | draft_changes_to_gads.py:113-141 | an empty desired or account dictionary ends the run before comparing; otherwise "in sync" iff nothing is planned, and when something is planned the report is its (positive) count |
| AdsOperations.ParseStatus | changes_to_gads/main.py:97-104 | a status is accepted iff its upper-cased form is `ENABLED` or `PAUSED`, and the accepted status is named by that form |
| AdsOperations.ParseStatusRoundTrip | changes_to_gads/main.py:97-102 | a status name parses back to itself; `enabled` and `Paused` are accepted and `removed` rejected |
| AdsOperations.ParseStatusIgnoresCase | changes_to_gads/main.py:97-102 | upper-casing is idempotent, and every status parses as its upper-cased form does: the check ignores case |
| AdsOperations.OperationsCount | main.py:84-105 | one operation per valid row: the count equals the valid rows and is at most the row count |
| AdsOperations.OperationsAppend | changes_to_gads/main.py:81-106 | the operations of consecutive rows are those of each part in order: input order is kept |
| AdsOperations.OperationsMembership | changes_to_gads.py:44-74 | an operation is produced iff some row's status parses to its status, and it carries that row's ids and the customer |
| AdsOperations.BuildMutateOperations | main.py:84-105 | the loop builds exactly the operations of the valid rows, in row order |
| AdsOperations.StripDashes | changes_to_gads/main.py:213 | the normalised id has no `-` and keeps every other character with its multiplicity |
| AdsOperations.StripDashesKeepsOrder | changes_to_gads/main.py:213 | stripping distributes over concatenation and drops a single character exactly when it is `-`: the other characters keep their order |
| AdsOperations.StripDashesIdempotent | changes_to_gads/main.py:213 | normalising twice is normalising once |
| AdsOperations.CustomerKeysSpec | changes_to_gads/main.py:212 | the group keys are distinct, cover every row's customer, and each comes from some row |
| AdsOperations.GroupSpec | changes_to_gads/main.py:212 | a group holds each row of its customer exactly as often as the table does, and no row of another customer |
| AdsOperations.EveryRowInExactlyOneGroup | changes_to_gads/main.py:212 | every row lies in its own customer's group and in no other, that customer is a key, and the groups of the distinct keys together hold every row exactly once |
| AdsPushService.HistoryAlignedWithOperations | changes_to_gads/main.py:84-106 | the history rows run parallel to the operations: same length and the same ids, new status equal to the operation's and the upper-cased previous status, outcome and details unset |
| AdsPushService.PrepareOperations | changes_to_gads/main.py:77-106 | the loop appends an operation and its history row together, or skips the row |
| AdsPushService.TagHistoryRows | changes_to_gads/main.py:114-133 | every history row gets the given outcome and details, and nothing else changes |
| AdsPushService.UpdateKeywordStatusesInGoogleAds | changes_to_gads/main.py:71-135 | no valid row: nothing is sent or logged; otherwise the mutate call is made unless it is a dry run, and the history rows are tagged with the run's verdict |
| AdsPushService.PushOutcomes | changes_to_gads/main.py:108-133 | one logged row per operation; a dry run makes no call and logs all INFO; live mode logs all SUCCESS, or all FAILURE carrying the joined messages and request id |
| AdsPushService.MainHandler | changes_to_gads/main.py:197-217 | a failed query answers 500 and an empty one 200, both with no push; otherwise one push per distinct customer, under the dash-free id, with that customer's rows |
| AdsPushService.PushGroups | changes_to_gads/main.py:212-214 | the group loop pushes each customer group in turn |
| AdsPushScript.UpdateKeywordStatusesInGoogleAds | changes_to_gads.py:36-91 | the operations are those of the valid rows; the mutate call is made iff there are some and it is not a dry run |
| AdsPushScript.RunScript | changes_to_gads.py:142-149 | a failed or empty query pushes nothing; otherwise one push per distinct customer, under the dash-free id |
| AdsPushScript.PushGroups | changes_to_gads.py:147-149 | the group loop pushes each customer group in turn |
| AdsPushScript.OperationsAcrossGroups | changes_to_gads.py:147-149 | across all groups the operations number exactly the valid rows: grouping neither loses nor duplicates a row |
| CloudFunction.ErrorIndex | main.py:126 | the lookup raises exactly on an empty `fieldPathElements`; a missing location or path gives `"N/A"`; otherwise the first element's index when it has one, else `"N/A"` |
| CloudFunction.SuccessCountBounds | main.py:131-136 | the success count is at most the number of results, and equal to it iff every result has a resource name |
| CloudFunction.CountSuccessful | main.py:131-136 | the loop counts the results with a non-empty resource name |
| CloudFunction.UpdateGoogleAdsKeywords | main.py:74-145 | no rows: nothing is built; otherwise the operations are sent (even if none is valid); the run then fails as a whole, raises in the error lookup, or reports the failed indices and the success count |
| CloudFunction.NoneStaysNone | main.py:125-126 | once one error's index lookup raises, reading the whole error list raises |
| CloudFunction.ErrorIndicesParallel | main.py:125-128 | when no lookup raises there is one reported index per error, in order |
| DryRun.EnablesPlusPauses | 4_dry_run_making_changes_to_GoogleAds_account.py:115-116 | every operation enables or pauses, so the two counts add up to the total |
| DryRun.TallyMatchesRows | 4_dry_run_making_changes_to_GoogleAds_account.py:83-116 | the enable count is the number of rows asking for ENABLED in any case, and the pause count likewise for PAUSED |
| DryRun.TallyStatuses | 4_dry_run_making_changes_to_GoogleAds_account.py:115-116 | the counting loop and `len - enables` give the ENABLED and PAUSED counts |
| DryRun.UpdateGoogleAdsKeywords | 4_dry_run_making_changes_to_GoogleAds_account.py:73-123 | no rows exits early; no valid row prepares nothing; otherwise the operations are prepared with their tallies, which add up to the operation count |

## Left out

- Network and warehouse I/O are parameters or inputs, not calls:
  - the SERP fetch (`get_serp_data`);
  - the keyword queries;
  - the warehouse `UPDATE`;
  - the ads account stream;
  - the mutate call.

  A failed query or fetch is `None`.
- Excluded from the model entirely:
  - logging and `print` output;
  - the secret manager;
  - configuration loading (YAML, environment variables, `google.auth`);
  - client construction;
  - the Flask app factory;
  - signal and exit handlers;
  - the `SERVICE_INITIALIZED` and `bq_project_id` checks that answer 500 before any work.
- `DRY_RUN` comes from an environment variable in the service and a module constant in the script. In the model it is a parameter.
- The invocation id comes from a random UUID and is a parameter. The history rows' `log_timestamp` (the clock) is not represented.
- Only status-bearing fields are kept. The SDK's operation objects are the `Operation` record: resource path parts plus status. Field masks and the resource-path string format are not represented.
- JSON `null` values and values of the wrong type are outside the model. Absent keys are modelled.
  - A `null` `result` or `tasks` behaves like an absent one.
  - A `null` `rank_absolute` (a Python `TypeError` in the comparison) is not represented.
- AdsOperations.Upper: upper-cases ASCII letters only. Python's `str.upper` also maps other letters, so a non-ASCII status that Python would accept is rejected here. The only such spellings write `PAUSED` with U+017F (long s), which Python upper-cases to `S`: `pauſed` is accepted by the source and rejected by the model.
- AdsOperations.CustomerKeys: groups appear in order of first appearance. pandas `groupby` sorts its keys, so the model fixes the set of pushes and each one's content, but not the order between customers.
- pandas turns numeric customer ids into numbers before `str()`. The model takes the id as the text already in the row.
- A NULL `customer_id` in a push row is not modelled: `StatusRow.customerId` is always text. pandas `groupby` drops such rows by default (`changes_to_gads/main.py:212`, `changes_to_gads.py:147`), so they are never pushed. The model's "every row exactly once" holds for tables whose customer ids are all present.
- A NULL `domain_url` in a keyword row is modelled as `None` and compared as Python does (`SerpLogic.NullDomainUrl`). A JSON `null` `domain` inside an ad entry is treated as an absent key; the source counts it as present, so with a non-NULL `domain_url` it names a competitor there and not here.
- A NULL `status` in a push row (`AttributeError` on `.upper()`, swallowed by the script's generic handler) is not modelled.
- A NULL `change_reason` is not modelled. The model's `None` is a missing column, which gets `'N/A'`.
- SerpService.ExtractCompetitorDomains: returns the set. The source returns `list(set)`, whose order Python leaves unspecified.
- The sink `update_keyword_data` is not modelled beyond the arguments it receives.
- The warehouse `WHERE status IN ('ENABLED','PAUSED')` filter of the preview query is not modelled. Any status row is taken as given.
- In the preview script, a failing warehouse query calls `sys.exit(1)`. This is not part of this model.
- Exceptions other than the ads API's exception, and their handlers, are not modelled. This includes the script's generic `except Exception`.
- The error messages of a whole-request failure in `main.py` are printed only. The model records that the request failed and nothing else about them.
- `search_console/gsc_to_bigquery.py` and `2_getting_serp_data_api_call.py` are not part of this model.
