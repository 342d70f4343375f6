/** The data every SERP variant reads: the nested JSON payload returned by the
    results API for one keyword, and the keyword rows read from the warehouse.

    A JSON object is a datatype whose optional fields are the keys that may be
    absent. The whole payload is an `Option<Payload>`: `None` stands for both a
    failed fetch (Python `None`) and an empty object, which every function
    rejects alike through its `not serp_data` test. */
module SerpData {
  import opened Wrappers

  /** One entry of the nested `ads` list of an item of type `ads`. */
  datatype Ad = Ad(domain: Option<string>)

  /** One SERP item: `type`, `domain`, `rank_absolute` and the nested `ads` list. */
  datatype Item = Item(
    kind: Option<string>,
    domain: Option<string>,
    rankAbsolute: Option<int>,
    ads: Option<seq<Ad>>)

  /** One entry of a task's `result` list. */
  datatype ResultEntry = ResultEntry(items: Option<seq<Item>>)

  /** One entry of the payload's `tasks` list. */
  datatype Task = Task(result: Option<seq<ResultEntry>>)

  datatype Payload = Payload(tasks: Option<seq<Task>>)

  const ORGANIC := "organic"
  const PAID := "paid"
  const ADS := "ads"

  const ENABLED := "ENABLED"
  const PAUSED := "PAUSED"

  /** A row of the keyword table: `keyword`, `status` and `domain_url`; a NULL
      column is `None`, and a NULL `domain_url` is compared as Python `None`. */
  datatype KeywordRow = KeywordRow(keyword: string, status: Option<string>, domainUrl: Option<string>)

  /** The structure guard shared by every analysis function: the payload is
      present, has a non-empty `tasks` list whose first task has a non-empty
      `result` list. Yields `tasks[0].result[0]` when it passes. */
  function FirstResult(data: Option<Payload>): Option<ResultEntry> {
    match data
    case None => None
    case Some(p) =>
      if p.tasks.None? || |p.tasks.value| == 0 then None
      else
        var task := p.tasks.value[0];
        if task.result.None? || |task.result.value| == 0 then None
        else Some(task.result.value[0])
  }

  /** A payload whose first result entry is `entry`. */
  function PayloadWith(entry: ResultEntry): Option<Payload> {
    Some(Payload(Some([Task(Some([entry]))])))
  }
}
