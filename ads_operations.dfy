/** What every ads-push variant shares: status validation by upper-casing,
    the operation record produced per valid row, and the grouping of rows by
    customer with customer-id normalisation. An operation is the record
    (customer, ad group, criterion, status) the ads SDK would be given. */
module AdsOperations {
  import opened Wrappers

  /** ASCII upper-casing of one character. */
  function UpperChar(c: char): char {
    if 'a' <= c <= 'z' then (c as int - 32) as char else c
  }

  /** `str.upper()` on ASCII text. */
  function Upper(s: string): string {
    seq(|s|, i requires 0 <= i < |s| => UpperChar(s[i]))
  }

  /** The two statuses an operation may set. */
  datatype AdStatus = Enabled | Paused

  function StatusName(s: AdStatus): string {
    match s
    case Enabled => "ENABLED"
    case Paused => "PAUSED"
  }

  /** The status check of every push loop: the upper-cased status must be
      `ENABLED` or `PAUSED`; anything else is skipped. */
  function ParseStatus(raw: string): (r: Option<AdStatus>)
    ensures r.Some? <==> Upper(raw) == "ENABLED" || Upper(raw) == "PAUSED"
    ensures r.Some? ==> StatusName(r.value) == Upper(raw)
  {
    var newStatus := Upper(raw);
    if newStatus == "ENABLED" then Some(Enabled)
    else if newStatus == "PAUSED" then Some(Paused)
    else None
  }

  /** A status name parses back to itself, and the check ignores case. */
  lemma ParseStatusRoundTrip(s: AdStatus)
    ensures ParseStatus(StatusName(s)) == Some(s)
    ensures ParseStatus("enabled") == Some(Enabled) && ParseStatus("Paused") == Some(Paused)
    ensures ParseStatus("removed") == None
  {
    assert Upper("ENABLED") == "ENABLED";
    assert Upper("PAUSED") == "PAUSED";
    assert Upper("enabled") == "ENABLED";
    assert Upper("Paused") == "PAUSED";
    assert Upper("removed") == "REMOVED";
  }

  /** The check sees only the upper-cased text: upper-casing first changes nothing. */
  lemma ParseStatusIgnoresCase(raw: string)
    ensures Upper(Upper(raw)) == Upper(raw)
    ensures ParseStatus(Upper(raw)) == ParseStatus(raw)
  {
    assert forall i | 0 <= i < |raw| :: Upper(Upper(raw))[i] == UpperChar(UpperChar(raw[i])) == Upper(raw)[i];
  }

  /** The three columns every push loop reads from a row. */
  datatype Change = Change(adGroupId: string, criterionId: string, status: string)

  /** One prepared update: `customers/{customer}/adGroupCriteria/{ad group}~{criterion}` set to `status`. */
  datatype Operation = Operation(customerId: string, adGroupId: string, criterionId: string, status: AdStatus)

  /** The operations of a push loop: one per change whose status is valid, in
      input order; the others are skipped. */
  function Operations(customerId: string, changes: seq<Change>): seq<Operation> {
    if changes == [] then []
    else Operations(customerId, changes[..|changes| - 1]) + OperationFor(customerId, changes[|changes| - 1])
  }

  /** The operation a single change yields: none when its status is invalid. */
  function OperationFor(customerId: string, change: Change): seq<Operation> {
    var status := ParseStatus(change.status);
    if status.Some? then [Operation(customerId, change.adGroupId, change.criterionId, status.value)] else []
  }

  /** The number of changes whose status is valid. */
  function ValidCount(changes: seq<Change>): nat {
    if changes == [] then 0
    else ValidCount(changes[..|changes| - 1]) + (if ParseStatus(changes[|changes| - 1].status).Some? then 1 else 0)
  }

  /** Exactly one operation per valid change: the operation count is the
      number of valid changes and at most the number of changes. */
  lemma {:induction false} OperationsCount(customerId: string, changes: seq<Change>)
    ensures |Operations(customerId, changes)| == ValidCount(changes) <= |changes|
  {
    if changes != [] {
      OperationsCount(customerId, changes[..|changes| - 1]);
    }
  }

  /** The operations of consecutive runs of rows are those of each run, in
      order: the loop keeps the input order. */
  lemma {:induction false} OperationsAppend(customerId: string, a: seq<Change>, b: seq<Change>)
    ensures Operations(customerId, a + b) == Operations(customerId, a) + Operations(customerId, b)
  {
    if b == [] {
      assert a + b == a;
    } else {
      var b0, last := b[..|b| - 1], b[|b| - 1];
      assert b == b0 + [last];
      OperationsAppend(customerId, a, b0);
      assert a + b == (a + b0) + [last];
      OperationsSnoc(customerId, a + b0, last);
      OperationsSnoc(customerId, b0, last);
      ConcatAssociative(Operations(customerId, a), Operations(customerId, b0), OperationFor(customerId, last));
    }
  }

  lemma ConcatAssociative<T>(x: seq<T>, y: seq<T>, z: seq<T>)
    ensures (x + y) + z == x + (y + z)
  {
  }

  lemma OperationsSnoc(customerId: string, changes: seq<Change>, change: Change)
    ensures Operations(customerId, changes + [change]) == Operations(customerId, changes) + OperationFor(customerId, change)
  {
    assert (changes + [change])[..|changes|] == changes;
  }

  /** An operation is produced exactly for a change with a valid status, and
      carries that change's ids and its upper-cased status. */
  lemma {:induction false} OperationsMembership(customerId: string, changes: seq<Change>, op: Operation)
    ensures op in Operations(customerId, changes) <==>
      exists i | 0 <= i < |changes| ::
        && ParseStatus(changes[i].status) == Some(op.status)
        && op == Operation(customerId, changes[i].adGroupId, changes[i].criterionId, op.status)
  {
    if changes != [] {
      var init := changes[..|changes| - 1];
      var last := changes[|changes| - 1];
      OperationsMembership(customerId, init, op);
      OperationForMembership(customerId, last, op);
      assert Operations(customerId, changes) == Operations(customerId, init) + OperationFor(customerId, last);
      assert forall i | 0 <= i < |init| :: init[i] == changes[i];
    }
  }

  lemma OperationForMembership(customerId: string, change: Change, op: Operation)
    ensures op in OperationFor(customerId, change) <==>
      ParseStatus(change.status) == Some(op.status) && op == Operation(customerId, change.adGroupId, change.criterionId, op.status)
  {
  }

  /** The operation-building loop of the cloud function (and of its dry-run
      copy): one operation per row whose upper-cased status is valid, in row
      order. */
  method BuildMutateOperations(customerId: string, rows: seq<Change>) returns (mutateOperations: seq<Operation>)
    ensures mutateOperations == Operations(customerId, rows)
  {
    mutateOperations := [];
    var n := 0;
    while n < |rows|
      invariant 0 <= n <= |rows|
      invariant mutateOperations == Operations(customerId, rows[..n])
    {
      var row := rows[n];
      assert rows[..n + 1][..n] == rows[..n];
      var newStatus := Upper(row.status);
      if newStatus != "ENABLED" && newStatus != "PAUSED" {
        n := n + 1;
        continue;
      }
      var status := if newStatus == "ENABLED" then Enabled else Paused;
      mutateOperations := mutateOperations + [Operation(customerId, row.adGroupId, row.criterionId, status)];
      n := n + 1;
    }
    assert rows[..n] == rows;
  }

  /** A warehouse row of the push services: `customer_id`, `adgroup_id`,
      `criterion_id`, `status`, and the `keyword` and `change_reason` columns
      the history log reads (`None` when the column is absent). */
  datatype StatusRow = StatusRow(
    customerId: string,
    adGroupId: string,
    criterionId: string,
    status: string,
    keyword: string,
    changeReason: Option<string>)

  function Changes(rows: seq<StatusRow>): seq<Change> {
    seq(|rows|, i requires 0 <= i < |rows| => Change(rows[i].adGroupId, rows[i].criterionId, rows[i].status))
  }

  lemma ChangesPrefix(rows: seq<StatusRow>, n: int)
    requires 0 <= n < |rows|
    ensures Changes(rows[..n + 1]) == Changes(rows[..n]) + [Change(rows[n].adGroupId, rows[n].criterionId, rows[n].status)]
  {
  }

  /** A row appended to a table adds one valid change exactly when its status parses. */
  lemma ValidCountAppend(rows: seq<StatusRow>, r: StatusRow)
    ensures ValidCount(Changes(rows + [r])) == ValidCount(Changes(rows)) + (if ParseStatus(r.status).Some? then 1 else 0)
  {
    var cs := Changes(rows + [r]);
    assert cs[..|cs| - 1] == Changes(rows);
    assert cs[|cs| - 1].status == r.status;
  }

  /** `str(customer_id).replace("-", "")`. */
  function StripDashes(s: string): (r: string)
    ensures '-' !in r
    ensures forall c | c != '-' :: multiset(r)[c] == multiset(s)[c]
  {
    if s == [] then []
    else
      var rest := StripDashes(s[1..]);
      assert s == [s[0]] + s[1..];
      if s[0] == '-' then rest else [s[0]] + rest
  }

  /** Stripping keeps the order of the other characters: it works character
      by character, and a character is dropped exactly when it is a dash. */
  lemma {:induction false} StripDashesKeepsOrder(a: string, b: string)
    ensures StripDashes(a + b) == StripDashes(a) + StripDashes(b)
    ensures |a| == 1 ==> StripDashes(a) == if a[0] == '-' then [] else a
  {
    if a == [] {
      assert a + b == b;
    } else {
      StripDashesKeepsOrder(a[1..], b);
      assert (a + b)[1..] == a[1..] + b;
      if |a| == 1 {
        assert a[1..] == [];
      }
    }
  }

  /** Normalising twice is normalising once. */
  lemma {:induction false} StripDashesIdempotent(s: string)
    ensures StripDashes(StripDashes(s)) == StripDashes(s)
  {
    if s != [] {
      StripDashesIdempotent(s[1..]);
      if s[0] != '-' {
        assert ([s[0]] + StripDashes(s[1..]))[1..] == StripDashes(s[1..]);
      }
    }
  }

  /** The distinct raw customer ids of `rows`, in order of first appearance. */
  function CustomerKeys(rows: seq<StatusRow>): seq<string> {
    if rows == [] then []
    else
      var keys := CustomerKeys(rows[..|rows| - 1]);
      var c := rows[|rows| - 1].customerId;
      if c in keys then keys else keys + [c]
  }

  /** The rows of one customer, in row order. */
  function Group(rows: seq<StatusRow>, key: string): seq<StatusRow> {
    if rows == [] then []
    else Group(rows[..|rows| - 1], key) + (if rows[|rows| - 1].customerId == key then [rows[|rows| - 1]] else [])
  }

  predicate Distinct(keys: seq<string>) {
    forall i, j | 0 <= i < j < |keys| :: keys[i] != keys[j]
  }

  /** The total size of the groups of `keys`. */
  function GroupSizes(rows: seq<StatusRow>, keys: seq<string>): nat {
    if keys == [] then 0 else |Group(rows, keys[0])| + GroupSizes(rows, keys[1..])
  }

  function Occurrences(keys: seq<string>, c: string): nat {
    if keys == [] then 0 else (if keys[0] == c then 1 else 0) + Occurrences(keys[1..], c)
  }

  /** The keys are distinct and name every row's customer. */
  lemma {:induction false} CustomerKeysSpec(rows: seq<StatusRow>)
    ensures Distinct(CustomerKeys(rows))
    ensures forall i | 0 <= i < |rows| :: rows[i].customerId in CustomerKeys(rows)
    ensures forall k | k in CustomerKeys(rows) :: exists i | 0 <= i < |rows| :: rows[i].customerId == k
  {
    if rows != [] {
      var init := rows[..|rows| - 1];
      CustomerKeysSpec(init);
      assert forall i | 0 <= i < |init| :: init[i] == rows[i];
    }
  }

  /** A group holds exactly the rows of its customer, each as often as the
      table does, and no other row. */
  lemma {:induction false} GroupSpec(rows: seq<StatusRow>, key: string)
    ensures forall r | r in Group(rows, key) :: r.customerId == key && r in rows
    ensures forall r :: multiset(Group(rows, key))[r] == if r.customerId == key then multiset(rows)[r] else 0
    ensures |Group(rows, key)| <= |rows|
  {
    GroupCounts(rows, key);
    if rows != [] {
      GroupSpec(rows[..|rows| - 1], key);
    }
  }

  lemma {:induction false} GroupCounts(rows: seq<StatusRow>, key: string)
    ensures forall r :: multiset(Group(rows, key))[r] == if r.customerId == key then multiset(rows)[r] else 0
  {
    if rows != [] {
      var init, last := rows[..|rows| - 1], rows[|rows| - 1];
      GroupCounts(init, key);
      assert rows == init + [last];
      var tail := if last.customerId == key then [last] else [];
      assert multiset(Group(rows, key)) == multiset(Group(init, key)) + multiset(tail);
    }
  }

  lemma {:induction false} GroupSizesAppend(rows: seq<StatusRow>, r: StatusRow, keys: seq<string>)
    ensures GroupSizes(rows + [r], keys) == GroupSizes(rows, keys) + Occurrences(keys, r.customerId)
  {
    if keys != [] {
      GroupSizesAppend(rows, r, keys[1..]);
      assert (rows + [r])[..|rows + [r]| - 1] == rows;
    }
  }

  lemma {:induction false} OccursOnce(keys: seq<string>, c: string)
    requires Distinct(keys) && c in keys
    ensures Occurrences(keys, c) == 1
  {
    if keys[0] == c {
      NotOccurring(keys[1..], c);
    } else {
      OccursOnce(keys[1..], c);
    }
  }

  lemma {:induction false} NotOccurring(keys: seq<string>, c: string)
    requires c !in keys
    ensures Occurrences(keys, c) == 0
  {
    if keys != [] {
      NotOccurring(keys[1..], c);
    }
  }

  lemma {:induction false} GroupSizesCover(rows: seq<StatusRow>, keys: seq<string>)
    requires Distinct(keys)
    requires forall i | 0 <= i < |rows| :: rows[i].customerId in keys
    ensures GroupSizes(rows, keys) == |rows|
  {
    if rows == [] {
      GroupSizesOfNothing(keys);
    } else {
      var init := rows[..|rows| - 1];
      var last := rows[|rows| - 1];
      GroupSizesCover(init, keys);
      GroupSizesAppend(init, last, keys);
      OccursOnce(keys, last.customerId);
      assert init + [last] == rows;
    }
  }

  lemma {:induction false} GroupSizesOfNothing(keys: seq<string>)
    ensures GroupSizes([], keys) == 0
  {
    if keys != [] {
      GroupSizesOfNothing(keys[1..]);
    }
  }

  /** Grouping by customer processes every row exactly once: each row lies in
      the group of its own customer and in no other, that customer is one of
      the distinct keys, and the sizes of their groups add up to the number of
      rows. */
  lemma EveryRowInExactlyOneGroup(rows: seq<StatusRow>)
    ensures Distinct(CustomerKeys(rows))
    ensures forall i | 0 <= i < |rows| :: rows[i].customerId in CustomerKeys(rows)
    ensures forall i, k | 0 <= i < |rows| :: rows[i] in Group(rows, k) <==> k == rows[i].customerId
    ensures GroupSizes(rows, CustomerKeys(rows)) == |rows|
  {
    CustomerKeysSpec(rows);
    GroupSizesCover(rows, CustomerKeys(rows));
    forall i, k | 0 <= i < |rows|
      ensures rows[i] in Group(rows, k) <==> k == rows[i].customerId
    {
      GroupSpec(rows, k);
      assert multiset(rows)[rows[i]] > 0;
    }
  }
}
