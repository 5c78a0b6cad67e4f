/** The atomic statements of the work queue, as functions of the table `prompt_items`. */
module QueueTable {
  import opened Domain

  // ---------------------------------------------------------------- claiming

  /** PENDING, or CLAIMED with a lease strictly in the past (a NULL lease never is). */
  predicate Claimable(row: Row, now: Time) {
    || row.status.Pending?
    || (row.status.Claimed? && row.leaseUntil.Some? && row.leaseUntil.value < now)
  }

  predicate Eligible(row: Row, job: JobId, now: Time) {
    row.job == job && Claimable(row, now)
  }

  /** SELECT id ... ORDER BY id FOR UPDATE SKIP LOCKED LIMIT size, from id `k` on. */
  function SelectFrom(rows: seq<Row>, job: JobId, now: Time, size: nat, skip: set<nat>, k: nat): seq<nat>
    decreases |rows| - k
  {
    if k >= |rows| || size == 0 then []
    else if Eligible(rows[k], job, now) && k !in skip then
      [k] + SelectFrom(rows, job, now, size - 1, skip, k + 1)
    else SelectFrom(rows, job, now, size, skip, k + 1)
  }

  function Select(rows: seq<Row>, job: JobId, now: Time, size: nat, skip: set<nat>): seq<nat> {
    SelectFrom(rows, job, now, size, skip, 0)
  }

  predicate Ascending(ids: seq<nat>) {
    forall i, k :: 0 <= i < k < |ids| ==> ids[i] < ids[k]
  }

  /** What the claim promises: the `size` lowest unlocked eligible ids, or all of them. */
  ghost predicate IsSelection(rows: seq<Row>, job: JobId, now: Time, size: nat, skip: set<nat>, from: nat,
                              ids: seq<nat>) {
    && Ascending(ids)
    && |ids| <= size
    && (forall k :: 0 <= k < |ids| ==> from <= ids[k] < |rows| && Eligible(rows[ids[k]], job, now) && ids[k] !in skip)
    && (forall i {:trigger i in ids} :: from <= i < |rows| && Eligible(rows[i], job, now) && i !in skip && i !in ids ==>
          |ids| == size && (size > 0 ==> ids[size - 1] < i))
  }

  lemma {:induction false} SelectFromIsSelection(rows: seq<Row>, job: JobId, now: Time, size: nat, skip: set<nat>,
                                                 k: nat)
    ensures IsSelection(rows, job, now, size, skip, k, SelectFrom(rows, job, now, size, skip, k))
    decreases |rows| - k
  {
    if k >= |rows| || size == 0 {
    } else if Eligible(rows[k], job, now) && k !in skip {
      SelectFromIsSelection(rows, job, now, size - 1, skip, k + 1);
      SelectionCons(rows, job, now, size, skip, k, SelectFrom(rows, job, now, size - 1, skip, k + 1));
    } else {
      SelectFromIsSelection(rows, job, now, size, skip, k + 1);
    }
  }

  lemma SelectionCons(rows: seq<Row>, job: JobId, now: Time, size: nat, skip: set<nat>, k: nat, rest: seq<nat>)
    requires k < |rows| && size > 0 && Eligible(rows[k], job, now) && k !in skip
    requires IsSelection(rows, job, now, size - 1, skip, k + 1, rest)
    ensures IsSelection(rows, job, now, size, skip, k, [k] + rest)
  {
    var ids := [k] + rest;
    assert forall n :: 0 < n < |ids| ==> ids[n] == rest[n - 1];
    forall i | k <= i < |rows| && Eligible(rows[i], job, now) && i !in skip && i !in ids
      ensures |ids| == size && ids[size - 1] < i
    {
      assert ids[0] == k;
      assert i !in rest;
    }
  }

  lemma SelectIsSelection(rows: seq<Row>, job: JobId, now: Time, size: nat, skip: set<nat>)
    ensures IsSelection(rows, job, now, size, skip, 0, Select(rows, job, now, size, skip))
  {
    SelectFromIsSelection(rows, job, now, size, skip, 0);
  }

  lemma SelectionHead(rows: seq<Row>, job: JobId, now: Time, size: nat, skip: set<nat>, from: nat, a: seq<nat>, i: nat)
    requires IsSelection(rows, job, now, size, skip, from, a) && size > 0
    requires from <= i < |rows| && Eligible(rows[i], job, now) && i !in skip
    ensures a != [] && a[0] <= i
  {
    if i in a {
      var k :| 0 <= k < |a| && a[k] == i;
    } else {
      assert a[0] in a;
    }
  }

  lemma SelectionTail(rows: seq<Row>, job: JobId, now: Time, size: nat, skip: set<nat>, from: nat, a: seq<nat>)
    requires IsSelection(rows, job, now, size, skip, from, a) && a != []
    ensures size > 0 && IsSelection(rows, job, now, size - 1, skip, a[0] + 1, a[1..])
  {
    var t := a[1..];
    assert forall k :: 0 <= k < |t| ==> t[k] == a[k + 1];
    forall i | a[0] + 1 <= i < |rows| && Eligible(rows[i], job, now) && i !in skip && i !in t
      ensures |t| == size - 1 && (size > 1 ==> t[size - 2] < i)
    {
      assert i !in a by { assert a == [a[0]] + t; }
    }
  }

  /** The promise determines the claim: no other list of ids satisfies it. */
  lemma {:induction false} SelectionUnique(rows: seq<Row>, job: JobId, now: Time, size: nat, skip: set<nat>, from: nat,
                                           a: seq<nat>, b: seq<nat>)
    requires IsSelection(rows, job, now, size, skip, from, a)
    requires IsSelection(rows, job, now, size, skip, from, b)
    ensures a == b
    decreases |a|
  {
    if a == [] {
      if b != [] { SelectionHead(rows, job, now, size, skip, from, a, b[0]); }
    } else {
      SelectionHead(rows, job, now, size, skip, from, b, a[0]);
      SelectionHead(rows, job, now, size, skip, from, a, b[0]);
      SelectionTail(rows, job, now, size, skip, from, a);
      SelectionTail(rows, job, now, size, skip, from, b);
      SelectionUnique(rows, job, now, size - 1, skip, a[0] + 1, a[1..], b[1..]);
      assert a == [a[0]] + a[1..];
      assert b == [b[0]] + b[1..];
    }
  }

  /** UPDATE ... SET status = 'CLAIMED', worker_id, lease_until, attempts + 1 on the selected ids. */
  function ClaimRows(rows: seq<Row>, ids: set<nat>, w: WorkerId, lease: Time): (r: seq<Row>) {
    seq(|rows|, i requires 0 <= i < |rows| =>
      if i in ids then
        rows[i].(status := Claimed, workerId := Some(w), leaseUntil := Some(lease), attempts := rows[i].attempts + 1)
      else rows[i])
  }

  function ItemOf(row: Row, id: nat): ClaimedItem {
    ClaimedItem(id, row.externalId, row.prompt.GetOr(""), row.attempts)
  }

  /** RETURNING: the claimed rows in the (unspecified) order the database reports them. */
  function Items(rows: seq<Row>, order: seq<nat>): seq<ClaimedItem>
    requires forall k :: 0 <= k < |order| ==> order[k] < |rows|
  {
    seq(|order|, k requires 0 <= k < |order| => ItemOf(rows[order[k]], order[k]))
  }

  // ------------------------------------------------- renewing and completing

  predicate Owned(row: Row, w: WorkerId) {
    row.workerId == Some(w) && row.status.Claimed?
  }

  function RenewRows(rows: seq<Row>, w: WorkerId, lease: Time): seq<Row> {
    seq(|rows|, i requires 0 <= i < |rows| =>
      if Owned(rows[i], w) then rows[i].(leaseUntil := Some(lease)) else rows[i])
  }

  function Stamp(row: Row, r: ResultRecord, ref: ChunkRef): Row {
    row.(status := r.status, resultRef := Some(ref), error := r.error, attempts := r.attempts)
  }

  /** One `_COMPLETE_SQL`: keyed by worker and external id only, not by job. */
  function CompleteOne(rows: seq<Row>, w: WorkerId, r: ResultRecord, ref: ChunkRef): seq<Row> {
    seq(|rows|, i requires 0 <= i < |rows| =>
      if Owned(rows[i], w) && rows[i].externalId == r.externalId then Stamp(rows[i], r, ref) else rows[i])
  }

  function CompleteRows(rows: seq<Row>, w: WorkerId, results: seq<ResultRecord>, ref: ChunkRef): seq<Row>
    decreases |results|
  {
    if results == [] then rows
    else CompleteRows(CompleteOne(rows, w, results[0], ref), w, results[1..], ref)
  }

  /** The first record for an external id, if there is one. */
  function Match(results: seq<ResultRecord>, externalId: string): Option<ResultRecord> {
    if results == [] then None
    else if results[0].externalId == externalId then Some(results[0])
    else Match(results[1..], externalId)
  }

  /** Row by row: only rows still CLAIMED by `w` change, and the first matching record wins. */
  lemma {:induction false} CompleteRowsAt(rows: seq<Row>, w: WorkerId, results: seq<ResultRecord>, ref: ChunkRef,
                                          i: nat)
    requires i < |rows|
    ensures |CompleteRows(rows, w, results, ref)| == |rows|
    ensures CompleteRows(rows, w, results, ref)[i] ==
            if Owned(rows[i], w) && Match(results, rows[i].externalId).Some?
            then Stamp(rows[i], Match(results, rows[i].externalId).value, ref)
            else rows[i]
    decreases |results|
  {
    if results != [] {
      CompleteRowsAt(CompleteOne(rows, w, results[0], ref), w, results[1..], ref, i);
    }
  }

  lemma {:induction false} MatchAt(results: seq<ResultRecord>, externalId: string)
    ensures Match(results, externalId).Some? ==>
              exists k :: 0 <= k < |results| && results[k] == Match(results, externalId).value
                          && results[k].externalId == externalId
                          && forall l :: 0 <= l < k ==> results[l].externalId != externalId
    ensures Match(results, externalId).None? ==>
              forall k :: 0 <= k < |results| ==> results[k].externalId != externalId
  {
    if results != [] && results[0].externalId != externalId {
      MatchAt(results[1..], externalId);
      if Match(results[1..], externalId).Some? {
        var k :| 0 <= k < |results[1..]| && results[1..][k] == Match(results[1..], externalId).value
                 && results[1..][k].externalId == externalId
                 && forall l :: 0 <= l < k ==> results[1..][l].externalId != externalId;
        assert results[k + 1] == results[1..][k];
        forall l | 0 <= l < k + 1 ensures results[l].externalId != externalId {
          if l > 0 { assert results[l] == results[1..][l - 1]; }
        }
      } else {
        forall k | 0 <= k < |results| ensures results[k].externalId != externalId {
          if k > 0 { assert results[k] == results[1..][k - 1]; }
        }
      }
    }
  }

  /** The rows one `_COMPLETE_SQL` statement matches; its row count is their number. */
  function Touched(rows: seq<Row>, w: WorkerId, externalId: string): set<nat> {
    set i: nat | i < |rows| && Owned(rows[i], w) && rows[i].externalId == externalId
  }

  /** The sum of the row counts, which `complete_items` returns. */
  function CompleteCount(rows: seq<Row>, w: WorkerId, results: seq<ResultRecord>, ref: ChunkRef): nat
    decreases |results|
  {
    if results == [] then 0
    else |Touched(rows, w, results[0].externalId)|
         + CompleteCount(CompleteOne(rows, w, results[0], ref), w, results[1..], ref)
  }

  /** The rows a call to `complete_items` makes terminal. */
  function Finalised(rows: seq<Row>, w: WorkerId, results: seq<ResultRecord>): set<nat> {
    set i: nat | i < |rows| && Owned(rows[i], w) && Match(results, rows[i].externalId).Some?
  }

  /** The returned count is the number of rows made terminal: no row is counted twice. */
  lemma {:induction false} CompleteCountIs(rows: seq<Row>, w: WorkerId, results: seq<ResultRecord>, ref: ChunkRef)
    ensures CompleteCount(rows, w, results, ref) == |Finalised(rows, w, results)|
    decreases |results|
  {
    if results == [] {
      assert Finalised(rows, w, results) == {};
    } else {
      var next := CompleteOne(rows, w, results[0], ref);
      var first, rest := Touched(rows, w, results[0].externalId), Finalised(next, w, results[1..]);
      CompleteCountIs(next, w, results[1..], ref);
      assert Finalised(rows, w, results) == first + rest;
      assert first !! rest;
    }
  }

  // --------------------------------------------------------------- inserting

  predicate SameKey(a: Row, b: Row) {
    a.job == b.job && a.externalId == b.externalId
  }

  predicate HasKey(rows: seq<Row>, job: JobId, externalId: string) {
    exists i :: 0 <= i < |rows| && rows[i].job == job && rows[i].externalId == externalId
  }

  ghost predicate UniqueKeys(rows: seq<Row>) {
    forall i, k :: 0 <= i < k < |rows| ==> !SameKey(rows[i], rows[k])
  }

  function PendingRow(job: JobId, item: PromptItem): Row {
    Row(job, item.externalId, Some(item.prompt), Pending, 0, None, None, None, None)
  }

  function RejectedRow(job: JobId, externalId: string): Row {
    Row(job, externalId, None, Failed, 0, None, None, None, None)
  }

  /** The VALUES list of one insert: accepted items first, rejected ids after them. */
  function NewRows(job: JobId, items: seq<PromptItem>, failed: seq<string>): seq<Row> {
    seq(|items|, i requires 0 <= i < |items| => PendingRow(job, items[i]))
    + seq(|failed|, i requires 0 <= i < |failed| => RejectedRow(job, failed[i]))
  }

  /** INSERT ... ON CONFLICT (job_id, external_id) DO NOTHING. */
  function InsertOne(rows: seq<Row>, row: Row): seq<Row> {
    if HasKey(rows, row.job, row.externalId) then rows else rows + [row]
  }

  function InsertRows(rows: seq<Row>, new_: seq<Row>): (r: seq<Row>)
    ensures rows <= r
    decreases |new_|
  {
    if new_ == [] then rows else InsertRows(InsertOne(rows, new_[0]), new_[1..])
  }

  lemma {:induction false} InsertRowsFacts(rows: seq<Row>, new_: seq<Row>)
    ensures var r := InsertRows(rows, new_);
            && rows <= r && (forall i :: |rows| <= i < |r| ==> r[i] in new_)
            && (UniqueKeys(rows) ==> UniqueKeys(r))
            && (forall row <- new_ :: HasKey(r, row.job, row.externalId))
    decreases |new_|
  {
    if new_ != [] {
      var mid := InsertOne(rows, new_[0]);
      var r := InsertRows(mid, new_[1..]);
      InsertRowsFacts(mid, new_[1..]);
      forall i | |rows| <= i < |r| ensures r[i] in new_ {
        if i < |mid| { assert r[i] == mid[i] == new_[0]; } else { assert r[i] in new_[1..]; }
      }
      forall row | row in new_ ensures HasKey(r, row.job, row.externalId) {
        if row == new_[0] {
          var i :| 0 <= i < |mid| && mid[i].job == row.job && mid[i].externalId == row.externalId;
          assert r[i] == mid[i];
        } else {
          assert row in new_[1..];
        }
      }
    }
  }

  // ------------------------------------------------------------ what is left

  /** No live lease on a row of the job. */
  predicate LeasesExpired(rows: seq<Row>, job: JobId, now: Time) {
    forall i :: 0 <= i < |rows| && rows[i].job == job && rows[i].status.Claimed? ==> Claimable(rows[i], now)
  }

  predicate AllTerminal(rows: seq<Row>, job: JobId) {
    forall i :: 0 <= i < |rows| && rows[i].job == job ==> Terminal(rows[i].status)
  }

  // ---------------------------------------------------------------- counting

  /** The ids of a job's rows with a given status; `count_by_status` reports its size. */
  function WithStatus(rows: seq<Row>, job: JobId, status: Status): set<nat> {
    set i: nat | i < |rows| && rows[i].job == job && rows[i].status == status
  }

  function OfJob(rows: seq<Row>, job: JobId): set<nat> {
    set i: nat | i < |rows| && rows[i].job == job
  }
}
