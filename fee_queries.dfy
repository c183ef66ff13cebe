/**
 * The read-only queries of the two controllers, as functions of the two
 * tables. Every list is ordered by `createdAt`, newest first; the fee lists
 * are joined with a summary of the owning athlete (id, full name, card
 * number), a LEFT OUTER JOIN, so a fee without its athlete would carry no
 * summary.
 */
module FeeQueries {
  import opened Wrappers
  import opened Http
  import opened Ordering
  import opened AthletesModel
  import opened FeesModel

  /** The athlete columns the fee queries include: `["id", "full_name", "nic_number"]`. */
  datatype AthleteSummary = AthleteSummary(id: int, fullName: string, nicNumber: string)

  /** A fee row as the fee queries return it. */
  datatype FeeRow = FeeRow(id: int, fee: Fee, athlete: Option<AthleteSummary>)

  /** An athlete row as the athlete queries return it. */
  datatype AthleteRow = AthleteRow(id: int, athlete: Athlete)

  /** A fee with its id, as `Fees.create` returns it (no include). */
  datatype CreatedFee = CreatedFee(id: int, fee: Fee)

  function FeeRowCreatedAt(r: FeeRow): int { r.fee.createdAt }

  function AthleteRowCreatedAt(r: AthleteRow): int { r.athlete.createdAt }

  /** Keys drawn from an auto-increment counter: every key lies in [1, next). */
  ghost predicate KeysBelow<V>(m: map<int, V>, next: int) {
    forall id :: id in m ==> 1 <= id < next
  }

  /** The joined summary of athlete `id`, if that athlete exists. */
  function SummaryOf(athletes: map<int, Athlete>, id: int): (s: Option<AthleteSummary>)
    ensures s.Some? <==> id in athletes
    ensures s.Some? ==> s.value == AthleteSummary(id, athletes[id].fullName, athletes[id].nicNumber)
  {
    if id in athletes then Some(AthleteSummary(id, athletes[id].fullName, athletes[id].nicNumber)) else None
  }

  /** Fee `id` joined with its athlete. */
  function RowOf(athletes: map<int, Athlete>, fees: map<int, Fee>, id: int): FeeRow
    requires id in fees
  {
    FeeRow(id, fees[id], SummaryOf(athletes, fees[id].athleteId))
  }

  /** The `where` clause of a fee list: none, or `endDate BETWEEN lo AND hi`. */
  datatype FeeFilter = AnyFee | EndsWithin(lo: int, hi: int)

  /** Whether a fee passes the `where` clause. */
  predicate Keeps(filter: FeeFilter, f: Fee) {
    match filter
    case AnyFee => true
    case EndsWithin(lo, hi) => lo <= f.endDate <= hi
  }

  /** The rows of the fees listed in `ids` that pass `keep`, in the order of `ids`. */
  function RowsWhere(athletes: map<int, Athlete>, fees: map<int, Fee>, ids: seq<int>, keep: FeeFilter): (rows: seq<FeeRow>)
    requires forall k :: 0 <= k < |ids| ==> ids[k] in fees
    ensures forall r :: r in rows ==> r.id in ids && r == RowOf(athletes, fees, r.id) && Keeps(keep, fees[r.id])
    ensures forall id :: id in ids && Keeps(keep, fees[id]) ==> RowOf(athletes, fees, id) in rows
  {
    if ids == [] then []
    else
      var rest := RowsWhere(athletes, fees, ids[1..], keep);
      if Keeps(keep, fees[ids[0]]) then [RowOf(athletes, fees, ids[0])] + rest else rest
  }

  /** Over ascending ids no row is listed twice. */
  lemma {:induction false} RowsWhereDistinct(athletes: map<int, Athlete>, fees: map<int, Fee>, ids: seq<int>, keep: FeeFilter)
    requires forall k :: 0 <= k < |ids| ==> ids[k] in fees
    requires Increasing(ids)
    ensures NoDuplicates(RowsWhere(athletes, fees, ids, keep))
  {
    if ids != [] {
      assert ids[0] in ids;
      var tail := ids[1..];
      assert Increasing(tail) by {
        forall i, j | 0 <= i < j < |tail| ensures tail[i] < tail[j] { assert tail[i] == ids[i + 1] && tail[j] == ids[j + 1]; }
      }
      RowsWhereDistinct(athletes, fees, tail, keep);
      var rest := RowsWhere(athletes, fees, tail, keep);
      forall r | r in rest ensures ids[0] < r.id {
        var k :| 0 <= k < |tail| && tail[k] == r.id;
        assert tail[k] == ids[k + 1];
      }
      if Keeps(keep, fees[ids[0]]) {
        ConsDistinct(RowOf(athletes, fees, ids[0]), rest);
      }
    }
  }

  /** All fee rows passing `keep`, newest first. */
  function FeesWhere(athletes: map<int, Athlete>, fees: map<int, Fee>, next: int, keep: FeeFilter): (rows: seq<FeeRow>)
    requires KeysBelow(fees, next)
    ensures forall id :: id in fees ==> (RowOf(athletes, fees, id) in rows <==> Keeps(keep, fees[id]))
    ensures forall r :: r in rows ==> r.id in fees && r == RowOf(athletes, fees, r.id) && Keeps(keep, r.fee)
    ensures NewestFirst(rows, FeeRowCreatedAt)
    ensures NoDuplicates(rows)
  {
    var ids := IdsIn(fees.Keys, 1, next);
    var unsorted := RowsWhere(athletes, fees, ids, keep);
    RowsWhereDistinct(athletes, fees, ids, keep);
    var rows := SortNewestFirst(unsorted, FeeRowCreatedAt);
    PermutationKeepsDistinct(unsorted, rows);
    PermutationKeepsElements(unsorted, rows);
    rows
  }

  /**
   * `getFeesInRange` once both bounds are present: exactly the fees whose end
   * date lies in [lo, hi], each once, newest first, none at all when lo > hi.
   */
  function FeesInRange(athletes: map<int, Athlete>, fees: map<int, Fee>, next: int, lo: int, hi: int): (rows: seq<FeeRow>)
    requires KeysBelow(fees, next)
    ensures forall id :: id in fees ==> (RowOf(athletes, fees, id) in rows <==> lo <= fees[id].endDate <= hi)
    ensures forall r :: r in rows ==> r.id in fees && r == RowOf(athletes, fees, r.id)
    ensures NewestFirst(rows, FeeRowCreatedAt)
    ensures forall i, j :: 0 <= i < j < |rows| ==> rows[i].id != rows[j].id
    ensures lo > hi ==> rows == []
  {
    var rows := FeesWhere(athletes, fees, next, EndsWithin(lo, hi));
    DistinctRowsHaveDistinctIds(athletes, fees, rows);
    assert forall r :: r in rows ==> lo <= hi;
    assert rows != [] ==> rows[0] in rows;
    rows
  }

  /** Rows determined by their ids and listed once each carry distinct ids. */
  lemma DistinctRowsHaveDistinctIds(athletes: map<int, Athlete>, fees: map<int, Fee>, rows: seq<FeeRow>)
    requires forall r :: r in rows ==> r.id in fees && r == RowOf(athletes, fees, r.id)
    requires NoDuplicates(rows)
    ensures forall i, j :: 0 <= i < j < |rows| ==> rows[i].id != rows[j].id
  {
    forall i, j | 0 <= i < j < |rows| ensures rows[i].id != rows[j].id {
      assert rows[i] in rows && rows[j] in rows;
    }
  }

  /** `getAllFees`: every fee exactly once, newest first. */
  function AllFees(athletes: map<int, Athlete>, fees: map<int, Fee>, next: int): (rows: seq<FeeRow>)
    requires KeysBelow(fees, next)
    ensures forall id :: id in fees ==> RowOf(athletes, fees, id) in rows
    ensures forall r :: r in rows ==> r.id in fees && r == RowOf(athletes, fees, r.id)
    ensures NewestFirst(rows, FeeRowCreatedAt)
    ensures |rows| == |fees|
  {
    var rows := FeesWhere(athletes, fees, next, AnyFee);
    DistinctRowsCoverFees(athletes, fees, rows);
    rows
  }

  /** A duplicate-free list of exactly the rows of `fees` has one entry per fee. */
  lemma {:induction false} DistinctRowsCoverFees(athletes: map<int, Athlete>, fees: map<int, Fee>, rows: seq<FeeRow>)
    requires forall id :: id in fees ==> RowOf(athletes, fees, id) in rows
    requires forall r :: r in rows ==> r.id in fees && r == RowOf(athletes, fees, r.id)
    requires NoDuplicates(rows)
    ensures |rows| == |fees|
  {
    var ids := seq(|rows|, k requires 0 <= k < |rows| => rows[k].id);
    assert forall i, j :: 0 <= i < j < |ids| ==> ids[i] != ids[j] by {
      forall i, j | 0 <= i < j < |ids| ensures ids[i] != ids[j] {
        assert rows[i] in rows && rows[j] in rows;
      }
    }
    assert (set x | x in ids) == fees.Keys by {
      forall x | x in fees ensures x in ids {
        var k :| 0 <= k < |rows| && rows[k] == RowOf(athletes, fees, x);
        assert ids[k] == x;
      }
      forall x | x in ids ensures x in fees {
        var k :| 0 <= k < |ids| && ids[k] == x;
        assert rows[k] in rows;
      }
    }
    DistinctIdsCount(ids);
  }

  /** The rows of the athletes listed in `ids`, in the order of `ids`. */
  function AthleteRowsOf(athletes: map<int, Athlete>, ids: seq<int>): (rows: seq<AthleteRow>)
    requires forall k :: 0 <= k < |ids| ==> ids[k] in athletes
    ensures |rows| == |ids|
    ensures forall k :: 0 <= k < |ids| ==> rows[k] == AthleteRow(ids[k], athletes[ids[k]])
  {
    seq(|ids|, k requires 0 <= k < |ids| => AthleteRow(ids[k], athletes[ids[k]]))
  }

  /** Over ascending ids every athlete listed appears once and nothing else does. */
  lemma AthleteRowsOfFacts(athletes: map<int, Athlete>, ids: seq<int>)
    requires forall k :: 0 <= k < |ids| ==> ids[k] in athletes
    requires Increasing(ids)
    ensures forall r :: r in AthleteRowsOf(athletes, ids) ==> r.id in ids && r.athlete == athletes[r.id]
    ensures forall id :: id in ids ==> AthleteRow(id, athletes[id]) in AthleteRowsOf(athletes, ids)
    ensures NoDuplicates(AthleteRowsOf(athletes, ids))
  {
    var rows := AthleteRowsOf(athletes, ids);
    forall r | r in rows ensures r.id in ids && r.athlete == athletes[r.id] {
      var k :| 0 <= k < |rows| && rows[k] == r;
    }
    forall id | id in ids ensures AthleteRow(id, athletes[id]) in rows {
      var k :| 0 <= k < |ids| && ids[k] == id;
      assert rows[k] == AthleteRow(id, athletes[id]);
    }
    forall i, j | 0 <= i < j < |rows| ensures rows[i] != rows[j] {
      assert rows[i].id == ids[i] && rows[j].id == ids[j];
    }
  }

  /** Every athlete once, in key order. */
  function AthletesByKey(athletes: map<int, Athlete>, next: int): (rows: seq<AthleteRow>)
    requires KeysBelow(athletes, next)
    ensures forall id :: id in athletes ==> AthleteRow(id, athletes[id]) in rows
    ensures forall r :: r in rows ==> r.id in athletes && r.athlete == athletes[r.id]
    ensures NoDuplicates(rows)
  {
    var ids := IdsIn(athletes.Keys, 1, next);
    AthleteRowsOfFacts(athletes, ids);
    AthleteRowsOf(athletes, ids)
  }

  /** `getAllAthletes`: every athlete exactly once, newest first, unpaginated. */
  function AllAthletes(athletes: map<int, Athlete>, next: int): (rows: seq<AthleteRow>)
    requires KeysBelow(athletes, next)
    ensures forall id :: id in athletes ==> AthleteRow(id, athletes[id]) in rows
    ensures forall r :: r in rows ==> r.id in athletes && r.athlete == athletes[r.id]
    ensures NewestFirst(rows, AthleteRowCreatedAt)
    ensures forall i, j :: 0 <= i < j < |rows| ==> rows[i].id != rows[j].id
  {
    var unsorted := AthletesByKey(athletes, next);
    var rows := SortNewestFirst(unsorted, AthleteRowCreatedAt);
    PermutationKeepsDistinct(unsorted, rows);
    PermutationKeepsElements(unsorted, rows);
    assert forall i, j :: 0 <= i < j < |rows| ==> rows[i].id != rows[j].id by {
      forall i, j | 0 <= i < j < |rows| ensures rows[i].id != rows[j].id {
        assert rows[i] in rows && rows[j] in rows;
      }
    }
    rows
  }

  /** `getAthleteById`: the athlete, or nothing when the id is unknown. */
  function AthleteById(athletes: map<int, Athlete>, id: int): (r: Option<Athlete>)
    ensures r.None? <==> id !in athletes
    ensures r.Some? ==> r.value == athletes[id]
  {
    if id in athletes then Some(athletes[id]) else None
  }
  /**
   * `getFeeById` as written: its include names `Athlete`, which the
   * controller never imports (it imports `Athletes`), so evaluating the query
   * options throws a ReferenceError before any lookup and the catch block
   * answers 500 for every id. The constant result is that path: the throw
   * inside the `try` (backend/Controllers/FeesController.js:121) caught by
   * the `catch` that sends 500 with no fee (lines 136-140). The tables and
   * the id are parameters only so that the signature matches `FeeById`.
   */
  function FeeByIdAsWritten(athletes: map<int, Athlete>, fees: map<int, Fee>, id: int): (r: (Status, Option<FeeRow>))
    ensures r.0 == ServerError && r.1 == None
  {
    (ServerError, None)
  }

  /** `getFeeById` as intended: 404 for an unknown id, otherwise the fee joined with its athlete. */
  function FeeById(athletes: map<int, Athlete>, fees: map<int, Fee>, id: int): (r: (Status, Option<FeeRow>))
    ensures id !in fees ==> r == (NotFound, None)
    ensures id in fees ==> r == (Ok, Some(RowOf(athletes, fees, id)))
  {
    if id in fees then (Ok, Some(RowOf(athletes, fees, id))) else (NotFound, None)
  }

  /** The as-written handler answers 500 for a fee that exists, where 200 with the row is intended. */
  lemma StoredFeeIsNotServed()
    ensures var a := Athlete("A", "B", "C", "D", "N1", "doc.pdf", "photo.jpg", 0, 0);
            var athletes := map[1 := a];
            var fees := map[1 := Fee(10, 40, 100000, 30000, 70000, 1, 0, 0)];
            && FeeByIdAsWritten(athletes, fees, 1).0 == ServerError
            && FeeById(athletes, fees, 1) == (Ok, Some(FeeRow(1, fees[1], Some(AthleteSummary(1, "A", "N1")))))
  {
  }
}
