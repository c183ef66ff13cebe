/**
 * The fee seed script (backend/generateathleterecords.js): random fee
 * records for existing athletes, inserted in batches of 50. Every
 * `Math.random()` call is a draw passed in as a parameter; dates are day
 * numbers and the clock is a parameter. Amounts are the script's whole
 * currency units.
 */
module FeeSeed {
  import opened Draws
  import FeesModel

  /** Milliseconds in a day. */
  const MsPerDay: int := 86400000

  /** The local time of day of the clock, in milliseconds. */
  type TimeOfDay = t: int | 0 <= t < MsPerDay

  /** The clock `new Date()` reads: the local day number and the time within it. */
  datatype Clock = Clock(today: int, timeOfDay: TimeOfDay) {
    /** The instant, in milliseconds, that the timestamps record. */
    function Instant(): int {
      today * MsPerDay + timeOfDay
    }
  }

  /**
   * `generateRandomDate(range)`: a uniformly drawn instant between `range`
   * days before and `range` days after now, reduced to its day.
   */
  function RandomDate(clock: Clock, range: int, u: Unit): (day: int)
    ensures 0 <= range ==> clock.today - range <= day <= clock.today + range
  {
    var span := 2 * range * MsPerDay;
    var offset := clock.timeOfDay * Resolution + Product(span, u);
    if 0 <= range then
      ProductIsMultiplication(span, u);
      MulNonNegative(span, u);
      MulMonotone(span, u, Resolution - 1);
      DivWithin(offset, MsPerDay * Resolution, 0, 2 * range);
      clock.today - range + offset / (MsPerDay * Resolution)
    else
      clock.today - range + offset / (MsPerDay * Resolution)
  }

  /** The day range `generateFeePeriod` passes to `generateRandomDate` (its first argument, 2023). */
  const PeriodRange: int := 2023

  /** A fee period: the start day and the end day. */
  datatype Period = Period(startDate: int, endDate: int)

  /** `generateFeePeriod`: a start date near today and an end date 15 to 45 days later. */
  function FeePeriod(clock: Clock, startDraw: Unit, lengthDraw: Unit): (p: Period)
    ensures 15 <= p.endDate - p.startDate <= 45
    ensures clock.today - PeriodRange <= p.startDate <= clock.today + PeriodRange
  {
    var startDate := RandomDate(clock, PeriodRange, startDraw);
    Period(startDate, startDate + 15 + Scaled(lengthDraw, 31))
  }

  /** One of the fee kinds: its name, its amount range and its probability in percent. */
  datatype FeeKind = FeeKind(name: string, min: int, max: int, percent: int)

  /** The kinds `generateFeeAmount` chooses from, in the order it tries them. */
  const FeeKinds: seq<FeeKind> := [
    FeeKind("Monthly", 2000, 10000, 70),
    FeeKind("Quarterly", 5000, 25000, 15),
    FeeKind("Yearly", 20000, 100000, 10),
    FeeKind("Training", 1000, 5000, 5)
  ]

  /** The summed probability, in percent, of the first `k` kinds. */
  function Cumulative(k: nat): int
    requires k <= |FeeKinds|
  {
    if k == 0 then 0 else Cumulative(k - 1) + FeeKinds[k - 1].percent
  }

  /** The running sums the loop of `generateFeeAmount` reaches: 70, 85, 95 and finally 100. */
  lemma CumulativeValues()
    ensures Cumulative(1) == 70 && Cumulative(2) == 85 && Cumulative(3) == 95
    ensures Cumulative(|FeeKinds|) == 100
  {
    assert Cumulative(0) == 0;
  }

  /**
   * The kind a draw selects: the first whose cumulative probability reaches
   * the draw. The draws selecting kind `k` are exactly those in
   * (Cumulative(k), Cumulative(k + 1)] percent, so kind `k` has its stated share.
   */
  function KindIndex(u: Unit): (k: nat)
    ensures k < |FeeKinds|
    ensures k == 0 || Cumulative(k) * Resolution < 100 * u
    ensures 100 * u <= Cumulative(k + 1) * Resolution
  {
    CumulativeValues();
    if 100 * u <= 70 * Resolution then 0
    else if 100 * u <= 85 * Resolution then 1
    else if 100 * u <= 95 * Resolution then 2
    else 3
  }

  /** `Math.round((min + Math.random() * (max - min)) / 100) * 100` for kind `kind`. */
  function RoundedAmount(kind: FeeKind, u: Unit): (amount: int)
    ensures amount % 100 == 0
    ensures 0 <= kind.min <= kind.max && kind.min % 100 == 0 && kind.max % 100 == 0 ==>
      kind.min <= amount <= kind.max
  {
    RoundedAmountFacts(kind, u);
    100 * ((kind.min * Resolution + Product(kind.max - kind.min, u) + 50 * Resolution) / (100 * Resolution))
  }

  /** The rounding of `RoundedAmount` lands on a multiple of 100 inside the kind's range. */
  lemma RoundedAmountFacts(kind: FeeKind, u: Unit)
    ensures var amount := 100 * ((kind.min * Resolution + Product(kind.max - kind.min, u) + 50 * Resolution) / (100 * Resolution));
            && amount % 100 == 0
            && (0 <= kind.min <= kind.max && kind.min % 100 == 0 && kind.max % 100 == 0 ==> kind.min <= amount <= kind.max)
  {
    if 0 <= kind.min <= kind.max && kind.min % 100 == 0 && kind.max % 100 == 0 {
      ProductIsMultiplication(kind.max - kind.min, u);
      MulNonNegative(kind.max - kind.min, u);
      MulMonotone(kind.max - kind.min, u, Resolution - 1);
      RoundedWithin(kind.min, kind.max, Product(kind.max - kind.min, u));
    }
  }

  /** Rounding `min + spread / 2^53` to the nearest hundred stays within [min, max]. */
  lemma RoundedWithin(min: int, max: int, spread: int)
    requires 0 <= min <= max && min % 100 == 0 && max % 100 == 0
    requires 0 <= spread <= (max - min) * (Resolution - 1)
    ensures min <= 100 * ((min * Resolution + spread + 50 * Resolution) / (100 * Resolution)) <= max
  {
    DivWithin(min * Resolution + spread + 50 * Resolution, 100 * Resolution, min / 100, max / 100);
  }

  /** A drawn fee amount and the name of its kind. */
  datatype FeeAmount = FeeAmount(feeType: string, amount: int)

  /** `generateFeeAmount` for its two draws: the kind, then the amount within the kind. */
  function FeeAmountOf(kindDraw: Unit, amountDraw: Unit): (a: FeeAmount)
    ensures exists k :: 0 <= k < |FeeKinds| && a.feeType == FeeKinds[k].name
                        && FeeKinds[k].min <= a.amount <= FeeKinds[k].max
    ensures a.amount % 100 == 0
    ensures 1000 <= a.amount <= 100000
  {
    var kind := FeeKinds[KindIndex(kindDraw)];
    FeeAmount(kind.name, RoundedAmount(kind, amountDraw))
  }

  /**
   * `generateFeeAmount`: walks the kinds accumulating their probabilities
   * and stops at the first that reaches the draw.
   */
  method GenerateFeeAmount(kindDraw: Unit, amountDraw: Unit) returns (a: FeeAmount)
    ensures a == FeeAmountOf(kindDraw, amountDraw)
  {
    var cumulative := 0;
    var i := 0;
    while i < |FeeKinds|
      invariant 0 <= i <= |FeeKinds|
      invariant cumulative == Cumulative(i)
      invariant forall j :: 1 <= j <= i ==> Cumulative(j) * Resolution < 100 * kindDraw
    {
      cumulative := cumulative + FeeKinds[i].percent;
      if 100 * kindDraw <= cumulative * Resolution {
        FirstReachingKind(kindDraw, i);
        var kind := FeeKinds[i];
        return FeeAmount(kind.name, RoundedAmount(kind, amountDraw));
      }
      i := i + 1;
    }
    CumulativeValues();
    assert false;
  }

  /** The first kind whose cumulative probability reaches the draw is the one `KindIndex` names. */
  lemma FirstReachingKind(u: Unit, i: nat)
    requires i < |FeeKinds|
    requires 100 * u <= Cumulative(i + 1) * Resolution
    requires forall j :: 1 <= j <= i ==> Cumulative(j) * Resolution < 100 * u
    ensures KindIndex(u) == i
  {
    CumulativeValues();
  }

  /** The payment states `generateReceivedAmount` chooses between. */
  datatype PaymentStatus = Paid | Partial | Unpaid

  /** The status draw: below 0.3 paid, below 0.7 partly paid, otherwise unpaid. */
  function StatusOf(u: Unit): (s: PaymentStatus)
    ensures s == Paid <==> 10 * u < 3 * Resolution
    ensures s == Unpaid <==> 7 * Resolution <= 10 * u
  {
    if 10 * u < 3 * Resolution then Paid
    else if 10 * u < 7 * Resolution then Partial
    else Unpaid
  }

  /** The outcome of `generateReceivedAmount`. */
  datatype Payment = Payment(received: int, status: PaymentStatus, remained: int)

  /**
   * The partly paid amount: a share of 25% to 75% of the total, drawn by
   * `u`, rounded to the nearest 100.
   */
  function PartialReceived(total: int, u: Unit): (received: int)
    ensures received % 100 == 0
    ensures 200 <= total ==> 0 < received < total
  {
    PartialReceivedFacts(total, u);
    100 * ((Product(total, Resolution + 2 * u) + 200 * Resolution) / (400 * Resolution))
  }

  /** The rounding of `PartialReceived` lands on a multiple of 100 strictly between 0 and the total. */
  lemma PartialReceivedFacts(total: int, u: Unit)
    ensures var received := 100 * ((Product(total, Resolution + 2 * u) + 200 * Resolution) / (400 * Resolution));
            && received % 100 == 0
            && (200 <= total ==> 0 < received < total)
  {
    if 200 <= total {
      ProductIsMultiplication(total, Resolution + 2 * u);
      MulMonotone(total, Resolution, Resolution + 2 * u);
      MulMonotone(total, Resolution + 2 * u, 3 * Resolution - 1);
      PartialWithin(total, Product(total, Resolution + 2 * u));
    }
  }

  /** A share between one and three quarters of the total (scaled by 2^53), rounded to a hundred, is strictly inside (0, total). */
  lemma PartialWithin(total: int, scaled: int)
    requires 200 <= total && total * Resolution <= scaled <= total * (3 * Resolution - 1)
    ensures 0 < 100 * ((scaled + 200 * Resolution) / (400 * Resolution)) < total
  {
    var numerator := scaled + 200 * Resolution;
    var q := numerator / (400 * Resolution);
    assert 400 * Resolution * q <= numerator;
    DivWithin(numerator, 400 * Resolution, 1, q);
  }

  /** `generateReceivedAmount(total)` for the status draw and the share draw. */
  function PaymentOf(total: int, statusDraw: Unit, shareDraw: Unit): (p: Payment)
    ensures p.status == StatusOf(statusDraw)
    ensures p.remained == total - p.received
    ensures p.status == Paid ==> p.received == total && p.remained == 0
    ensures p.status == Unpaid ==> p.received == 0 && p.remained == total
    ensures p.status == Partial ==> p.received == PartialReceived(total, shareDraw)
  {
    match StatusOf(statusDraw)
    case Paid => Payment(total, Paid, 0)
    case Partial =>
      var received := PartialReceived(total, shareDraw);
      Payment(received, Partial, total - received)
    case Unpaid => Payment(0, Unpaid, total)
  }

  /**
   * The statistics the script prints classify a fee as paid when nothing
   * remains, unpaid when nothing was received, and partial when both are
   * positive; for every drawn amount that classification gives back the
   * status the record was generated with.
   */
  lemma StatusMatchesAmounts(total: int, statusDraw: Unit, shareDraw: Unit)
    requires 200 <= total
    ensures var p := PaymentOf(total, statusDraw, shareDraw);
            && (p.status == Paid <==> p.remained == 0)
            && (p.status == Unpaid <==> p.received == 0)
            && (p.status == Partial <==> 0 < p.received && 0 < p.remained)
  {
  }

  /** The draws one fee record consumes, in the order the script makes them. */
  datatype FeeDraws = FeeDraws(startDay: Unit, length: Unit, kind: Unit, amount: Unit, status: Unit, share: Unit)

  /** A generated fee record. */
  datatype SeedFee = SeedFee(
    startDate: int,
    endDate: int,
    total: int,
    received: int,
    remained: int,
    athleteId: int,
    status: PaymentStatus,
    feeType: string,
    createdAt: int,
    updatedAt: int)

  /** `generateFeeRecord(athleteId)`. */
  function FeeRecordOf(athleteId: int, d: FeeDraws, clock: Clock): (r: SeedFee)
    ensures r.athleteId == athleteId
    ensures r.remained == r.total - r.received
    ensures 15 <= r.endDate - r.startDate <= 45
    ensures r.total % 100 == 0 && 1000 <= r.total <= 100000
    ensures 0 <= r.received <= r.total
    ensures r.createdAt == r.updatedAt == clock.Instant()
  {
    var period := FeePeriod(clock, d.startDay, d.length);
    var fee := FeeAmountOf(d.kind, d.amount);
    var payment := PaymentOf(fee.amount, d.status, d.share);
    SeedFee(period.startDate, period.endDate, fee.amount, payment.received, payment.remained,
            athleteId, payment.status, fee.feeType, clock.Instant(), clock.Instant())
  }

  /** The stored row of a generated record, with its amounts in cents. */
  function AsFee(r: SeedFee): (f: FeesModel.Fee)
    ensures f.total == 100 * r.total && f.received == 100 * r.received && f.athleteId == r.athleteId
  {
    FeesModel.Fee(r.startDate, r.endDate, 100 * r.total, 100 * r.received, 100 * r.remained,
                  r.athleteId, r.createdAt, r.updatedAt)
  }

  /** A generated record already satisfies the rule the model hook enforces. */
  lemma SeedRecordSatisfiesHook(athleteId: int, d: FeeDraws, clock: Clock)
    ensures FeesModel.Derived(AsFee(FeeRecordOf(athleteId, d, clock)))
  {
  }

  /** `minRecords + Math.floor(Math.random() * (maxRecords - minRecords + 1))`. */
  function RecordCount(minRecords: int, maxRecords: int, u: Unit): (n: int)
    ensures minRecords <= maxRecords ==> minRecords <= n <= maxRecords
  {
    Random(minRecords, maxRecords, u)
  }

  /** The first `n` records of one athlete, the i-th built from draws `draws(i)`. */
  function RecordsOf(athleteId: int, n: nat, draws: nat -> FeeDraws, clock: Clock): (records: seq<SeedFee>)
    ensures |records| == n
    ensures forall r :: r in records ==> r.athleteId == athleteId && r.remained == r.total - r.received
  {
    if n == 0 then [] else RecordsOf(athleteId, n - 1, draws, clock) + [FeeRecordOf(athleteId, draws(n - 1), clock)]
  }

  /** The i-th record of an athlete is built from the i-th draws. */
  lemma {:induction false} RecordAt(athleteId: int, n: nat, draws: nat -> FeeDraws, clock: Clock, i: nat)
    requires i < n
    ensures RecordsOf(athleteId, n, draws, clock)[i] == FeeRecordOf(athleteId, draws(i), clock)
  {
    if i < n - 1 {
      RecordAt(athleteId, n - 1, draws, clock, i);
    }
  }

  /**
   * `generateAthleteFeeRecords`: as many records as the count draw gives
   * (none if that count is not positive).
   */
  function AthleteFeeRecords(athleteId: int, minRecords: int, maxRecords: int, countDraw: Unit,
                             draws: nat -> FeeDraws, clock: Clock): (records: seq<SeedFee>)
    ensures var n := RecordCount(minRecords, maxRecords, countDraw);
            |records| == if n < 0 then 0 else n
    ensures 0 <= minRecords <= maxRecords ==> minRecords <= |records| <= maxRecords
    ensures forall r :: r in records ==> r.athleteId == athleteId && r.remained == r.total - r.received
  {
    var n := RecordCount(minRecords, maxRecords, countDraw);
    RecordsOf(athleteId, if n < 0 then 0 else n, draws, clock)
  }

  /** `generateAthleteFeeRecords`, the loop pushing one record per iteration. */
  method GenerateAthleteFeeRecords(athleteId: int, minRecords: int, maxRecords: int, countDraw: Unit,
                                   draws: nat -> FeeDraws, clock: Clock) returns (records: seq<SeedFee>)
    ensures records == AthleteFeeRecords(athleteId, minRecords, maxRecords, countDraw, draws, clock)
  {
    var numRecords := RecordCount(minRecords, maxRecords, countDraw);
    records := [];
    var i := 0;
    while i < numRecords
      invariant 0 <= i && (numRecords >= 0 ==> i <= numRecords) && (numRecords < 0 ==> i == 0)
      invariant records == RecordsOf(athleteId, i, draws, clock)
    {
      records := records + [FeeRecordOf(athleteId, draws(i), clock)];
      i := i + 1;
    }
  }

  /** Per athlete, between one and twelve records. */
  const MinRecords: int := 1
  const MaxRecords: int := 12

  /**
   * The records `generateMultipleFeeRecords` produces for the first `n`
   * athletes of `athleteIds`: each athlete's list in turn, the k-th athlete
   * using count draw `countDraws(k)` and record draws `draws(k)`.
   */
  function FeeRecordsUpTo(athleteIds: seq<int>, n: nat, countDraws: nat -> Unit,
                          draws: nat -> nat -> FeeDraws, clock: Clock): (records: seq<SeedFee>)
    requires n <= |athleteIds|
    ensures n <= |records| <= MaxRecords * n
  {
    if n == 0 then []
    else
      FeeRecordsUpTo(athleteIds, n - 1, countDraws, draws, clock)
      + AthleteFeeRecords(athleteIds[n - 1], MinRecords, MaxRecords, countDraws(n - 1), draws(n - 1), clock)
  }

  /** Every record generated for the first `n` athletes belongs to one of them and satisfies the hook's rule. */
  lemma {:induction false} RecordsBelongToAthletes(athleteIds: seq<int>, n: nat, countDraws: nat -> Unit,
                                                   draws: nat -> nat -> FeeDraws, clock: Clock)
    requires n <= |athleteIds|
    ensures forall r :: r in FeeRecordsUpTo(athleteIds, n, countDraws, draws, clock) ==>
              r.athleteId in athleteIds[..n] && r.remained == r.total - r.received
  {
    if n > 0 {
      RecordsBelongToAthletes(athleteIds, n - 1, countDraws, draws, clock);
      assert athleteIds[..n] == athleteIds[..n - 1] + [athleteIds[n - 1]];
    }
  }

  /** One more athlete appends that athlete's records. */
  lemma FeeRecordsUpToStep(athleteIds: seq<int>, k: nat, countDraws: nat -> Unit,
                           draws: nat -> nat -> FeeDraws, clock: Clock)
    requires k < |athleteIds|
    ensures FeeRecordsUpTo(athleteIds, k + 1, countDraws, draws, clock)
            == FeeRecordsUpTo(athleteIds, k, countDraws, draws, clock)
               + AthleteFeeRecords(athleteIds[k], MinRecords, MaxRecords, countDraws(k), draws(k), clock)
  {
  }

  /** `generateMultipleFeeRecords`: the loop appending each athlete's records. */
  method GenerateMultipleFeeRecords(athleteIds: seq<int>, countDraws: nat -> Unit,
                                    draws: nat -> nat -> FeeDraws, clock: Clock) returns (all: seq<SeedFee>)
    ensures all == FeeRecordsUpTo(athleteIds, |athleteIds|, countDraws, draws, clock)
  {
    all := [];
    var k := 0;
    while k < |athleteIds|
      invariant 0 <= k <= |athleteIds|
      invariant all == FeeRecordsUpTo(athleteIds, k, countDraws, draws, clock)
    {
      var records := GenerateAthleteFeeRecords(athleteIds[k], MinRecords, MaxRecords, countDraws(k), draws(k), clock);
      FeeRecordsUpToStep(athleteIds, k, countDraws, draws, clock);
      all := all + records;
      k := k + 1;
    }
  }

  /** The number of records each `Fees.bulkCreate` call receives. */
  const BatchSize: int := 50

  /** The consecutive slices of `records` the insert loop hands to `bulkCreate`. */
  function Batches<T>(records: seq<T>): (batches: seq<seq<T>>)
    decreases |records|
  {
    if records == [] then []
    else if |records| <= BatchSize then [records]
    else [records[..BatchSize]] + Batches(records[BatchSize..])
  }

  /**
   * The batches cover every record exactly once and in order; each holds one
   * to 50 records, and every batch but the last holds exactly 50.
   */
  lemma {:induction false} BatchesCover<T>(records: seq<T>)
    ensures Concat(Batches(records)) == records
    ensures forall k :: 0 <= k < |Batches(records)| ==> 1 <= |Batches(records)[k]| <= BatchSize
    ensures forall k :: 0 <= k < |Batches(records)| - 1 ==> |Batches(records)[k]| == BatchSize
    decreases |records|
  {
    if |records| > BatchSize {
      var rest := records[BatchSize..];
      BatchesCover(rest);
      assert records == records[..BatchSize] + rest;
      var bs := Batches(records);
      assert bs == [records[..BatchSize]] + Batches(rest);
      assert bs[1..] == Batches(rest);
      forall k | 1 <= k < |bs| ensures bs[k] == Batches(rest)[k - 1] {
      }
    } else if records != [] {
      assert Concat([records]) == records + Concat([]);
    }
  }

  /** The lists of `lists`, one after the other. */
  function Concat<T>(lists: seq<seq<T>>): (all: seq<T>)
  {
    if lists == [] then [] else lists[0] + Concat(lists[1..])
  }

  /** The records of the batches, numbered from `k`, whose insert `accepted` lets through. */
  function Kept<T>(batches: seq<seq<T>>, k: nat, accepted: nat -> bool): (rows: seq<T>)
  {
    if batches == [] then []
    else (if accepted(k) then batches[0] else []) + Kept(batches[1..], k + 1, accepted)
  }

  /** Only records of the batches are written, and no more of them than there are. */
  lemma {:induction false} KeptFromBatches<T>(batches: seq<seq<T>>, k: nat, accepted: nat -> bool)
    ensures |Kept(batches, k, accepted)| <= |Concat(batches)|
    ensures forall x :: x in Kept(batches, k, accepted) ==> x in Concat(batches)
  {
    if batches != [] {
      KeptFromBatches(batches[1..], k + 1, accepted);
    }
  }

  /** When every batch is accepted, every record is written once, in order. */
  lemma {:induction false} AllAcceptedWritesAll<T>(batches: seq<seq<T>>, k: nat, accepted: nat -> bool)
    requires forall j: nat :: k <= j ==> accepted(j)
    ensures Kept(batches, k, accepted) == Concat(batches)
  {
    if batches != [] {
      AllAcceptedWritesAll(batches[1..], k + 1, accepted);
    }
  }

  /** When every batch fails, nothing is written. */
  lemma {:induction false} NoneAcceptedWritesNothing<T>(batches: seq<seq<T>>, k: nat, accepted: nat -> bool)
    requires forall j: nat :: k <= j ==> !accepted(j)
    ensures Kept(batches, k, accepted) == []
  {
    if batches != [] {
      NoneAcceptedWritesNothing(batches[1..], k + 1, accepted);
    }
  }

  /** The records from position `i` on, none once `i` is past the end. */
  function From<T>(records: seq<T>, i: int): seq<T>
    requires 0 <= i
  {
    if i <= |records| then records[i..] else []
  }

  /** The next batch is the slice of at most 50 records starting at `i`; the later batches start 50 further on. */
  lemma BatchAt<T>(records: seq<T>, i: int, end: int)
    requires 0 <= i < |records|
    requires end == if i + BatchSize <= |records| then i + BatchSize else |records|
    ensures Batches(From(records, i)) == [records[i..end]] + Batches(From(records, i + BatchSize))
  {
    var rest := From(records, i);
    if |rest| > BatchSize {
      assert Batches(rest) == [rest[..BatchSize]] + Batches(rest[BatchSize..]);
      assert rest[..BatchSize] == records[i..end];
      assert rest[BatchSize..] == From(records, i + BatchSize);
    } else {
      assert Batches(rest) == [rest];
      assert rest == records[i..end];
      assert From(records, i + BatchSize) == [];
    }
  }

  /** Unfolds `Kept` once. */
  lemma KeptFirst<T>(batch: seq<T>, later: seq<seq<T>>, k: nat, accepted: nat -> bool)
    ensures Kept([batch] + later, k, accepted) == (if accepted(k) then batch else []) + Kept(later, k + 1, accepted)
  {
    assert ([batch] + later)[1..] == later;
  }

  /** One step of the insert loop: the batch at `i` is written or skipped, and the rest follows from `i + 50`. */
  lemma InsertStep<T>(records: seq<T>, i: int, end: int, accepted: nat -> bool)
    requires 0 <= i < |records| && i % BatchSize == 0
    requires end == if i + BatchSize <= |records| then i + BatchSize else |records|
    ensures (i + BatchSize) / BatchSize == i / BatchSize + 1
    ensures |From(records, i + BatchSize)| == |From(records, i)| - (end - i)
    ensures Kept(Batches(From(records, i)), i / BatchSize, accepted)
            == (if accepted(i / BatchSize) then records[i..end] else [])
               + Kept(Batches(From(records, i + BatchSize)), i / BatchSize + 1, accepted)
  {
    BatchAt(records, i, end);
    KeptFirst(records[i..end], Batches(From(records, i + BatchSize)), i / BatchSize, accepted);
  }

  /**
   * The insert loop of `insertFeeRecords`: consecutive slices of 50 records,
   * each passed to `bulkCreate`, whose outcome for batch number k is
   * `accepted(k)`; a failed batch is counted and skipped.
   */
  method InsertInBatches(records: seq<SeedFee>, accepted: nat -> bool)
    returns (insertedCount: nat, failedCount: nat, written: seq<SeedFee>)
    ensures written == Kept(Batches(records), 0, accepted)
    ensures insertedCount == |written|
    ensures insertedCount + failedCount == |records|
  {
    insertedCount, failedCount, written := 0, 0, [];
    var i := 0;
    assert From(records, 0) == records;
    while i < |records|
      invariant 0 <= i && i % BatchSize == 0
      invariant written + Kept(Batches(From(records, i)), i / BatchSize, accepted) == Kept(Batches(records), 0, accepted)
      invariant insertedCount == |written|
      invariant insertedCount + failedCount == |records| - |From(records, i)|
      decreases |records| - i
    {
      var end := if i + BatchSize <= |records| then i + BatchSize else |records|;
      var batch := records[i..end];
      InsertStep(records, i, end, accepted);
      ghost var later := Kept(Batches(From(records, i + BatchSize)), i / BatchSize + 1, accepted);
      if accepted(i / BatchSize) {
        assert written + (batch + later) == (written + batch) + later;
        written := written + batch;
        insertedCount := insertedCount + |batch|;
      } else {
        assert [] + later == later;
        failedCount := failedCount + |batch|;
      }
      i := i + BatchSize;
    }
    assert From(records, i) == [];
  }

  /** The number of athletes `insertFeeRecords` reads (`limit: 100`). */
  const AthleteLimit: int := 100

  /** How a run of `insertFeeRecords` ends. */
  datatype SeedOutcome = NoAthletes | Inserted(insertedCount: int, failedCount: int, processed: int)

  /**
   * `insertFeeRecords` after the connection is up: reads at most 100
   * athletes (here the first 100 of `athleteIds`), stops when there are
   * none, otherwise generates their records and inserts them in batches.
   */
  method InsertFeeRecords(athleteIds: seq<int>, countDraws: nat -> Unit, draws: nat -> nat -> FeeDraws,
                          accepted: nat -> bool, clock: Clock)
    returns (outcome: SeedOutcome, written: seq<SeedFee>)
    ensures athleteIds == [] ==> outcome == NoAthletes && written == []
    ensures athleteIds != [] ==> outcome.Inserted?
    ensures outcome.Inserted? ==>
      var chosen := if |athleteIds| <= AthleteLimit then |athleteIds| else AthleteLimit;
      var records := FeeRecordsUpTo(athleteIds, chosen, countDraws, draws, clock);
      && outcome.processed == |records|
      && outcome.insertedCount + outcome.failedCount == outcome.processed
      && chosen <= outcome.processed <= MaxRecords * chosen
      && written == Kept(Batches(records), 0, accepted)
    ensures forall r :: r in written ==> r.athleteId in athleteIds && r.remained == r.total - r.received
  {
    var chosen := if |athleteIds| <= AthleteLimit then athleteIds else athleteIds[..AthleteLimit];
    if |chosen| == 0 {
      return NoAthletes, [];
    }
    var feeRecords := GenerateMultipleFeeRecords(chosen, countDraws, draws, clock);
    assert feeRecords == FeeRecordsUpTo(athleteIds, |chosen|, countDraws, draws, clock) by {
      SamePrefixSameRecords(chosen, athleteIds, |chosen|, countDraws, draws, clock);
    }
    var insertedCount, failedCount;
    insertedCount, failedCount, written := InsertInBatches(feeRecords, accepted);
    outcome := Inserted(insertedCount, failedCount, |feeRecords|);
    RecordsBelongToAthletes(athleteIds, |chosen|, countDraws, draws, clock);
    KeptFromBatches(Batches(feeRecords), 0, accepted);
    BatchesCover(feeRecords);
    forall r | r in written ensures r.athleteId in athleteIds && r.remained == r.total - r.received {
      assert r in Concat(Batches(feeRecords));
      assert r.athleteId in athleteIds[..|chosen|];
    }
  }

  /** The records for the first `n` athletes depend only on those athletes. */
  lemma {:induction false} SamePrefixSameRecords(a: seq<int>, b: seq<int>, n: nat, countDraws: nat -> Unit,
                                                 draws: nat -> nat -> FeeDraws, clock: Clock)
    requires n <= |a| && n <= |b| && a[..n] == b[..n]
    ensures FeeRecordsUpTo(a, n, countDraws, draws, clock) == FeeRecordsUpTo(b, n, countDraws, draws, clock)
  {
    if n > 0 {
      assert a[..n - 1] == b[..n - 1] by {
        assert a[..n - 1] == a[..n][..n - 1];
        assert b[..n - 1] == b[..n][..n - 1];
      }
      assert a[n - 1] == a[..n][n - 1];
      assert b[n - 1] == b[..n][n - 1];
      SamePrefixSameRecords(a, b, n - 1, countDraws, draws, clock);
    }
  }
}
