/**
 * The fee record (backend/Models/Fees.js). Amounts are DECIMAL(10,2)
 * columns, modelled as integer cents; dates are DATEONLY columns, modelled
 * as day numbers. The model's `beforeValidate` hook rewrites `remained` on
 * the instance being written, so the instance is a class whose fields the
 * hook changes in place; a stored row is the value `Fee`.
 */
module FeesModel {
  import opened Wrappers

  /** A stored fee. `athleteId` references `athletes.id` (ON DELETE CASCADE). */
  datatype Fee = Fee(
    startDate: int,
    endDate: int,
    total: int,      // cents
    received: int,   // cents
    remained: int,   // cents, always re-derived by the hook
    athleteId: int,
    createdAt: int,
    updatedAt: int)

  /** The hook's rule: what remains is what is due minus what was received (possibly negative). */
  predicate Derived(f: Fee) {
    f.remained == f.total - f.received
  }

  /** A partial-update body for `fee.update(req.body)`. */
  datatype FeePatch = FeePatch(
    startDate: Patch<int>,
    endDate: Patch<int>,
    total: Patch<int>,
    received: Patch<int>,
    remained: Patch<int>,
    athleteId: Patch<int>)

  /**
   * Whether the body sets a NOT NULL column to null. A null `remained` is not
   * among them: the hook overwrites it with a number before validation.
   */
  predicate PatchHasNull(p: FeePatch) {
    || p.startDate.SetNull? || p.endDate.SetNull? || p.total.SetNull?
    || p.received.SetNull? || p.athleteId.SetNull?
  }

  /**
   * The row `fee.update(body)` stores at time `now`: supplied columns
   * replaced, `remained` re-derived. Only columns whose value changes are
   * written, and `updatedAt` is stamped only when there is one.
   */
  function Patched(f: Fee, p: FeePatch, now: int): (g: Fee)
    requires !PatchHasNull(p)
    ensures Derived(g)
    ensures g.startDate == (if p.startDate.Set? then p.startDate.value else f.startDate)
    ensures g.endDate == (if p.endDate.Set? then p.endDate.value else f.endDate)
    ensures g.total == (if p.total.Set? then p.total.value else f.total)
    ensures g.received == (if p.received.Set? then p.received.value else f.received)
    ensures g.athleteId == (if p.athleteId.Set? then p.athleteId.value else f.athleteId)
    ensures g.createdAt == f.createdAt
    ensures g.(updatedAt := f.updatedAt) == f ==> g == f
    ensures g.(updatedAt := f.updatedAt) != f ==> g.updatedAt == now
    ensures p.total.Keep? && p.received.Keep? && Derived(f) ==> g.remained == f.remained
  {
    var total := p.total.Over(f.total);
    var received := p.received.Over(f.received);
    var columns := Fee(p.startDate.Over(f.startDate), p.endDate.Over(f.endDate), total, received,
                       total - received, p.athleteId.Over(f.athleteId), f.createdAt, f.updatedAt);
    if columns == f then f else columns.(updatedAt := now)
  }

  /** A `remained` sent by the client has no effect: the hook overrides it. */
  lemma SuppliedRemainedIsIgnored(f: Fee, p: FeePatch, r: Patch<int>, now: int)
    requires !PatchHasNull(p)
    ensures Patched(f, p.(remained := r), now) == Patched(f, p, now)
  {
  }

  /** A Sequelize instance of the fee model: the object the hook and `set` mutate before it is saved. */
  class FeeInstance {
    var startDate: int
    var endDate: int
    var total: int
    var received: int
    var remained: int
    var athleteId: int
    var createdAt: int
    var updatedAt: int

    /** The column values the instance currently holds. */
    function Row(): Fee
      reads this
    {
      Fee(startDate, endDate, total, received, remained, athleteId, createdAt, updatedAt)
    }

    /** `Fees.build(values)` / a row loaded by `findByPk`. */
    constructor Build(values: Fee)
      ensures Row() == values
    {
      startDate, endDate := values.startDate, values.endDate;
      total, received, remained := values.total, values.received, values.remained;
      athleteId := values.athleteId;
      createdAt, updatedAt := values.createdAt, values.updatedAt;
    }

    /** `instance.set(body)`: assigns exactly the columns the body supplies. */
    method Assign(p: FeePatch)
      requires !PatchHasNull(p)
      modifies this
      ensures Row() == old(Row()).(
        startDate := p.startDate.Over(old(startDate)),
        endDate := p.endDate.Over(old(endDate)),
        total := p.total.Over(old(total)),
        received := p.received.Over(old(received)),
        remained := if p.remained.Set? then p.remained.value else old(remained),
        athleteId := p.athleteId.Over(old(athleteId)))
    {
      startDate := p.startDate.Over(startDate);
      endDate := p.endDate.Over(endDate);
      total := p.total.Over(total);
      received := p.received.Over(received);
      if p.remained.Set? {
        remained := p.remained.value;
      }
      athleteId := p.athleteId.Over(athleteId);
    }

    /** The `beforeValidate` hook: overwrites `remained` with `total - received`, touching nothing else. */
    method BeforeValidate()
      modifies this
      ensures Derived(Row())
      ensures Row() == old(Row()).(remained := Row().remained)
    {
      remained := total - received;
    }
  }

  /** A create body; a field the client did not send is `None`. */
  datatype FeeBody = FeeBody(
    startDate: Option<int>,
    endDate: Option<int>,
    total: Option<int>,
    received: Option<int>,
    athleteId: Option<int>)

  /** JavaScript truthiness of a numeric field: present and not zero. */
  predicate Truthy(field: Option<int>) {
    field.Some? && field.value != 0
  }

  /** The handler's required-field check; a date is falsy only when missing or empty. */
  predicate BodyComplete(b: FeeBody) {
    b.startDate.Some? && b.endDate.Some? && Truthy(b.total) && Truthy(b.athleteId)
  }

  /**
   * The row `Fees.create` stores for a complete body at time `now`:
   * `received || 0`, and `remained` derived by the hook.
   */
  function NewFee(b: FeeBody, now: int): (f: Fee)
    requires BodyComplete(b)
    ensures Derived(f)
    ensures f.total == b.total.value && f.received == ReceivedOrZero(b) && f.athleteId == b.athleteId.value
    ensures f.startDate == b.startDate.value && f.endDate == b.endDate.value
    ensures f.createdAt == now && f.updatedAt == now
    ensures !Truthy(b.received) ==> f.remained == f.total
  {
    var received := ReceivedOrZero(b);
    Fee(b.startDate.value, b.endDate.value, b.total.value, received, b.total.value - received,
        b.athleteId.value, now, now)
  }

  /** `received || 0`: a missing or zero amount is stored as zero. */
  function ReceivedOrZero(b: FeeBody): (r: int)
    ensures !Truthy(b.received) ==> r == 0
    ensures Truthy(b.received) ==> r == b.received.value
  {
    if Truthy(b.received) then b.received.value else 0
  }
}
