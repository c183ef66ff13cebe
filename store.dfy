/**
 * The two tables and the handlers of backend/Controllers/FeesController.js
 * and backend/Controllers/AthletesController.js. The database is one object
 * holding both tables; each handler is a method that answers with a status
 * and, where the handler sends one, a row. The constraints the storage
 * engine enforces (the unique card number, the foreign key with its cascade)
 * and the model hook's derived `remained` are the object invariant.
 */
module Store {
  import opened Wrappers
  import opened Http
  import opened Ordering
  import opened AthletesModel
  import opened FeesModel
  import opened FeeQueries

  /** Every fee's `remained` is `total - received`. */
  ghost predicate AllDerived(fees: map<int, Fee>) {
    forall id :: id in fees ==> Derived(fees[id])
  }

  /** The foreign key: every fee names an existing athlete. */
  ghost predicate References(athletes: map<int, Athlete>, fees: map<int, Fee>) {
    forall id :: id in fees ==> fees[id].athleteId in athletes
  }

  /** The invariant of the two tables. */
  ghost predicate Consistent(athletes: map<int, Athlete>, fees: map<int, Fee>, nextAthleteId: int, nextFeeId: int) {
    && 1 <= nextAthleteId && 1 <= nextFeeId
    && KeysBelow(athletes, nextAthleteId)
    && KeysBelow(fees, nextFeeId)
    && NicUnique(athletes)
    && AllDerived(fees)
    && References(athletes, fees)
  }

  /** ON DELETE CASCADE: the fees that survive deleting athlete `athleteId`. */
  function Cascade(fees: map<int, Fee>, athleteId: int): (rest: map<int, Fee>)
    ensures forall id :: id in rest <==> id in fees && fees[id].athleteId != athleteId
    ensures forall id :: id in rest ==> rest[id] == fees[id]
  {
    map id | id in fees && fees[id].athleteId != athleteId :: fees[id]
  }

  /** Deleting an athlete together with its fees keeps the tables consistent. */
  lemma CascadeKeepsConsistent(athletes: map<int, Athlete>, fees: map<int, Fee>, nextAthleteId: int, nextFeeId: int, athleteId: int)
    requires Consistent(athletes, fees, nextAthleteId, nextFeeId)
    ensures Consistent(athletes - {athleteId}, Cascade(fees, athleteId), nextAthleteId, nextFeeId)
    ensures forall id :: id in Cascade(fees, athleteId) ==> Cascade(fees, athleteId)[id].athleteId != athleteId
  {
  }

  /** Under the foreign key every joined fee row carries its athlete's summary. */
  lemma JoinedRowsCarryAthlete(athletes: map<int, Athlete>, fees: map<int, Fee>, rows: seq<FeeRow>)
    requires References(athletes, fees)
    requires forall r :: r in rows ==> r.id in fees && r == RowOf(athletes, fees, r.id)
    ensures forall r :: r in rows ==> r.athlete.Some? && r.athlete.value.id == r.fee.athleteId
  {
  }

  /** The database: the `athletes` and `fees` tables with their auto-increment counters. */
  class Database {
    var athletes: map<int, Athlete>
    var fees: map<int, Fee>
    var nextAthleteId: int
    var nextFeeId: int

    ghost predicate Valid()
      reads this
    {
      Consistent(athletes, fees, nextAthleteId, nextFeeId)
    }

    /** Empty tables. */
    constructor ()
      ensures Valid()
      ensures athletes == map[] && fees == map[]
    {
      athletes, fees := map[], map[];
      nextAthleteId, nextFeeId := 1, 1;
    }

    // ---------------------------------------------------------------- fees

    /** GET /fees/range: both bounds are required; the report reads nothing otherwise. */
    method GetFeesInRange(startDate: Option<int>, endDate: Option<int>) returns (status: Status, rows: seq<FeeRow>)
      requires Valid()
      ensures startDate.None? || endDate.None? ==> status == BadRequest && rows == []
      ensures startDate.Some? && endDate.Some? ==>
        status == Ok && rows == FeesInRange(athletes, fees, nextFeeId, startDate.value, endDate.value)
    {
      if startDate.None? || endDate.None? {
        return BadRequest, [];
      }
      status, rows := Ok, FeesInRange(athletes, fees, nextFeeId, startDate.value, endDate.value);
    }

    /** POST /fees: field check, then the athlete lookup, then the insert. */
    method CreateFee(body: FeeBody, now: int) returns (status: Status, created: Option<CreatedFee>)
      requires Valid()
      modifies this
      ensures Valid()
      ensures !BodyComplete(body) ==> status == BadRequest && created == None && unchanged(this)
      ensures BodyComplete(body) && body.athleteId.value !in old(athletes) ==>
        status == NotFound && created == None && unchanged(this)
      ensures BodyComplete(body) && body.athleteId.value in old(athletes) ==>
        && status == Created
        && old(nextFeeId) !in old(fees)
        && fees == old(fees)[old(nextFeeId) := NewFee(body, now)]
        && created == Some(CreatedFee(old(nextFeeId), NewFee(body, now)))
        && athletes == old(athletes)
        && nextFeeId == old(nextFeeId) + 1 && nextAthleteId == old(nextAthleteId)
    {
      if !BodyComplete(body) {
        return BadRequest, None;
      }
      if body.athleteId.value !in athletes {
        return NotFound, None;
      }
      var instance := new FeeInstance.Build(Fee(body.startDate.value, body.endDate.value, body.total.value,
                                                ReceivedOrZero(body), 0, body.athleteId.value, now, now));
      instance.BeforeValidate();
      var row := instance.Row();
      assert row == NewFee(body, now);
      fees := fees[nextFeeId := row];
      created := Some(CreatedFee(nextFeeId, row));
      nextFeeId := nextFeeId + 1;
      status := Created;
    }

    /** GET /fees: every fee, newest first, each with its athlete summary. */
    method GetAllFees() returns (status: Status, rows: seq<FeeRow>)
      requires Valid()
      ensures status == Ok && rows == AllFees(athletes, fees, nextFeeId)
      ensures forall r :: r in rows ==> r.athlete.Some? && r.athlete.value.id == r.fee.athleteId
    {
      rows := AllFees(athletes, fees, nextFeeId);
      JoinedRowsCarryAthlete(athletes, fees, rows);
      status := Ok;
    }

    /** GET /fees/:id, with the include corrected to name the imported athlete model. */
    method GetFeeById(id: int) returns (status: Status, row: Option<FeeRow>)
      requires Valid()
      ensures (status, row) == FeeById(athletes, fees, id)
    {
      status, row := FeeById(athletes, fees, id).0, FeeById(athletes, fees, id).1;
    }

    /**
     * PUT /fees/:id: the lookup, then `fee.update(body)`, which assigns the
     * supplied columns, runs the hook, validates NOT NULL and writes the row;
     * a null column or an unknown athlete makes the write fail with 500.
     */
    method UpdateFee(id: int, patch: FeePatch, now: int) returns (status: Status, updated: Option<Fee>)
      requires Valid()
      modifies this
      ensures Valid()
      ensures id !in old(fees) ==> status == NotFound && updated == None && unchanged(this)
      ensures id in old(fees) && FeesModel.PatchHasNull(patch) ==> status == ServerError && updated == None && unchanged(this)
      ensures id in old(fees) && !FeesModel.PatchHasNull(patch) && patch.athleteId.Set? && patch.athleteId.value !in old(athletes) ==>
        status == ServerError && updated == None && unchanged(this)
      ensures id in old(fees) && !FeesModel.PatchHasNull(patch) && (patch.athleteId.Set? ==> patch.athleteId.value in old(athletes)) ==>
        && status == Ok
        && fees == old(fees)[id := FeesModel.Patched(old(fees)[id], patch, now)]
        && updated == Some(FeesModel.Patched(old(fees)[id], patch, now))
        && athletes == old(athletes)
        && nextFeeId == old(nextFeeId) && nextAthleteId == old(nextAthleteId)
    {
      if id !in fees {
        return NotFound, None;
      }
      if FeesModel.PatchHasNull(patch) {
        return ServerError, None;
      }
      var instance := new FeeInstance.Build(fees[id]);
      instance.Assign(patch);
      instance.BeforeValidate();
      if instance.athleteId !in athletes {
        return ServerError, None;
      }
      if instance.Row() != fees[id] {
        instance.updatedAt := now;
      }
      var row := instance.Row();
      assert row == FeesModel.Patched(fees[id], patch, now);
      fees := fees[id := row];
      status, updated := Ok, Some(row);
    }

    /** DELETE /fees/:id. */
    method DeleteFee(id: int) returns (status: Status)
      requires Valid()
      modifies this
      ensures Valid()
      ensures id !in old(fees) ==> status == NotFound && unchanged(this)
      ensures id in old(fees) ==> status == Ok && fees == old(fees) - {id} && athletes == old(athletes)
      ensures nextFeeId == old(nextFeeId) && nextAthleteId == old(nextAthleteId)
    {
      if id !in fees {
        return NotFound;
      }
      fees := fees - {id};
      status := Ok;
    }

    // ------------------------------------------------------------ athletes

    /** POST /athletes: field and file check, then the insert, which the unique index may refuse. */
    method CreateAthlete(form: AthleteForm, document: Option<Upload>, photo: Option<Upload>, now: int)
      returns (status: Status, created: Option<AthleteRow>)
      requires Valid()
      modifies this
      ensures Valid()
      ensures !FormComplete(form, document, photo) ==> status == BadRequest && created == None && unchanged(this)
      ensures FormComplete(form, document, photo) && NicTaken(old(athletes), form.nicNumber.value, None) ==>
        status == Conflict && created == None && unchanged(this)
      ensures FormComplete(form, document, photo) && !NicTaken(old(athletes), form.nicNumber.value, None) ==>
        && status == Created
        && old(nextAthleteId) !in old(athletes)
        && athletes == old(athletes)[old(nextAthleteId) := Registered(form, document, photo, now)]
        && created == Some(AthleteRow(old(nextAthleteId), Registered(form, document, photo, now)))
        && fees == old(fees)
        && nextAthleteId == old(nextAthleteId) + 1 && nextFeeId == old(nextFeeId)
    {
      if !FormComplete(form, document, photo) {
        return BadRequest, None;
      }
      if NicTaken(athletes, form.nicNumber.value, None) {
        return Conflict, None;
      }
      var athlete := Registered(form, document, photo, now);
      WriteKeepsNicUnique(athletes, nextAthleteId, athlete);
      athletes := athletes[nextAthleteId := athlete];
      created := Some(AthleteRow(nextAthleteId, athlete));
      nextAthleteId := nextAthleteId + 1;
      status := Created;
    }

    /** GET /athletes: every athlete, newest first. */
    method GetAllAthletes() returns (status: Status, rows: seq<AthleteRow>)
      requires Valid()
      ensures status == Ok && rows == AllAthletes(athletes, nextAthleteId)
    {
      status, rows := Ok, AllAthletes(athletes, nextAthleteId);
    }

    /** GET /athletes/:id. */
    method GetAthleteById(id: int) returns (status: Status, athlete: Option<Athlete>)
      requires Valid()
      ensures id !in athletes ==> status == NotFound && athlete == None
      ensures id in athletes ==> status == Ok && athlete == Some(athletes[id])
    {
      athlete := AthleteById(athletes, id);
      status := if athlete.None? then NotFound else Ok;
    }

    /**
     * PUT /athletes/:id: the lookup, then `athlete.update(body)`: NOT NULL
     * validation (500 when it fails), then the write, which the unique index
     * refuses with 409 when another athlete holds the new card number.
     */
    method UpdateAthlete(id: int, patch: AthletePatch, now: int) returns (status: Status, updated: Option<Athlete>)
      requires Valid()
      modifies this
      ensures Valid()
      ensures id !in old(athletes) ==> status == NotFound && updated == None && unchanged(this)
      ensures id in old(athletes) && AthletesModel.PatchHasNull(patch) ==> status == ServerError && updated == None && unchanged(this)
      ensures id in old(athletes) && !AthletesModel.PatchHasNull(patch) && patch.nicNumber.Set?
              && NicTaken(old(athletes), patch.nicNumber.value, Some(id)) ==>
        status == Conflict && updated == None && unchanged(this)
      ensures id in old(athletes) && !AthletesModel.PatchHasNull(patch)
              && !(patch.nicNumber.Set? && NicTaken(old(athletes), patch.nicNumber.value, Some(id))) ==>
        && status == Ok
        && athletes == old(athletes)[id := AthletesModel.Patched(old(athletes)[id], patch, now)]
        && updated == Some(AthletesModel.Patched(old(athletes)[id], patch, now))
        && fees == old(fees)
        && nextAthleteId == old(nextAthleteId) && nextFeeId == old(nextFeeId)
    {
      if id !in athletes {
        return NotFound, None;
      }
      if AthletesModel.PatchHasNull(patch) {
        return ServerError, None;
      }
      if patch.nicNumber.Set? && NicTaken(athletes, patch.nicNumber.value, Some(id)) {
        return Conflict, None;
      }
      var athlete := AthletesModel.Patched(athletes[id], patch, now);
      assert !NicTaken(athletes, athlete.nicNumber, Some(id)) by {
        if patch.nicNumber.Keep? {
          forall other | other in athletes && other != id ensures athletes[other].nicNumber != athlete.nicNumber {
          }
        }
      }
      WriteKeepsNicUnique(athletes, id, athlete);
      athletes := athletes[id := athlete];
      status, updated := Ok, Some(athlete);
    }

    /** DELETE /athletes/:id: removes the athlete and, through the foreign key, all of its fees. */
    method DeleteAthlete(id: int) returns (status: Status)
      requires Valid()
      modifies this
      ensures Valid()
      ensures id !in old(athletes) ==> status == NotFound && unchanged(this)
      ensures id in old(athletes) ==>
        && status == Ok
        && athletes == old(athletes) - {id}
        && fees == Cascade(old(fees), id)
      ensures nextAthleteId == old(nextAthleteId) && nextFeeId == old(nextFeeId)
    {
      if id !in athletes {
        return NotFound;
      }
      CascadeKeepsConsistent(athletes, fees, nextAthleteId, nextFeeId, id);
      athletes, fees := athletes - {id}, Cascade(fees, id);
      status := Ok;
    }
  }
}
