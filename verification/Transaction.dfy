/** One open booking transaction over a database that others keep changing (internal/repository/postgres/
    booking_tx.go, service/ports.go BookingTx). */
module Transaction {
  import opened Intervals
  import opened Policy
  import opened Assignment
  import opened Schema
  import opened Booking
  import opened Loader

  /** What the transaction meets, statement by statement: the committed tables it sees (READ
      COMMITTED), which statements fail, which inserts are chosen as deadlock victims, and the
      identifiers that new rows get. */
  datatype World = World(tables: nat -> Db, fault: nat -> bool, deadlock: nat -> bool, id: nat -> Id)

  /** The write model of a booking. */
  datatype NewAppointment = NewAppointment(
    dealership: Id, vehicle: Id, customer: Id, service: Id, skill: Id, bayType: BayType, technician: Id, bay: Id,
    iv: Interval)

  function Stored(na: NewAppointment, id: Id): Row {
    Row(id, na.dealership, na.vehicle, na.customer, na.service, na.skill, na.bayType, na.technician, na.bay, na.iv,
        Confirmed)
  }

  // ----- What the database answers to an insert -----

  /** An error with its SQLSTATE and constraint name, or one that did not come from the database. */
  datatype PgError = PgError(code: string, constraint: string) | Unknown

  /** ErrLostRace wrapped around a domain error, or anything else. */
  datatype InsertFailure = LostRace(error: DomainError) | Infrastructure

  /** The constraints' names in the schema. */
  function ConstraintName(c: Constraint): string {
    match c
    case BayOverlap => "appointment_no_bay_overlap"
    case TechnicianOverlap => "appointment_no_technician_overlap"
    case VehicleOverlap => "appointment_no_vehicle_overlap"
  }

  function MapInsertError(e: PgError): InsertFailure {
    if e.Unknown? then Infrastructure
    else if e.code == "40P01" then LostRace(DomainError(Contention, []))
    else if e.code == "23503" then Infrastructure
    else if e.code != "23P01" then Infrastructure
    else if e.constraint == "appointment_no_bay_overlap" then LostRace(DomainError(NoAvailableResource, [BAY]))
    else if e.constraint == "appointment_no_technician_overlap" then
      LostRace(DomainError(NoAvailableResource, [TECHNICIAN]))
    else if e.constraint == "appointment_no_vehicle_overlap" then LostRace(DomainError(VehicleAlreadyBooked, []))
    else Infrastructure
  }

  /** The database's answer to inserting r beside the committed rows it sees. */
  function Refusal(shop: Shop, rows: seq<Row>, r: Row, fault: bool, deadlock: bool): Option<PgError> {
    if fault then Some(Unknown)
    else if deadlock then Some(PgError("40P01", ""))
    else
      match Violation(rows, r)
      case Some(c) => Some(PgError("23P01", ConstraintName(c)))
      case None => if RowOk(shop, r) then None else Some(PgError("23503", ""))
  }

  datatype Result<+T> = Ok(value: T) | Failed

  datatype Insertion = Inserted(row: Row) | NotInserted(failure: InsertFailure)

  /** The insert lost a race, in the only two ways that happens: a conflict with a committed row, or a
      deadlock with an uncommitted one. */
  predicate Beaten(w: World, k: nat, r: Row) {
    w.deadlock(k) || Violation(w.tables(k).rows, r).Some?
  }

  /** A retryable loss is reported exactly when the insert was beaten; the error names the resource of
      the violated constraint, or contention when nothing is known. */
  lemma LostRaceIffBeaten(shop: Shop, w: World, k: nat, r: Row)
    ensures var answer := Refusal(shop, w.tables(k).rows, r, w.fault(k), w.deadlock(k));
            && (answer.None? <==> !w.fault(k) && !Beaten(w, k, r) && RowOk(shop, r))
            && (answer.Some? && MapInsertError(answer.value).LostRace? <==> !w.fault(k) && Beaten(w, k, r))
            && (!w.fault(k) && !Beaten(w, k, r) && !RowOk(shop, r) ==> answer == Some(PgError("23503", "")))
            && (!w.fault(k) && w.deadlock(k) ==> MapInsertError(answer.value) == LostRace(DomainError(Contention, [])))
            && (!w.fault(k) && !w.deadlock(k) && Beaten(w, k, r) ==>
                  MapInsertError(answer.value) ==
                  match Violation(w.tables(k).rows, r).value
                  case BayOverlap => LostRace(DomainError(NoAvailableResource, [BAY]))
                  case TechnicianOverlap => LostRace(DomainError(NoAvailableResource, [TECHNICIAN]))
                  case VehicleOverlap => LostRace(DomainError(VehicleAlreadyBooked, [])))
  {
    assert ConstraintName(BayOverlap)[15] != ConstraintName(TechnicianOverlap)[15];
    assert ConstraintName(BayOverlap)[15] != ConstraintName(VehicleOverlap)[15];
    assert ConstraintName(TechnicianOverlap)[15] != ConstraintName(VehicleOverlap)[15];
    assert "40P01"[0] != "23P01"[0] && "40P01"[0] != "23503"[0] && "23P01"[2] != "23503"[2];
  }

  // ----- The transaction object -----

  class BookingTx {
    const shop: Shop
    const world: World
    var tick: nat
    var row: Option<Row>
    var record: Option<Record>
    var held: seq<LockId>

    constructor (shop: Shop, world: World)
      ensures this.shop == shop && this.world == world
      ensures tick == 0 && row == None && record == None && held == []
    {
      this.shop, this.world := shop, world;
      tick, row, record, held := 0, None, None, [];
    }

    /** The committed rows of the moment and the transaction's own. */
    function Seen(): seq<Row>
      reads this
    {
      if row.Some? then world.tables(tick).rows + [row.value] else world.tables(tick).rows
    }

    method DaySchedule(q: ScheduleQuery) returns (r: Result<DaySchedule>)
      requires ShopOk(shop)
      modifies this`tick
      ensures tick == old(tick) + 1
      ensures r == if world.fault(old(tick)) then Failed else Ok(DayScheduleOf(shop, old(Seen()), q))
    {
      var at := tick;
      var rows := Seen();
      tick := tick + 1;
      if world.fault(at) {
        return Failed;
      }
      var s := LoadDay(shop, rows, q);
      r := Ok(s);
    }

    /** The row is written under a savepoint: when the database refuses it, the transaction goes on as
        if the insert had never been tried. */
    method InsertAppointment(na: NewAppointment) returns (r: Insertion)
      requires row == None
      modifies this`tick, this`row
      ensures tick == old(tick) + 1
      ensures var stored := Stored(na, world.id(old(tick)));
              match Refusal(shop, old(Seen()), stored, world.fault(old(tick)), world.deadlock(old(tick)))
              case None => r == Inserted(stored) && row == Some(stored)
              case Some(e) => r == NotInserted(MapInsertError(e)) && row == old(row)
    {
      var savepoint, rows, at := row, Seen(), tick;
      var stored := Stored(na, world.id(at));
      row, tick := Some(stored), tick + 1;
      var answer := Refusal(shop, rows, stored, world.fault(at), world.deadlock(at));
      if answer.Some? {
        row := savepoint;
        return NotInserted(MapInsertError(answer.value));
      }
      r := Inserted(stored);
    }

    /** Locks are granted when asked for; waiting for them is the business of module Protocol. */
    method LockIdempotencyKey(dealership: Id, key: Key) returns (ok: bool)
      modifies this`tick, this`held
      ensures tick == old(tick) + 1 && ok == !world.fault(old(tick))
      ensures held == if ok then old(held) + [shop.keyLock(dealership, key)] else old(held)
    {
      ok := !world.fault(tick);
      tick := tick + 1;
      if ok {
        held := held + [shop.keyLock(dealership, key)];
      }
    }

    method LockSchedulingDay(dealership: Id, day: int) returns (ok: bool)
      modifies this`tick, this`held
      ensures tick == old(tick) + 1 && ok == !world.fault(old(tick))
      ensures held == if ok then old(held) + [shop.dayLock(dealership, day)] else old(held)
    {
      ok := !world.fault(tick);
      tick := tick + 1;
      if ok {
        held := held + [shop.dayLock(dealership, day)];
      }
    }

    method FindIdempotencyRecord(dealership: Id, key: Key, now: Instant) returns (r: Result<Option<Record>>)
      requires record == None
      modifies this`tick
      ensures tick == old(tick) + 1
      ensures var records := world.tables(old(tick)).records;
              r == if world.fault(old(tick)) then Failed
                   else if (dealership, key) in records && records[(dealership, key)].expires > now
                   then Ok(Some(records[(dealership, key)])) else Ok(None)
    {
      var at, records := tick, world.tables(tick).records;
      tick := tick + 1;
      if world.fault(at) {
        return Failed;
      }
      if (dealership, key) in records && records[(dealership, key)].expires > now {
        return Ok(Some(records[(dealership, key)]));
      }
      r := Ok(None);
    }

    method Appointment(id: Id) returns (r: Result<Row>)
      modifies this`tick
      ensures tick == old(tick) + 1
      ensures var found := FindRow(old(Seen()), id);
              r == if world.fault(old(tick)) || found.None? then Failed else Ok(found.value)
    {
      var at, found := tick, FindRow(Seen(), id);
      tick := tick + 1;
      if world.fault(at) || found.None? {
        return Failed;
      }
      r := Ok(found.value);
    }

    method SaveIdempotencyRecord(rec: Record) returns (ok: bool)
      modifies this`tick, this`record
      ensures tick == old(tick) + 1 && ok == !world.fault(old(tick))
      ensures record == if ok then Some(rec) else old(record)
    {
      ok := !world.fault(tick);
      tick := tick + 1;
      if ok {
        record := Some(rec);
      }
    }
  }
}
