# Booking engine: model and proofs

The service scheduler books workshop appointments for car dealerships. A booking takes one technician
who holds a skill, one bay of a type and one vehicle for an interval inside opening hours. Any number
of bookings run side by side on one PostgreSQL database. This project models the booking engine and
proves what it promises. `dafny verify dfyconfig.toml` checks everything.

## How the model is built

* **Scheduling rules.** `Intervals`, `Policy`, `Assignment`, `Hours`, `Availability` hold the domain
  rules. The loops of the code are Dafny loops (`LoadMinutes`, `QualifiedTechnicians`, `Assign`,
  `AvailableSlots`, the in-place sort behind `Choose`). Each is proved equal to a function, and what
  the rule means is proved about that function.
* **Tables.** `Schema` holds the reference data, the appointment row with its CHECK and foreign keys,
  the three partial exclusion constraints, and the day's schedule as a per-resource filter of the
  table. `Loader` is the one-pass loader with its index maps.
* **The service.** `Transaction.BookingTx` is the transaction object: a statement counter, its own
  uncommitted row and record, its locks. It lives in a `World` that says what committed tables each
  statement sees (READ COMMITTED), which statements fail and which inserts are deadlock victims.
  `Service.Book` and `Service.AssignAndInsert` are the booking and its retry loop; `Service.SlotsFor`
  is the availability query.
* **The same booking in three shapes.** `Booking.BookAtomically` books in one indivisible step.
  `Retry.RunUnder` runs the transaction statement by statement against an arbitrary environment.
  `Protocol` runs any number of transactions over shared tables and locks, one statement at a time,
  with aborts, cancellations and writers who take no lock. `Service.Book` equals `RunUnder` in the
  same world; alone on good tables it is `BookAtomically` (`Alone.BookAloneIsAtomic`); each statement of
  `Protocol` is a statement of it (`Conformance.StatementsAgree`), and each transaction that commits in
  a run of `Protocol` has done what `Service.Book` does in the world it met (`Answers.CommitsAreAnswers`).
* **Theorems about whole runs.** `Runs` and `Progress` (anyone may write), `Races` and `Load` (bookings
  and cancellations), `Serial` and `LastSlots` (only bookings), `Retry` and `Conformance` (one booking
  against any interference), `Alone` (one booking on any tables), `Views` and `Contention` (how many
  attempts are enough), `Agreement` (availability against booking), `Balance` (the policy over a day).
  `Promises` says what one booking and availability mean in rows, instants and reference data alone,
  without the functions of the model. `Safety` and `Tables` hold the step-by-step invariants;
  `Calendars`, `Crowding` and `Witnesses` show where the conditions of the theorems are needed.

A time is a number of nanoseconds, a date a day number, an identifier a natural number whose order is
the order of the identifiers in the database. A time zone is the civil date of an instant and the
instant of a wall-clock time. What most proofs need of it is `Hours.ClockFits`: civil days do not run
into each other, an opening window lies inside its day, and an instant of the window has that date.
Every zone with a constant offset meets it (`Hours.FixedOffsetFits`). For bookings to lose no races the
weaker `Hours.CalendarFits` is enough, and it is exactly what is needed (`Calendars.CalendarIsExact`).
Each request carries the clock reading taken for it; readings of different requests are unrelated.

## What came out differently from the documentation

* `Interval.Overlaps` is documented as "share any instant". That holds exactly on non-empty ranges
  (`Intervals.OverlapsIffShareInstant`); only the `start < end` CHECK makes it agree with `&&` in the
  exclusion constraints (`Schema.CheckIsLoadBearing`).
* The comment on the retry loop keeps it for cross-day vehicle conflicts. With bookings as the only
  inserters there are none, and the first insert never fails or waits (`Races.NoLostRaces`).
* Availability promises times that can be booked. On tables whose rows keep the opening hours it does
  (`Agreement.ListedIffBookable`). On others, a listed time is confirmed exactly if no row that starts on
  another day holds the selected pair or the vehicle (`Agreement.ListedIsConfirmedUnlessHidden`); one
  foreign row across midnight is enough for CONTENTION (`Witnesses.ListedButContended`).
* ADR-0001 argues that every lost race uses up one technician and one bay. For such losses the budget
  is sufficient (`Contention.BudgetSuffices`). A competitor may also take only one of the two chosen
  resources. With T technicians and B bays that qualify, CONTENTION is then possible exactly if the
  budget is at most T + B - 2 and the dealership has a technician or a bay that does not qualify, or at
  most T + B - 3 and all qualify; a kind without such spare members needs at least two
  (`Contention.ContentionBound` for all budgets, `Crowding.ContentionReached` and
  `Crowding.ContentionInRun` for budgets up to 1440). With three technicians, three bays and the
  default of three attempts the budget is four: contention is possible if there is a spare technician
  or bay, and impossible if all qualify.
* `docs/risk-areas.md` says that a zone whose DST starts at midnight resolves the missing midnight to
  01:00. `time.Date` resolves it to 23:00 of the day before in zones west of Greenwich. An appointment
  after 23:00 on that day is then outside its own day's bounds, and the next request for that hour is
  told CONTENTION (`Witnesses.MissingMidnightContends`).
* A repeated key is answered with the last recorded outcome, not with the first. If a request read its
  clock before a record expired but commits after the key has been used again, it gets the newer
  record (`Runs.ReplayFollowsLastWriter`, `Witnesses.DelayedRepeatMissesItsRecord`).
* Key locks and day locks share one identifier space, so the fixed order key, then day, does not alone
  exclude waiting in a circle, whoever else writes. It can happen exactly when two or more requests
  with different key locks and no live record form a cycle in which each one's day lock has the
  identifier of the next one's key lock (`Progress.NoWaitCycle`, `Witnesses.LockCycleDeadlocks`). A
  single such coincidence is harmless; two crossed ones suffice (`Witnesses.SomeLocksDeadlock`).

## Model

| member | source | states |
|---|---|---|
| `Intervals.OverlapsIffShareInstant` | internal/domain/interval.go:23-27 | the comparison means "share an instant" exactly on non-empty ranges |
| `Intervals.EmptyRangeEscapesExclusion` | internal/repository/postgres/migrations/0001_initial_schema.sql:95-108 | an empty range inside another overlaps it for the code and shares no instant with it, so the exclusion constraint does not see it |
| `Intervals.LoadMinutes` | internal/domain/assign.go:31-38 | the loop returns the sum of whole minutes, each truncated toward zero |
| `Intervals.LoadIgnoresOrder` | internal/domain/assign.go:31-38 | the load depends on the multiset of intervals only |
| `Intervals.WholeMinutesCount` | internal/domain/assign.go:31-38 | the minutes of a duration are the whole minutes of 60,000,000,000 nanoseconds in it, truncated toward zero |
| `Intervals.LoadMeasuresTime` | internal/domain/assign.go:31-38 | the load is the total time in minutes, less than a minute per interval below it, and exactly it for whole minutes |
| `Intervals.PackedLoadBound` | internal/domain/assign.go:31-38 | pairwise disjoint intervals inside a window never add up to more minutes than the window |
| `Policy.SortStable` | internal/domain/policy.go:27-33 | the copy is rearranged in place into ascending order by (load, id), with the same members |
| `Policy.AscendingIsUnique` | internal/domain/policy.go:28-33 | a candidate list has only one ascending rearrangement, so the order of ties, and with it the choice of sort, makes no difference |
| `Policy.Choose` | internal/domain/policy.go:22-35 | nothing for no candidates, otherwise the least candidate |
| `Policy.LeastLoadedIsLeast` | internal/domain/policy.go:18-35 | the chosen candidate is one of the candidates and none of them comes before it |
| `Policy.LeastIsUnique` | internal/domain/policy.go:11-16 | any two candidate lists with the same members give the same choice |
| `Assignment.QualifiedTechnicians` | internal/domain/qualification.go:3-13 | the loop keeps the holders of the skill, in order |
| `Assignment.SkilledMembers` | internal/domain/qualification.go:3-13 | exactly the holders of the skill are kept |
| `Assignment.QualifiedBays` | internal/domain/qualification.go:15-24 | the loop keeps the bays of the type, in order |
| `Assignment.TypedMembers` | internal/domain/qualification.go:15-24 | exactly the bays of the type are kept |
| `Assignment.FreeCandidates` | internal/domain/assign.go:51-69 | the candidate loop collects the free members with their loads, and a map from each to its record |
| `Assignment.Assign` | internal/domain/assign.go:50-92 | the imperative selection equals the specification `Select`, and returns the records of a free technician and bay with the chosen identifiers |
| `Assignment.SelectCharacterised` | internal/domain/assign.go:40-92 | success exactly if a free qualified technician, a free qualified bay and a free vehicle exist; the pair is least by (load, id) of each kind; a refusal lists exactly the kinds with nobody free, the bay first, resources before vehicle |
| `Assignment.SelectIgnoresOrder` | internal/domain/policy.go:11-16 | the verdict does not change when technicians, bays or booked lists are permuted |
| `Hours.AcceptedIffInsideSomeWindow` | internal/domain/hours.go:70-97 | a time is accepted exactly if it is not past and the whole job lies in some date's window; each of the three error codes has its exact condition |
| `Hours.DecidedByWallClock` | internal/domain/hours.go:70-97 | in any zone: the past, then the weekday's hours from the instant of the opening time to that of the closing time, then the closing time |
| `Hours.DecidedByTimeOfDay` | internal/domain/hours.go:57-97 | with a constant offset: accepted exactly if the weekday of the start has hours and the time of day lies from opening on and the job is done by closing; each error code likewise |
| `Hours.FixedOffsetFits` | internal/domain/hours.go:57-68 | constant-offset zones meet the clock condition for any opening hours within the day |
| `Hours.ClockFitsCalendar` | internal/domain/hours.go:57-68 | the clock condition implies the weaker calendar condition |
| `Calendars.UnfitCalendarLoses` | internal/service/scheduler.go:220-226 | for any calendar without that condition, a dealership with good tables and a run of bookings in which an insert loses its race |
| `Calendars.CalendarIsExact` | internal/service/scheduler.go:220-226 | bookings of a dealership never lose a race if and only if its calendar meets the condition |
| `Availability.AvailableSlots` | internal/domain/availability.go:20-36 | the grid walk, which terminates, returns the specified list |
| `Availability.SlotsExact` | internal/domain/availability.go:10-36 | the result is strictly ascending and holds exactly the grid points that are not past, fit before closing and can be assigned |
| `Availability.SlotsAntitone` | internal/domain/availability.go:10-36 | a busier schedule offers no slot that a less busy one does not |
| `Schema.ExclusionForbidsClashes` | internal/repository/postgres/migrations/0001_initial_schema.sql:95-114 | on rows that pass the CHECK, the three constraints accept a row exactly if it clashes with no other |
| `Schema.FirstConflictReported` | internal/repository/postgres/migrations/0001_initial_schema.sql:95-114 | of several conflicts the one declared first is reported |
| `Schema.CheckIsLoadBearing` | internal/repository/postgres/migrations/0001_initial_schema.sql:95-114 | without the CHECK a zero-length appointment on a taken bay would be accepted |
| `Schema.BookedForMembers` | internal/repository/postgres/repository.go:279-304 | a resource's day holds exactly the intervals of its confirmed rows that start in the day |
| `Schema.OtherDayLeavesSchedule` | internal/repository/postgres/repository.go:279-304 | a row outside the day leaves the whole schedule unchanged |
| `Loader.ListTechnicians` | internal/repository/postgres/repository.go:243-253 | the list and an index map that finds each member by id |
| `Loader.ListBays` | internal/repository/postgres/repository.go:262-274 | the same for bays |
| `Loader.LoadDay` | internal/repository/postgres/repository.go:226-306 | the one-pass loop gives every technician, bay and the queried vehicle what a filter of the table per resource gives |
| `Loader.LoaderConserves` | internal/repository/postgres/repository.go:289-304 | booked entries over technicians, over bays, and confirmed rows of the day are equally many |
| `Loader.RowOrderIrrelevant` | internal/repository/postgres/repository.go:279-283 | the selection is the same in whatever order the rows arrive |
| `Booking.FindRowFinds` | internal/service/scheduler.go:269-275 | the appointment lookup returns the row with the id, and fails only if there is none |
| `Booking.ReadingAdvances` | internal/service/scheduler.go:300-317 | a schedule read leaves fewer statements to execute, although it may raise the budget |
| `Safety.SelectedRowOk` | internal/repository/postgres/migrations/0002_enforce_skill_and_bay_type.sql:33-46 | the row of a selected pair passes the CHECK and every foreign key, so 23503 is never raised for it |
| `Tables.AdmittedRowApart` | internal/repository/postgres/migrations/0001_initial_schema.sql:95-114 | a row let through by the constraints keeps apart from all committed and all uncommitted rows |
| `Tables.CommitKeepsTables` | internal/repository/postgres/repository.go:308-324 | a commit publishes its writes and keeps both tables in order |
| `Tables.OnlyOwnTxnMoves` | internal/repository/postgres/repository.go:308-324 | before its commit a transaction changes neither table nor any other transaction |
| `Safety.AbortUndoes` | internal/repository/postgres/repository.go:308-324 | any open transaction can be rolled back; its writes and exactly its locks are gone, nothing else changes |
| `Runs.InvariantsAlwaysHold` | internal/repository/postgres/migrations/0001_initial_schema.sql:95-115 | INV-1 to INV-5 and INV-7, known customers and start before end in every state that bookings, aborts, cancellations and lock-ignoring writers can reach |
| `Runs.RecordsAlwaysConsistent` | internal/repository/postgres/migrations/0001_initial_schema.sql:122-138 | a CREATED record points to an existing appointment of its payload, a REJECTED one has a durable code and no appointment, CONTENTION is never stored |
| `Runs.AbortedLeavesNoTrace` | internal/repository/postgres/repository.go:308-324 | every row and every record in the tables comes from the beginning, a foreign writer or a committed transaction |
| `Runs.KeySeparation` | internal/service/scheduler.go:206-250 | two recorded outcomes under one key have clock readings at least 24 hours apart and strictly increasing expiry, for any clocks |
| `Runs.ReplayFollowsLastWriter` | internal/service/scheduler.go:206-218 | a request gets the last recorded outcome of its key exactly while its clock reading is less than 24 hours after that request's, another dealership, vehicle, service or start gets KEY_REUSED, and neither writes anything |
| `Runs.NoWriteBeforeExpiry` | internal/repository/postgres/booking_tx.go:147-150 | a request within 24 hours of any earlier recorded one under its key writes nothing |
| `Races.DayRowsClear` | internal/domain/assign.go:50-92 | on any tables and calendar, a pair selected on a day conflicts with no row of that day |
| `Races.SelectedRowClear` | internal/service/scheduler.go:283-292 | a pair selected on one dealership-day conflicts with no row in hours of the whole table |
| `Races.InsertGoesThrough` | internal/service/scheduler.go:319-326 | with bookings as the only inserters, the first insert of a booking is never refused and never waits, whatever has been cancelled since its read |
| `Serial.Serialisable` | internal/service/scheduler.go:205-253 | every interleaving ends with the tables and results of booking the committed requests one at a time in commit order, which names each finished transaction once with its own request and result |
| `Races.NoLostRaces` | internal/service/scheduler.go:220-226 | in runs of bookings and cancellations no insert loses, none waits, nobody gets CONTENTION, and INV-6 holds |
| `Races.HoursAlwaysKept` | internal/service/scheduler.go:184-202 | INV-6 with bookings as the only inserters, with cancellations and aborts, for any clocks |
| `Progress.WaitCycleIsLockCycle` | internal/repository/postgres/booking_tx.go:115-138 | wherever transactions of any run wait for each other in a circle, their requests hold a cycle of day locks that coincide with key locks |
| `Progress.NoWaitCycle` | internal/service/scheduler.go:220-224 | unless the requests hold such a cycle, no state that bookings, foreign writers and cancellations can reach has transactions waiting in a circle |
| `Progress.SomeoneCanAct` | internal/repository/postgres/booking_tx.go:115-138 | without such a cycle, while a booking is unfinished some transaction can take a step that is neither an abort nor a deadlock victim's |
| `Progress.EveryRunCanFinish` | internal/service/scheduler.go:205-253 | without such a cycle, from every state any run can reach, the bookings alone can go on, without aborts and deadlock victims, until all have their results |
| `Progress.RunsAreBounded` | internal/service/scheduler.go:291-327 | no run, whoever else writes, holds more booking statements than the budgeted work |
| `Load.LoadNeverExceedsWindow` | internal/domain/assign.go:31-38 | in every state bookings and cancellations reach, a resource's day is pairwise disjoint and its minutes are at most the window's |
| `LastSlots.DecidedByOpenSets` | internal/domain/assign.go:50-92 | a request with a free vehicle is decided by who is free in the whole table, although only one day was read |
| `LastSlots.LastSlotsGoToExactlyAsMany` | docs/requirements.md:329 | N requests for one slot with T free technicians and B free bays: exactly min(N, T, B) are confirmed and all others are told which kinds ran out |
| `Retry.LoopIsHonest` | internal/service/scheduler.go:299-345 | for any interference, after n lost attempts the next schedule read decides: a refusal is that read's verdict, a booking is the pair it selected and was accepted at the following statement, and CONTENTION arises exactly when all budgeted inserts lost and the last selection succeeds |
| `Contention.BudgetSuffices` | docs/adr/0001-double-booking-prevention.md:47-62 | if every lost race takes both the chosen technician and the chosen bay, Book never answers CONTENTION |
| `Contention.ContentionBound` | internal/service/scheduler.go:300-313 | if a lost race takes at least one of the two, CONTENTION needs a budget of at most T + B - 2 with a spare technician or bay, of at most T + B - 3 where all qualify, and two of each kind without a spare |
| `Crowding.ContentionReached` | docs/adr/0001-double-booking-prevention.md:47-62 | for every such size and kind of dealership, competitors with regular appointments of full length, none in conflict with another, take at least one of the two resources each and bring Book to CONTENTION |
| `Crowding.ContentionInRun` | docs/adr/0001-double-booking-prevention.md:47-62 | the same as a run of the protocol from empty tables, with foreign inserts between the statements of one booking, whose history ends in CONTENTION |
| `Agreement.ListedIffBookable` | internal/service/scheduler.go:113-127 | on good tables a time is listed exactly if it is a grid time of the date and Book, alone on the same state, confirms it |
| `Agreement.ListedIsConfirmedUnlessHidden` | internal/service/scheduler.go:113-127 | on any rows that meet the schema, Book confirms a listed time exactly if no row that starts outside the day holds the selected pair or the vehicle, and answers CONTENTION otherwise; a grid time that is not listed is refused |
| `Agreement.MoreRowsFewerSlots` | internal/service/scheduler.go:113-127 | confirmed rows added to the table only remove slots, cancelled ones only add them |
| `Balance.TechniciansStayLevel` | internal/domain/policy.go:22-35 | after any bookings of Book in turn, on any tables with an empty day, the holders of a skill differ by at most the longest duration added, in minutes and in time |
| `Balance.BaysStayLevel` | internal/domain/policy.go:22-35 | the same for the bays of one type |
| `Transaction.LostRaceIffBeaten` | internal/repository/postgres/booking_tx.go:73-113 | an insert error is a lost race exactly for a conflict or a deadlock, and names the resource of the violated constraint |
| `Transaction.BookingTx.constructor` | internal/repository/postgres/booking_tx.go:19-22 | a new transaction has written nothing and holds no lock |
| `Transaction.BookingTx.DaySchedule` | internal/repository/postgres/booking_tx.go:26-30 | the schedule of the rows committed at this statement and of its own |
| `Transaction.BookingTx.InsertAppointment` | internal/repository/postgres/booking_tx.go:36-71 | an accepted row becomes the transaction's own; a refused one leaves it as it was and returns the mapped error |
| `Transaction.BookingTx.LockIdempotencyKey` | internal/repository/postgres/booking_tx.go:115-123 | takes the lock of (dealership, key) |
| `Transaction.BookingTx.LockSchedulingDay` | internal/repository/postgres/booking_tx.go:125-138 | takes the lock of (dealership, date) |
| `Transaction.BookingTx.FindIdempotencyRecord` | internal/repository/postgres/booking_tx.go:140-168 | the record of the key if it expires after the given time, otherwise none |
| `Transaction.BookingTx.Appointment` | internal/repository/postgres/booking_tx.go:32-34 | the row with the id, or a failure |
| `Transaction.BookingTx.SaveIdempotencyRecord` | internal/repository/postgres/booking_tx.go:170-205 | the record becomes the transaction's write for its key |
| `Service.TryInsert` | internal/service/scheduler.go:318-326 | the three ways an insert ends for the loop: written, lost to a competitor, broken off |
| `Service.AssignAndInsert` | internal/service/scheduler.go:299-345 | under the day lock, the loop, with its budget and transient outcome, computes the recursive specification and leaves at most the booked row |
| `Service.RoundsAreStatements` | internal/service/scheduler.go:299-345 | that specification is the statement machine from the same point |
| `Service.ReplayStored` | internal/service/scheduler.go:263-281 | the stored appointment, the stored refusal, or KEY_REUSED for another payload; writes nothing |
| `Service.FindStored` | internal/service/scheduler.go:210-217 | under the key lock, no live record goes on to the day lock, a live one is reproduced |
| `Service.BookOnDay` | internal/service/scheduler.go:220-252 | from the day lock on: select, insert, and record unless transient; it answers only with the day lock taken |
| `Service.Book` | internal/service/scheduler.go:150-261 | result and writes are those of the statement machine in the same world; an answer comes with exactly the key lock if a live record was found, otherwise the key lock if there is a key and then the day lock |
| `Service.SlotsFor` | internal/service/scheduler.go:87-128 | not found exactly for unknown references, a failure exactly if the schedule read of an open day fails, nothing on a closed day, otherwise the slots of the day |
| `Promises.BadRequestsAreNamed` | internal/service/scheduler.go:150-202 | in any world: unknown references are RESOURCE_NOT_FOUND, then the past, the weekday's opening hours and its closing time have their own codes, with nothing written; any other request passes the checks and no fresh answer to it has one of these codes |
| `Promises.SelectionInPlainTerms` | internal/domain/assign.go:40-92 | on any rows of any date, who is refused and why, and which technician and bay get the work, by assigned minutes and then identifier, in terms of rows and instants |
| `Promises.LoneBooking` | internal/service/scheduler.go:150-261 | on any rows that meet the schema and in any zone, the answer of a lone booking and every field of the row and the record it writes |
| `Promises.ListedTimes` | internal/service/scheduler.go:113-127 | exactly the listed times of a date: whole steps after the weekday's opening time, not past, done by closing, with a technician, a bay and the vehicle unengaged |
| `Promises.CancelledCanBeBooked` | docs/requirements.md:325 | a cancelled appointment no longer counts: Book, asked for the same again, confirms |
| `Alone.BookAlone` | internal/service/scheduler.go:150-261 | on any tables that nobody else touches: the stored outcome, otherwise what the selection decides, except that a selected row that violates a constraint is answered with CONTENTION |
| `Alone.ViolationIsHidden` | internal/service/scheduler.go:283-292 | only a row that starts outside the day can conflict with a selected pair |
| `Alone.BookAloneIsAtomic` | internal/service/scheduler.go:150-261 | alone on good tables, Book returns and commits exactly what the indivisible booking does |
| `Conformance.StatementsAgree` | internal/service/scheduler.go:205-253 | each statement of the concurrent protocol is the step that Book makes on the same tables |
| `Conformance.BookIsHonest` | internal/service/scheduler.go:150-261 | for any interference: a live record is repeated and nothing written; any other answer comes from the schedule read after n lost attempts of this transaction, with at most one row and its record |
| `Conformance.BookedAsRequested` | internal/service/scheduler.go:172-202 | for any interference, a fresh confirmation is for the requested vehicle, its owner, service, start and full duration, in hours, on a qualified pair of the dealership, conflicting with nothing committed at the very statement that inserted it |
| `Answers.CommitsAreAnswers` | internal/service/scheduler.go:205-261 | each entry of the commit history of any run is the answer, row and record of Book in a world that shows the run's own tables at that transaction's steps, in their order |
| `Alone.HiddenConflictContends` | internal/service/scheduler.go:328-344 | without a live record, a lone request that finds a pair hears CONTENTION exactly if a row that starts outside its day conflicts; otherwise it is booked, and recorded if it has a key |
| `Witnesses.MissingMidnightContends` | internal/domain/hours.go:98-104 | a zone without a midnight, outside the calendar condition, where a lone booking on good tables is told CONTENTION |
| `Witnesses.DelayedRepeatMissesItsRecord` | internal/repository/postgres/booking_tx.go:147-150 | a delayed repeat of a request that Book has confirmed is answered with the newer refusal under its key |
| `Witnesses.ListedButContended` | internal/service/scheduler.go:113-127 | a concrete dealership where one foreign row across midnight makes a listed time end in CONTENTION |
| `Witnesses.SomeRepeatMissesItsRecord` | internal/repository/postgres/booking_tx.go:147-150 | a concrete dealership and three requests for which this happens |
| `Witnesses.LockCycleDeadlocks` | internal/repository/postgres/booking_tx.go:115-138 | every such cycle of requests without live records can come to wait for itself in a circle, so the condition of NoWaitCycle is exact |
| `Witnesses.SomeLocksDeadlock` | internal/service/scheduler.go:220-224 | a concrete dealership and two requests with crossed identifiers that end up waiting for each other |
| `Witnesses.SomeRush` | docs/requirements.md:329 | a concrete rush of two requests for one technician and one bay, as the theorem on last slots assumes |
| `Witnesses.SomeSkillDay` | internal/domain/policy.go:22-35 | a concrete day as the balance theorem assumes |

## Left out

- Assignment.Assign: the least-loaded policy is built in; a policy that declines a non-empty candidate list or returns a foreign identifier is not modelled.
- Policy.SortStable: an insertion sort stands for the library's stable sort; by AscendingIsUnique every sort gives the same list, so stability is not stated.
- Intervals.LoadMinutes: durations are exact integers; the float conversion in Minutes() and the saturation of time differences beyond 292 years are not modelled.
- Service.AssignAndInsert: the qualified pairs are counted at every look at the day instead of only the first; the later counts are not used.
- Service.Book: the reference lookups before the transaction, like those of SlotsFor, always answer, and the clock reading is a parameter; a lookup that fails, or reference data that changes during a run, is not modelled.
- Transaction.BookingTx.InsertAppointment: the insert, its savepoint and the read-back of the row are one statement; one insert per transaction object, as Book makes.
- Transaction.BookingTx.LockIdempotencyKey: in the service model a lock is granted when asked for; waiting is modelled in Protocol.
- Transaction.BookingTx.LockSchedulingDay: granted when asked for, as above.
- Crowding.ContentionReached: each competitor's appointment takes one minute, the shortest duration the schema allows, of a job that takes the day, so the budget is at most 1440 attempts; the same for Crowding.ContentionInRun.
- Balance.TechniciansStayLevel: assumes, as the balance argument does, that all bookings of the day need the one skill and that every holder is free when its turn comes.
- HTTP layer, DTOs, status codes, router, middleware, configuration, metrics, traces and logs.
- SQL text and driver errors: tables with constraints and READ COMMITTED reads; apart from 23P01, 40P01 and 23503, every database failure is one kind of failure that rolls back.
- PostgreSQL internals: GiST, deadlock detection time, savepoint recovery, quality of hashtext. Lock identifiers are arbitrary functions of (dealership, key) and (dealership, date). A foreign writer is a single row committed at once.
- SHA-256 and timestamp formatting in the fingerprint: the payload itself stands for its hash.
- Identifiers are natural numbers; malformed identifiers are the same as unknown ones.
- The calendar: parsing of dates, year/month/day arithmetic and IANA zone tables; zones are abstract.
- The backfill UPDATE of migration 0002, the cancellation endpoint (cancelling is a step of the environment), the purge of expired keys, custom assignment policies and display fields.
