// The runtime's own copy of a schedule, which is what really runs
// (runtime/src/routines.ts, schedules.ts, scheduler.ts): kept in step by the
// hub's events, and failing or pausing on its own in between.
module RoutineTable {
  import opened Wrappers
  import opened Cadences
  import Cron
  import S = Schedules

  type HubId = S.Id
  type RoutineId = nat

  const FAILURES_BEFORE_PAUSE: nat := 3
  const DEFAULT_ZONE: string := "Asia/Kolkata"

  // What a routine does, and when.
  datatype Shape = Shape(instruction: string, line: string, timezone: string, once: bool, title: string)

  datatype Routine = Routine(agent: nat, shape: Shape, hub: Option<HubId>, paused: bool, failures: nat)

  // Whether a cron line can be read in a zone; reading one that cannot be
  // throws, before anything is written.
  type Reader = (string, string) -> bool

  // What handling an event came to: done, and whether the hub was told the
  // schedule is held; refused, because the runtime cannot hold its cadence;
  // or thrown, to be tried again.
  datatype Reply = Done(confirmed: bool) | Declined | Thrown

  datatype Outcome = Outcome(twin: Option<Routine>, reply: Reply)

  function ShapeOf(schedule: S.Row): Shape
    requires Cron.ValidCadence(schedule.cadence)
  {
    Shape(schedule.instruction, Cron.CronOf(schedule.cadence), schedule.cadence.timezone,
          schedule.cadence.repeat == "once", schedule.title)
  }

  // A new routine's shape: a zone left empty becomes the default one.
  function Zoned(shape: Shape): Shape {
    if shape.timezone == "" then shape.(timezone := DEFAULT_ZONE) else shape
  }

  // ----- One schedule's routine, event by event -----

  // What an event makes of the routine for its schedule, if there is one.
  function Apply(readable: Reader, twin: Option<Routine>, e: S.Event): Outcome {
    if e.kind.Deleted? then
      Outcome(if twin.Some? && twin.value.agent == e.schedule.agent then None else twin, Done(false))
    else if !Cron.ValidCadence(e.schedule.cadence) then Outcome(twin, Declined)
    else
      var shape := ShapeOf(e.schedule);
      var paused := e.schedule.status == S.Paused;
      var reply := Done(e.schedule.status == S.Pending);
      if twin.Some? then
        if readable(shape.line, shape.timezone)
        then Outcome(Some(twin.value.(shape := shape, paused := paused, failures := 0)), reply)
        else Outcome(twin, Thrown)
      else if paused then Outcome(None, reply)
      else if readable(shape.line, Zoned(shape).timezone)
      then Outcome(Some(Routine(e.schedule.agent, Zoned(shape), Some(e.id), false, 0)), reply)
      else Outcome(None, Thrown)
  }

  function Fold(readable: Reader, twin: Option<Routine>, events: seq<S.Event>): Option<Routine> {
    if events == [] then twin
    else Apply(readable, Fold(readable, twin, events[..|events| - 1]), events[|events| - 1]).twin
  }

  // An event as the hub writes them: a cadence it accepted, which names a
  // zone, and which the runtime can hold and read.
  predicate Valid(readable: Reader, e: S.Event) {
    e.kind.Deleted? ||
    (&& Cron.ValidCadence(e.schedule.cadence) && e.schedule.cadence.timezone != ""
     && readable(Cron.CronOf(e.schedule.cadence), e.schedule.cadence.timezone))
  }

  // All about one schedule, held by one agent.
  predicate About(id: HubId, agent: nat, e: S.Event) {
    e.id == id && e.schedule.agent == agent
  }

  // The schedule's own words, times and zone, run once exactly if it is a
  // one-off.
  predicate Mirrors(shape: Shape, schedule: S.Row) {
    && Cron.ValidCadence(schedule.cadence)
    && shape.instruction == schedule.instruction && shape.title == schedule.title
    && shape.line == Cron.CronOf(schedule.cadence) && shape.timezone == schedule.cadence.timezone
    && (shape.once <==> schedule.cadence.repeat == "once")
  }

  // What a routine should be, given the last thing said of its schedule.
  predicate Follows(twin: Option<Routine>, e: S.Event) {
    if e.kind.Deleted? then twin.None?
    else
      && Cron.ValidCadence(e.schedule.cadence)
      && (e.schedule.status != S.Paused ==> twin.Some?)
      && (twin.Some? ==>
            && Mirrors(twin.value.shape, e.schedule) && twin.value.hub == Some(e.id)
            && twin.value.failures == 0
            && (twin.value.paused <==> e.schedule.status == S.Paused))
  }

  predicate Mine(twin: Option<Routine>, id: HubId, agent: nat) {
    twin.Some? ==> twin.value.hub == Some(id) && twin.value.agent == agent
  }

  // Whatever had happened to the routine, a valid event puts it right, and
  // handling the event again changes nothing.
  lemma EventPutsRight(readable: Reader, twin: Option<Routine>, e: S.Event, id: HubId, agent: nat)
    requires Valid(readable, e) && About(id, agent, e) && Mine(twin, id, agent)
    ensures var after := Apply(readable, twin, e).twin;
            Follows(after, e) && Mine(after, id, agent) && Apply(readable, after, e).twin == after
  {
  }

  // Any event at all is refused exactly when its cadence cannot be held, and
  // thrown exactly when a line has to be written and cannot be read; either
  // leaves the routine alone. Otherwise it is done, and the hub is told so
  // exactly when it waits to be; a deletion takes only its own agent's.
  lemma EventAnswers(readable: Reader, twin: Option<Routine>, e: S.Event)
    ensures var outcome, c := Apply(readable, twin, e), e.schedule.cadence;
            var deleted, held := e.kind.Deleted?, Cron.ValidCadence(c);
            && (outcome.reply == Declined <==> !deleted && !held)
            && (outcome.reply == Thrown <==>
                  && !deleted && held && (twin.Some? || e.schedule.status != S.Paused)
                  && !readable(Cron.CronOf(c),
                               if twin.None? && c.timezone == "" then "Asia/Kolkata" else c.timezone))
            && (!outcome.reply.Done? ==> outcome.twin == twin)
            && (outcome.reply.Done? ==>
                  && (outcome.reply.confirmed <==> !deleted && e.schedule.status == S.Pending)
                  && (deleted ==> outcome.twin == if twin.Some? && twin.value.agent == e.schedule.agent
                                                  then None else twin))
  {
  }

  // Some event since the last deletion was not a paused one.
  function Asked(events: seq<S.Event>): bool {
    events != [] &&
    var e := events[|events| - 1];
    !e.kind.Deleted? && (e.schedule.status != S.Paused || Asked(events[..|events| - 1]))
  }

  // Handling a schedule's events in order leaves a routine that depends only
  // on the last snapshot: none after a deletion; the same words, cron line
  // and zone, paused exactly when the snapshot is. There is one at all
  // exactly when, since the last deletion, the schedule was ever not paused.
  lemma {:induction false} RoutineFollowsTheSnapshot(readable: Reader, events: seq<S.Event>, id: HubId, agent: nat)
    requires events != [] && forall e <- events :: Valid(readable, e) && About(id, agent, e)
    ensures var twin := Fold(readable, None, events);
            && Mine(twin, id, agent)
            && Follows(twin, events[|events| - 1])
            && (twin.Some? <==> Asked(events))
            && Fold(readable, None, events + [events[|events| - 1]]) == twin
  {
    var last, before := events[|events| - 1], events[..|events| - 1];
    if before != [] {
      RoutineFollowsTheSnapshot(readable, before, id, agent);
    }
    EventPutsRight(readable, Fold(readable, None, before), last, id, agent);
    assert (events + [last])[..|events|] == events;
  }

  // Without the hub's promise of a zone the two ways of writing a routine
  // part: a new one takes the default zone, and the same event handled again
  // takes it away.
  lemma EmptyZoneDrifts(readable: Reader, e: S.Event)
    requires !e.kind.Deleted? && Cron.ValidCadence(e.schedule.cadence) && e.schedule.status != S.Paused
    requires readable(Cron.CronOf(e.schedule.cadence), e.schedule.cadence.timezone)
    requires readable(Cron.CronOf(e.schedule.cadence), Zoned(ShapeOf(e.schedule)).timezone)
    ensures var first := Apply(readable, None, e).twin;
            && (first.Some? && e.schedule.cadence.timezone == "" ==> first.value.shape.timezone == "Asia/Kolkata")
            && (Apply(readable, first, e).twin == first <==> e.schedule.cadence.timezone != "")
  {
  }

  // ----- Running, failing, pausing -----

  // A failure recorded, and what it says about giving up.
  function Failed(r: Routine): Routine {
    r.(failures := r.failures + 1, paused := r.paused || r.failures + 1 >= FAILURES_BEFORE_PAUSE)
  }

  // A claim works out the next time of a routine that repeats, and with that
  // clears its failures; a one-off keeps them.
  function Claimed(r: Routine): Routine {
    if r.shape.once then r else r.(failures := 0)
  }

  // One pass of the scheduler in which the run fails. It passes over routines
  // that are paused.
  function FailingPass(r: Routine): Routine {
    if r.paused then r else Failed(Claimed(r))
  }

  function FailingPasses(r: Routine, n: nat): Routine {
    if n == 0 then r else FailingPass(FailingPasses(r, n - 1))
  }

  // Three failures running are meant to pause a routine. They do so for a
  // one-off and only for it: claiming a routine that repeats clears the count
  // before every run, so it fails for ever.
  lemma {:induction false} GivesUpExactly(r: Routine, n: nat)
    requires !r.paused && r.failures == 0
    ensures FailingPasses(r, n).paused <==> r.shape.once && n >= 3
    ensures FailingPasses(r, n).shape == r.shape
    ensures FailingPasses(r, n).failures ==
            if r.shape.once then (if n <= 3 then n else 3)
            else if n == 0 then 0 else 1
  {
    if n > 0 {
      GivesUpExactly(r, n - 1);
    }
  }

  // ----- The table -----

  type Table = map<RoutineId, Routine>

  // At most one routine for a schedule on the hub.
  ghost predicate OnePerSchedule(rows: Table) {
    forall a, b | a in rows && b in rows && rows[a].hub.Some? && rows[a].hub == rows[b].hub :: a == b
  }

  // The routine for a schedule.
  ghost function Twin(rows: Table, id: HubId): (twin: Option<Routine>)
    ensures twin.Some? ==> exists r <- rows :: rows[r] == twin.value && twin.value.hub == Some(id)
    ensures twin.None? ==> forall r <- rows :: rows[r].hub != Some(id)
  {
    if r :| r in rows && rows[r].hub == Some(id) then Some(rows[r]) else None
  }

  lemma TwinIs(rows: Table, r: RoutineId)
    requires OnePerSchedule(rows) && r in rows && rows[r].hub.Some?
    ensures Twin(rows, rows[r].hub.value) == Some(rows[r])
  {
  }

  class Routines {
    var rows: Table

    ghost predicate Valid()
      reads this
    {
      OnePerSchedule(rows)
    }

    constructor ()
      ensures Valid() && rows == map[]
    {
      rows := map[];
    }

    method FindByHubId(id: HubId) returns (found: Option<RoutineId>)
      requires Valid()
      ensures found.None? <==> Twin(rows, id).None?
      ensures found.Some? ==> found.value in rows && rows[found.value].hub == Some(id)
      ensures found.Some? ==> Twin(rows, id) == Some(rows[found.value])
    {
      if r :| r in rows && rows[r].hub == Some(id) {
        TwinIs(rows, r);
        return Some(r);
      }
      return None;
    }

    method Create(fresh_: RoutineId, agent: nat, shape: Shape, hub: Option<HubId>, readable: Reader) returns (ok: bool)
      requires Valid() && fresh_ !in rows && (hub.Some? ==> Twin(rows, hub.value).None?)
      modifies this
      ensures Valid() && (ok <==> readable(shape.line, Zoned(shape).timezone))
      ensures rows == if ok then old(rows)[fresh_ := Routine(agent, Zoned(shape), hub, false, 0)] else old(rows)
    {
      if !readable(shape.line, Zoned(shape).timezone) {
        return false;
      }
      rows := rows[fresh_ := Routine(agent, Zoned(shape), hub, false, 0)];
      return true;
    }

    method Change(r: RoutineId, shape: Shape, readable: Reader) returns (ok: bool)
      requires Valid() && r in rows
      modifies this
      ensures Valid() && (ok <==> readable(shape.line, shape.timezone))
      ensures rows == if ok then old(rows)[r := old(rows)[r].(shape := shape, failures := 0)] else old(rows)
    {
      if !readable(shape.line, shape.timezone) {
        return false;
      }
      rows := rows[r := rows[r].(shape := shape, failures := 0)];
      return true;
    }

    method Pause(r: RoutineId)
      requires Valid() && r in rows
      modifies this
      ensures Valid() && rows == old(rows)[r := old(rows)[r].(paused := true)]
    {
      rows := rows[r := rows[r].(paused := true)];
    }

    method Resume(r: RoutineId, readable: Reader) returns (ok: bool)
      requires Valid() && r in rows
      modifies this
      ensures Valid() && (ok <==> readable(old(rows)[r].shape.line, old(rows)[r].shape.timezone))
      ensures rows == if ok then old(rows)[r := old(rows)[r].(paused := false, failures := 0)] else old(rows)
    {
      if !readable(rows[r].shape.line, rows[r].shape.timezone) {
        return false;
      }
      rows := rows[r := rows[r].(paused := false, failures := 0)];
      return true;
    }

    method Delete(r: RoutineId, agent: nat) returns (gone: bool)
      requires Valid()
      modifies this
      ensures Valid() && (gone <==> r in old(rows) && old(rows)[r].agent == agent)
      ensures rows == if gone then old(rows) - {r} else old(rows)
    {
      gone := r in rows && rows[r].agent == agent;
      if gone {
        rows := rows - {r};
      }
    }

    method RecordFailure(r: RoutineId) returns (paused: bool)
      requires Valid() && r in rows
      modifies this
      ensures Valid() && rows == old(rows)[r := Failed(old(rows)[r])] && paused == rows[r].paused
      ensures rows[r].failures == old(rows)[r].failures + 1
      ensures paused <==> old(rows)[r].paused || rows[r].failures >= 3
    {
      var row := rows[r];
      var failures := row.failures + 1;
      var paused_ := if failures >= FAILURES_BEFORE_PAUSE then true else row.paused;
      rows := rows[r := row.(failures := failures, paused := paused_)];
      paused := rows[r].paused;
    }

    // One event of the hub, carried out on the table.
    method ApplyChange(e: S.Event, fresh_: RoutineId, readable: Reader) returns (reply: Reply)
      requires Valid() && fresh_ !in rows
      modifies this
      ensures Valid()
      ensures Outcome(Twin(rows, e.id), reply) == Apply(readable, Twin(old(rows), e.id), e)
      ensures forall id: HubId | id != e.id :: Twin(rows, id) == Twin(old(rows), id)
      ensures forall r <- old(rows) :: old(rows)[r].hub != Some(e.id) ==> r in rows && rows[r] == old(rows)[r]
    {
      ghost var was := rows;
      var found := FindByHubId(e.id);
      var wasPaused := found.Some? && rows[found.value].paused;
      if e.kind.Deleted? {
        if found.Some? {
          var gone := Delete(found.value, e.schedule.agent);
          OthersStay(was, rows, e.id);
        }
        return Done(false);
      }
      if !Cron.ValidCadence(e.schedule.cadence) {
        return Declined;
      }
      var shape := ShapeOf(e.schedule);
      if found.Some? {
        var changed := Change(found.value, shape, readable);
        if !changed {
          return Thrown;
        }
      } else if e.schedule.status != S.Paused {
        var created := Create(fresh_, e.schedule.agent, shape, Some(e.id), readable);
        if !created {
          return Thrown;
        }
        TwinIs(rows, fresh_);
      }
      if e.schedule.status == S.Paused {
        if found.Some? && !wasPaused {
          Pause(found.value);
        }
      } else if found.Some? && wasPaused {
        var resumed := Resume(found.value, readable);
      }
      if found.Some? {
        TwinIs(rows, found.value);
      }
      OthersStay(was, rows, e.id);
      return Done(e.schedule.status == S.Pending);
    }
  }

  // Rows of other schedules untouched, their routines are the same.
  lemma OthersStay(before: Table, after: Table, id: HubId)
    requires OnePerSchedule(before) && OnePerSchedule(after)
    requires forall r <- before :: before[r].hub != Some(id) ==> r in after && after[r] == before[r]
    requires forall r <- after :: after[r].hub != Some(id) ==> r in before && after[r] == before[r]
    ensures forall x: HubId | x != id :: Twin(after, x) == Twin(before, x)
  {
    forall x: HubId | x != id ensures Twin(after, x) == Twin(before, x) {
      if Twin(before, x).Some? {
        var r :| r in before && before[r].hub == Some(x);
        TwinIs(before, r);
        TwinIs(after, r);
      }
    }
  }

  // ----- Hub and runtime together -----

  // What the runtime's confirmation, if it sends one, makes of the hub's row.
  function Confirmed(row: S.Row, reply: Reply): S.Row {
    var confirm := S.AgentUpdate(row.agent, row.chat, None, None, None, Some("active"));
    if reply == Done(true) then S.After(row, confirm) else row
  }

  // A person's change, told to the runtime and answered, leaves both sides
  // agreed: the schedule is no longer waiting, the routine says and does what
  // it says, and one is paused exactly when the other is.
  lemma HubAndRuntimeAgree(readable: Reader, row: S.Row, id: HubId, twin: Option<Routine>,
      paused: Option<bool>, instruction: Option<string>, cadence: Option<Cadence>)
    requires !row.deleted && Mine(twin, id, row.agent)
    requires S.Plan(row, S.PersonUpdate(row.chat, paused, instruction, cadence)).Some?
    requires Valid(readable, S.Event(S.Changed, id,
                                     S.After(row, S.PersonUpdate(row.chat, paused, instruction, cadence))))
    ensures var changed := S.After(row, S.PersonUpdate(row.chat, paused, instruction, cadence));
            var outcome := Apply(readable, twin, S.Event(S.Changed, id, changed));
            var after, settled := outcome.twin, Confirmed(changed, outcome.reply);
            && settled.status != S.Pending
            && (settled.status == S.Active ==> after.Some?)
            && (after.Some? ==>
                  Mirrors(after.value.shape, settled) && (after.value.paused <==> settled.status == S.Paused))
  {
    var changed := S.After(row, S.PersonUpdate(row.chat, paused, instruction, cadence));
    EventPutsRight(readable, twin, S.Event(S.Changed, id, changed), id, row.agent);
  }
}
