// A schedule on the hub, written by its person, its agent and their phone's
// time zone (server/internal/conversations/schedules.go, schedules_agent.go).
// Every call reads the row first and writes later, so calls can overlap.
module Schedules {
  import opened Wrappers
  import opened Cadences

  const TITLE_MAX: nat := 60

  datatype Status = Pending | Active | Paused

  datatype Row = Row(agent: nat, chat: nat, title: string, instruction: string, cadence: Cadence,
                     status: Status, deleted: bool)

  // The update statement's arguments; nothing leaves a column as it is.
  datatype Change = Change(title: Option<string>, instruction: Option<string>, cadence: Option<Cadence>,
                           status: Option<Status>)

  // What the parties ask for, already validated one by one. A person names
  // the chat, an agent's call comes from that agent and names the chat too.
  // `AgentSend` is a message that says the schedule sent it.
  datatype Call =
    | PersonUpdate(chat: nat, paused: Option<bool>, instruction: Option<string>, cadence: Option<Cadence>)
    | PersonDelete(chat: nat)
    | AgentUpdate(agent: nat, chat: nat, title: Option<string>, instruction: Option<string>,
                  cadence: Option<Cadence>, status: Option<string>)
    | AgentDelete(agent: nat, chat: nat)
    | AgentSend(agent: nat, chat: nat)
    | Move(from: string, to: string)

  // What a call decided to write.
  datatype Write = Update(change: Change) | Remove | Speak

  // ----- Deciding, from the row as it was read -----

  function FirstLine(text: string): string {
    if text == "" || text[0] == '\n' then "" else [text[0]] + FirstLine(text[1..])
  }

  function TitleFrom(instruction: string): string {
    var line := FirstLine(instruction);
    if |line| <= TITLE_MAX then line else line[..TITLE_MAX - 1] + "\U{2026}"
  }

  function PersonStatus(row: Row, paused: Option<bool>, edits: bool): Status {
    var status := if edits then Pending else row.status;
    if paused == Some(true) then Paused
    else if paused == Some(false) && status == Paused then Active
    else status
  }

  function PlanPersonUpdate(row: Row, paused: Option<bool>, instruction: Option<string>,
                            cadence: Option<Cadence>): Option<Write>
  {
    var edits := instruction.Some? || cadence.Some?;
    var status := PersonStatus(row, paused, edits);
    var title := if instruction.Some? then Some(TitleFrom(instruction.value)) else None;
    if !edits && status == row.status then None
    else Some(Update(Change(title, instruction, cadence, Some(status))))
  }

  function PlanAgentUpdate(row: Row, call: Call): Option<Write>
    requires call.AgentUpdate?
  {
    if call.status.Some? && call.status.value !in {"active", "paused"} then None
    else if call.status == Some("active") && row.status == Paused then None
    else if call.title.None? && call.instruction.None? && call.cadence.None? && call.status.None? then None
    else
      var status := if call.status.None? then None
                    else if call.status.value == "active" then Some(Active)
                    else Some(Paused);
      Some(Update(Change(call.title, call.instruction, call.cadence, status)))
  }

  // Whether the caller finds the schedule: it is live, in the chat named,
  // and, for an agent, its own.
  predicate FoundBy(row: Row, call: Call) {
    && !row.deleted
    && (!call.Move? ==> call.chat == row.chat)
    && (call.AgentUpdate? || call.AgentDelete? || call.AgentSend? ==> call.agent == row.agent)
  }

  // What a call will write, if anything: an agent may not resume a paused
  // schedule, nor speak for it, and only one set to the zone left moves.
  function Plan(row: Row, call: Call): Option<Write> {
    if !FoundBy(row, call) then None
    else
      match call
      case PersonUpdate(_, paused, instruction, cadence) => PlanPersonUpdate(row, paused, instruction, cadence)
      case PersonDelete(_) => Some(Remove)
      case AgentUpdate(_, _, _, _, _, _) => PlanAgentUpdate(row, call)
      case AgentDelete(_, _) => Some(Remove)
      case AgentSend(_, _) => if row.status == Paused then None else Some(Speak)
      case Move(from, to) =>
        if from == to || row.cadence.timezone != from then None
        else
          var status := if row.status == Paused then Paused else Pending;
          Some(Update(Change(None, None, Some(row.cadence.(timezone := to)), Some(status))))
  }

  // ----- Writing, to the row as it is by then -----

  function Or<T>(new_: Option<T>, old_: T): T {
    if new_.Some? then new_.value else old_
  }

  function Updated(row: Row, change: Change): Row {
    if row.deleted then row
    else row.(title := Or(change.title, row.title), instruction := Or(change.instruction, row.instruction),
              cadence := Or(change.cadence, row.cadence), status := Or(change.status, row.status))
  }

  // How a row stands after a call with nobody else at work.
  function After(row: Row, call: Call): Row {
    var plan := Plan(row, call);
    if plan.None? then row
    else match plan.value
         case Update(change) => Updated(row, change)
         case Remove => row.(deleted := true)
         case Speak => row
  }

  // The row, the writes decided on and not yet made, and how many messages
  // tagged with the schedule have been accepted.
  datatype State = State(row: Row, jobs: map<nat, Write>, spoken: nat)

  datatype Step = Begin(job: nat, call: Call) | Commit(job: nat) | Abort(job: nat)

  function OnBegin(s: State, job: nat, call: Call): State {
    var plan := Plan(s.row, call);
    if job in s.jobs || plan.None? then s else s.(jobs := s.jobs[job := plan.value])
  }

  function OnCommit(s: State, job: nat): State {
    if job !in s.jobs then s
    else
      var after := s.(jobs := s.jobs - {job});
      match s.jobs[job]
      case Update(change) => after.(row := Updated(s.row, change))
      case Remove => after.(row := s.row.(deleted := true))
      case Speak => after.(spoken := s.spoken + 1)
  }

  function Next(s: State, step: Step): State {
    match step
    case Begin(job, call) => OnBegin(s, job, call)
    case Commit(job) => OnCommit(s, job)
    case Abort(job) => s.(jobs := s.jobs - {job})
  }

  function Run(s: State, steps: seq<Step>): State
    decreases |steps|
  {
    if steps == [] then s else Run(Next(s, steps[0]), steps[1..])
  }

  // ----- A pause holds -----

  // A step by anyone but the person: agents, time zones, and the writing of
  // whatever was already decided.
  predicate Unattended(step: Step) {
    step.Begin? ==> !step.call.PersonUpdate? && !step.call.PersonDelete?
  }

  // A write that would undo a pause, or speak through it.
  predicate Loosens(write: Write) {
    write.Speak? || (write.Update? && write.change.status.Some? && write.change.status != Some(Paused))
  }

  ghost predicate Held(s: State) {
    s.row.status == Paused && forall job <- s.jobs :: !Loosens(s.jobs[job])
  }

  lemma StepKeepsHeld(s: State, step: Step)
    requires Held(s) && Unattended(step)
    ensures Held(Next(s, step)) && Next(s, step).spoken == s.spoken
  {
  }

  lemma {:induction false} RunKeepsHeld(s: State, steps: seq<Step>)
    requires Held(s) && forall step <- steps :: Unattended(step)
    ensures Held(Run(s, steps)) && Run(s, steps).spoken == s.spoken
    decreases |steps|
  {
    if steps != [] {
      StepKeepsHeld(s, steps[0]);
      RunKeepsHeld(Next(s, steps[0]), steps[1..]);
    }
  }

  // Left to themselves, agents and time zones neither undo the pause nor
  // speak for the schedule.
  ghost predicate Quiet(s: State, steps: seq<Step>) {
    (forall step <- steps :: Unattended(step)) ==>
      Run(s, steps).row.status == Paused && Run(s, steps).spoken == s.spoken
  }

  // From a paused schedule, every continuation is quiet exactly when no write
  // already decided on, before the pause, would undo it or speak.
  lemma PauseHoldsExactly(s: State)
    requires s.row.status == Paused && !s.row.deleted
    ensures (forall steps :: Quiet(s, steps)) <==> (forall job <- s.jobs :: !Loosens(s.jobs[job]))
  {
    if forall job <- s.jobs :: !Loosens(s.jobs[job]) {
      forall steps ensures Quiet(s, steps) {
        if forall step <- steps :: Unattended(step) {
          RunKeepsHeld(s, steps);
        }
      }
    }
    forall job | job in s.jobs && Loosens(s.jobs[job]) ensures !Quiet(s, [Commit(job)]) {
      assert Run(s, [Commit(job)]) == OnCommit(s, job);
    }
  }

  // So a person's pause made with nothing in flight stands, whatever agents
  // and time zones do afterwards, however their calls overlap.
  lemma PersonsPauseStands(row: Row, spoken: nat, instruction: Option<string>, cadence: Option<Cadence>,
                           steps: seq<Step>)
    requires !row.deleted && forall step <- steps :: Unattended(step)
    ensures var pause := PersonUpdate(row.chat, Some(true), instruction, cadence);
            var paused := Run(State(row, map[], spoken), [Begin(0, pause), Commit(0)]);
            var after := Run(paused, steps);
            after.row.status == Paused && after.spoken == spoken
  {
    var s := State(row, map[], spoken);
    var pause := PersonUpdate(row.chat, Some(true), instruction, cadence);
    RunTwo(s, Begin(0, pause), Commit(0));
    RunKeepsHeld(Run(s, [Begin(0, pause), Commit(0)]), steps);
  }

  lemma RunTwo(s: State, a: Step, b: Step)
    ensures Run(s, [a, b]) == Next(Next(s, a), b)
  {
    assert [a, b][1..] == [b];
    assert Run(Next(s, a), [b]) == Next(Next(s, a), b);
  }

  lemma RunFour(s: State, a: Step, b: Step, c: Step, d: Step)
    ensures Run(s, [a, b, c, d]) == Next(Next(Next(Next(s, a), b), c), d)
  {
    assert [a, b, c, d][1..] == [b, c, d] && [b, c, d][1..] == [c, d];
    RunTwo(Next(Next(s, a), b), c, d);
  }

  function Pausing(row: Row): Call {
    PersonUpdate(row.chat, Some(true), None, None)
  }

  // The condition is needed: an agent's confirmation, a move to another zone,
  // and a tagged message, each checked before the pause and written after it.
  lemma ConfirmationUndoesThePause(row: Row, spoken: nat)
    requires row.status == Pending && !row.deleted
    ensures var confirm := AgentUpdate(row.agent, row.chat, None, None, None, Some("active"));
            var s := Run(State(row, map[], spoken),
                         [Begin(0, confirm), Begin(1, Pausing(row)), Commit(1), Commit(0)]);
            s.row.status == Active
  {
    var confirm, pause := AgentUpdate(row.agent, row.chat, None, None, None, Some("active")), Pausing(row);
    RunFour(State(row, map[], spoken), Begin(0, confirm), Begin(1, pause), Commit(1), Commit(0));
  }

  lemma MoveUndoesThePause(row: Row, spoken: nat, to: string)
    requires row.status != Paused && !row.deleted && row.cadence.timezone != to
    ensures var move := Move(row.cadence.timezone, to);
            var s := Run(State(row, map[], spoken),
                         [Begin(0, move), Begin(1, Pausing(row)), Commit(1), Commit(0)]);
            s.row.status == Pending
  {
    var move, pause := Move(row.cadence.timezone, to), PersonUpdate(row.chat, Some(true), None, None);
    RunFour(State(row, map[], spoken), Begin(0, move), Begin(1, pause), Commit(1), Commit(0));
  }

  lemma MessageSlipsThrough(row: Row, spoken: nat)
    requires row.status != Paused && !row.deleted
    ensures var s := Run(State(row, map[], spoken),
                         [Begin(0, AgentSend(row.agent, row.chat)), Begin(1, Pausing(row)), Commit(1), Commit(0)]);
            s.row.status == Paused && s.spoken == spoken + 1
  {
    var send := AgentSend(row.agent, row.chat);
    RunFour(State(row, map[], spoken), Begin(0, send), Begin(1, Pausing(row)), Commit(1), Commit(0));
  }

  // Only a person's call leads from paused to anything else; but the code
  // cannot tell who paused: an agent that paused a schedule itself cannot
  // resume it either.
  lemma AgentCannotResumeItsOwnPause(row: Row, job: nat, edit: Option<Cadence>)
    requires !row.deleted && row.status == Active
    ensures var paused := Updated(row, Change(None, None, None, Some(Paused)));
            && Plan(row, AgentUpdate(row.agent, row.chat, None, None, None, Some("paused"))) ==
               Some(Update(Change(None, None, None, Some(Paused))))
            && Plan(paused, AgentUpdate(row.agent, row.chat, None, None, edit, Some("active"))).None?
  {
  }

  // What a person's update leaves behind.
  lemma PersonDecides(row: Row, paused: Option<bool>, instruction: Option<string>, cadence: Option<Cadence>)
    requires !row.deleted
    ensures var after := After(row, PersonUpdate(row.chat, paused, instruction, cadence));
            var edits := instruction.Some? || cadence.Some?;
            after.status == Paused <==> paused == Some(true) || (paused.None? && !edits && row.status == Paused)
    ensures var after := After(row, PersonUpdate(row.chat, paused, instruction, cadence));
            var edits := instruction.Some? || cadence.Some?;
            after.status == Active <==>
              && !edits && paused != Some(true)
              && (row.status == Active || (row.status == Paused && paused == Some(false)))
    ensures var after := After(row, PersonUpdate(row.chat, paused, instruction, cadence));
            && (after.instruction, after.title) ==
               (if instruction.Some? then (instruction.value, TitleFrom(instruction.value))
                else (row.instruction, row.title))
            && after.cadence == (if cadence.Some? then cadence.value else row.cadence)
            && after == row.(title := after.title, instruction := after.instruction, cadence := after.cadence,
                             status := after.status)
    // Nothing is written, and nobody told, when nothing is asked for.
    ensures Plan(row, PersonUpdate(row.chat, paused, instruction, cadence)).None? <==>
              && instruction.None? && cadence.None?
              && (paused.None? || paused.value == (row.status == Paused))
  {
    var status := PersonStatus(row, paused, instruction.Some? || cadence.Some?);
    if paused.Some? && paused.value {
      assert paused == Some(true);
    } else if paused.Some? {
      assert paused == Some(false) && status != Paused;
    }
    assert After(row, PersonUpdate(row.chat, paused, instruction, cadence)).status == status;
  }

  // A title made from an instruction is one line of at most sixty characters:
  // its first line, or as much of it as fits and a mark.
  lemma TitleFits(instruction: string)
    ensures exists n: nat | n <= |instruction| ::
              && '\n' !in instruction[..n] && (n < |instruction| ==> instruction[n] == '\n')
              && TitleFrom(instruction) == if n <= 60 then instruction[..n] else instruction[..59] + "\U{2026}"
  {
    FirstLineIs(instruction);
    var n := |FirstLine(instruction)|;
    assert FirstLine(instruction) == instruction[..n];
  }

  lemma {:induction false} FirstLineIs(text: string)
    ensures FirstLine(text) <= text && '\n' !in FirstLine(text)
    ensures |FirstLine(text)| < |text| ==> text[|FirstLine(text)|] == '\n'
  {
    if text != "" && text[0] != '\n' {
      FirstLineIs(text[1..]);
    }
  }

  // ----- Agents, call after call -----

  predicate OfAgent(call: Call) {
    call.AgentUpdate? || call.AgentDelete?
  }

  function AfterAll(row: Row, calls: seq<Call>): Row
    decreases |calls|
  {
    if calls == [] then row else AfterAll(After(row, calls[0]), calls[1..])
  }

  // Waiting, running, paused.
  function Rank(status: Status): nat {
    match status
    case Pending => 0
    case Active => 1
    case Paused => 2
  }

  // An agent may name a new title, words or times for its own live schedule,
  // say it is running unless it is paused, and pause it, in any combination;
  // what it names is what is written, and nothing else changes. A word this
  // forbids refuses the whole call.
  lemma AgentWritesWhatItNames(row: Row, call: Call)
    requires call.AgentUpdate?
    ensures var allowed := !row.deleted && call.agent == row.agent && call.chat == row.chat
                           && (call.status.None? || call.status.value == "paused"
                               || (call.status.value == "active" && row.status != Paused))
                           && (call.title.Some? || call.instruction.Some? || call.cadence.Some? || call.status.Some?);
            && (Plan(row, call).Some? <==> allowed)
            && After(row, call) ==
               if !allowed then row else
               row.(title := if call.title.Some? then call.title.value else row.title,
                    instruction := if call.instruction.Some? then call.instruction.value else row.instruction,
                    cadence := if call.cadence.Some? then call.cadence.value else row.cadence,
                    status := if call.status.None? then row.status
                              else if call.status.value == "paused" then Paused else Active)
  {
  }

  // A deletion by its person or its agent deletes a live schedule; a message
  // it is tagged with passes exactly when it is live and not paused, in its
  // chat and from its agent.
  lemma WhoMayDeleteOrSpeak(row: Row, call: Call)
    requires call.PersonDelete? || call.AgentDelete? || call.AgentSend?
    ensures var own := !row.deleted && call.chat == row.chat && (call.PersonDelete? || call.agent == row.agent);
            && Plan(row, call) == (if call.AgentSend? then (if own && row.status != Paused then Some(Speak) else None)
                                   else if own then Some(Remove) else None)
            && After(row, call) == if !call.AgentSend? && own then row.(deleted := true) else row
  {
  }

  // The calls of the agent that holds the schedule, about the chat it is in.
  function Own(row: Row, calls: seq<Call>): seq<Call> {
    if calls == [] then [] else (if IsOwn(row, calls[0]) then [calls[0]] else []) + Own(row, calls[1..])
  }

  predicate IsOwn(row: Row, call: Call) {
    OfAgent(call) && call.agent == row.agent && call.chat == row.chat
  }

  // However many calls agents make, one after another, a schedule only ever
  // goes from waiting to running to paused, none of them undoes a deletion,
  // and those of other agents or about other chats might as well not have
  // been made.
  lemma {:induction false} AgentsMoveOneWay(row: Row, calls: seq<Call>)
    requires forall call <- calls :: OfAgent(call)
    ensures var after := AfterAll(row, calls);
            && Rank(after.status) >= Rank(row.status)
            && (row.deleted ==> after == row)
            && after.agent == row.agent && after.chat == row.chat
            && after == AfterAll(row, Own(row, calls))
    decreases |calls|
  {
    if calls != [] {
      var next := After(row, calls[0]);
      AgentsMoveOneWay(next, calls[1..]);
      SameOwn(row, next, calls[1..]);
      assert calls[0] in calls;
      if IsOwn(row, calls[0]) {
        assert Own(row, calls) == [calls[0]] + Own(row, calls[1..]);
        assert Own(row, calls)[1..] == Own(row, calls[1..]);
      } else {
        assert Own(row, calls) == Own(row, calls[1..]);
      }
    }
  }

  // And what none of their calls names stays as it was.
  lemma {:induction false} AgentsChangeWhatTheyName(row: Row, calls: seq<Call>)
    requires forall call <- calls :: OfAgent(call)
    ensures var after := AfterAll(row, calls);
            && ((forall call <- calls :: call.AgentUpdate? ==> call.title.None?) ==> after.title == row.title)
            && ((forall call <- calls :: call.AgentUpdate? ==> call.instruction.None?) ==>
                  after.instruction == row.instruction)
            && ((forall call <- calls :: call.AgentUpdate? ==> call.cadence.None?) ==> after.cadence == row.cadence)
            && ((forall call <- calls :: call.AgentUpdate? ==> call.status.None?) ==> after.status == row.status)
            && ((forall call <- calls :: !call.AgentDelete?) ==> after.deleted == row.deleted)
    decreases |calls|
  {
    if calls != [] {
      assert calls[0] in calls;
      AgentsChangeWhatTheyName(After(row, calls[0]), calls[1..]);
    }
  }

  // So what an agent's accepted call names stands until a call names it anew.
  lemma LastWordStands(row: Row, call: Call, later: seq<Call>)
    requires call.AgentUpdate? && Plan(row, call).Some? && forall x <- later :: OfAgent(x)
    ensures var after := AfterAll(After(row, call), later);
            && (call.title.Some? && (forall x <- later :: x.AgentUpdate? ==> x.title.None?) ==>
                  after.title == call.title.value)
            && (call.instruction.Some? && (forall x <- later :: x.AgentUpdate? ==> x.instruction.None?) ==>
                  after.instruction == call.instruction.value)
            && (call.cadence.Some? && (forall x <- later :: x.AgentUpdate? ==> x.cadence.None?) ==>
                  after.cadence == call.cadence.value)
  {
    AgentWritesWhatItNames(row, call);
    AgentsChangeWhatTheyName(After(row, call), later);
  }

  lemma {:induction false} SameOwn(a: Row, b: Row, calls: seq<Call>)
    requires a.agent == b.agent && a.chat == b.chat
    ensures Own(a, calls) == Own(b, calls)
  {
    if calls != [] {
      SameOwn(a, b, calls[1..]);
    }
  }

  // Overlapping, they may undo each other's pauses, but still never leave a
  // schedule waiting that was not.
  predicate MakesWait(write: Write) {
    write.Update? && write.change.status == Some(Pending)
  }

  lemma {:induction false} AgentsNeverMakeItWait(s: State, steps: seq<Step>)
    requires forall job <- s.jobs :: !MakesWait(s.jobs[job])
    requires forall step <- steps :: step.Begin? ==> OfAgent(step.call) || step.call.AgentSend?
    ensures Run(s, steps).row.status == Pending ==> s.row.status == Pending
    decreases |steps|
  {
    if steps != [] {
      var after := Next(s, steps[0]);
      assert steps[0] in steps;
      assert forall job <- after.jobs :: !MakesWait(after.jobs[job]);
      AgentsNeverMakeItWait(after, steps[1..]);
    }
  }

  // ----- A journey -----

  // The moves of a person whose phone shows these zones one after another.
  function Travelled(row: Row, zones: seq<string>): Row
    decreases |zones|
  {
    if |zones| < 2 then row else Travelled(After(row, Move(zones[0], zones[1])), zones[1..])
  }

  // The journey leaves a zone for another.
  predicate Leaves(zones: seq<string>, zone: string) {
    exists i | 0 <= i < |zones| - 1 :: zones[i] == zone && zones[i + 1] != zone
  }

  lemma {:induction false} NeverLeft(zones: seq<string>)
    requires zones != [] && !Leaves(zones, zones[0])
    ensures zones[|zones| - 1] == zones[0]
    decreases |zones|
  {
    if |zones| > 1 {
      LeavesRest(zones, zones[0]);
      assert zones[1] == zones[0];
      NeverLeft(zones[1..]);
    }
  }

  lemma LeavesRest(zones: seq<string>, zone: string)
    requires |zones| > 1
    ensures Leaves(zones, zone) <==> (zones[0] == zone && zones[1] != zone) || Leaves(zones[1..], zone)
  {
    var rest := zones[1..];
    if Leaves(rest, zone) {
      var i :| 0 <= i < |rest| - 1 && rest[i] == zone && rest[i + 1] != zone;
      assert zones[i + 1] == zone && zones[i + 2] != zone;
    }
    if i :| 0 <= i < |zones| - 1 && zones[i] == zone && zones[i + 1] != zone && i > 0 {
      assert rest[i - 1] == zone && rest[i] != zone;
    }
  }

  // After a journey a live schedule is set to where the journey ends, if its
  // zone was ever left on the way, and is where it was otherwise. It keeps
  // its time, its days and its words; a paused one is still paused, and any
  // other waits for its agent exactly if it moved.
  lemma {:induction false} JourneyMoves(row: Row, zones: seq<string>)
    requires zones != [] && !row.deleted
    ensures var moved := Leaves(zones, row.cadence.timezone);
            Travelled(row, zones) ==
            row.(cadence := row.cadence.(timezone := if moved then zones[|zones| - 1] else row.cadence.timezone),
                 status := if moved && row.status != Paused then Pending else row.status)
    decreases |zones|
  {
    if |zones| > 1 {
      var next := After(row, Move(zones[0], zones[1]));
      JourneyMoves(next, zones[1..]);
      LeavesRest(zones, row.cadence.timezone);
      if row.cadence.timezone == zones[0] != zones[1] && !Leaves(zones[1..], zones[1]) {
        NeverLeft(zones[1..]);
      }
    }
  }

  // So a schedule set at home is at home again after any journey there and
  // back, and one set deliberately to a place visited stays there exactly if
  // the person never goes on from that place, or ends there.
  lemma ThereAndBackAgain(row: Row, zones: seq<string>)
    requires zones != [] && zones[0] == zones[|zones| - 1] && !row.deleted
    ensures Travelled(row, zones).cadence == row.cadence <==>
            row.cadence.timezone == zones[0] || !Leaves(zones, row.cadence.timezone)
  {
    JourneyMoves(row, zones);
  }

  // ----- A delete is final -----

  lemma {:induction false} RunKeepsGone(s: State, steps: seq<Step>)
    requires s.row.deleted
    ensures Run(s, steps).row == s.row
    ensures Run(s, steps).jobs.Keys <= s.jobs.Keys
    ensures (forall job <- s.jobs :: !s.jobs[job].Speak?) ==> Run(s, steps).spoken == s.spoken
    decreases |steps|
  {
    if steps != [] {
      var after := Next(s, steps[0]);
      assert forall job <- after.jobs :: job in s.jobs && after.jobs[job] == s.jobs[job];
      RunKeepsGone(after, steps[1..]);
    }
  }

  // Once deleted, a schedule never changes again, whoever asks; and no
  // tagged message is accepted after it exactly when none had already passed
  // its check.
  lemma DeleteIsFinal(s: State)
    requires s.row.deleted
    ensures forall steps :: Run(s, steps).row == s.row
    ensures (forall steps :: Run(s, steps).spoken == s.spoken) <==> (forall job <- s.jobs :: !s.jobs[job].Speak?)
  {
    forall steps ensures Run(s, steps).row == s.row {
      RunKeepsGone(s, steps);
    }
    if forall job <- s.jobs :: !s.jobs[job].Speak? {
      forall steps ensures Run(s, steps).spoken == s.spoken {
        RunKeepsGone(s, steps);
      }
    }
    if job :| job in s.jobs && s.jobs[job].Speak? {
      assert Run(s, [Commit(job)]) == OnCommit(s, job);
      assert Run(s, [Commit(job)]).spoken != s.spoken;
    }
  }

  // ----- The calls themselves, one after another -----

  type Id = nat

  // What the outbox tells the agent: what a person did, and how the schedule
  // then stood.
  datatype Kind = Requested | Changed | Deleted

  datatype Event = Event(kind: Kind, id: Id, schedule: Row)

  class Table {
    var rows: map<Id, Row>
    var outbox: seq<Event>

    constructor ()
      ensures rows == map[] && outbox == []
    {
      rows, outbox := map[], [];
    }

    // A person's change and the event that tells the agent, together.
    method WriteSchedule(id: Id, write: Write, kind: Kind) returns (ok: bool)
      requires id in rows && !write.Speak?
      modifies this
      ensures ok <==> !old(rows)[id].deleted
      ensures ok && write.Remove? ==> rows == old(rows)[id := old(rows)[id].(deleted := true)]
      ensures ok && write.Update? ==> rows == old(rows)[id := Updated(old(rows)[id], write.change)]
      ensures ok ==> outbox == old(outbox) + [Event(kind, id, rows[id])]
      ensures !ok ==> rows == old(rows) && outbox == old(outbox)
    {
      if rows[id].deleted {
        return false;
      }
      if write.Remove? {
        rows := rows[id := rows[id].(deleted := true)];
      } else {
        rows := rows[id := Updated(rows[id], write.change)];
      }
      outbox := outbox + [Event(kind, id, rows[id])];
      return true;
    }

    method UpdateSchedule(id: Id, call: Call) returns (ok: bool)
      requires call.PersonUpdate?
      modifies this
      ensures ok <==> id in old(rows) && !old(rows)[id].deleted && old(rows)[id].chat == call.chat
      ensures !ok ==> rows == old(rows) && outbox == old(outbox)
      ensures ok ==> rows == old(rows)[id := After(old(rows)[id], call)]
      ensures ok ==> outbox == if rows[id] == old(rows)[id] && Plan(rows[id], call).None? then old(outbox)
                               else old(outbox) + [Event(Changed, id, rows[id])]
    {
      if id !in rows || rows[id].deleted || rows[id].chat != call.chat {
        return false;
      }
      var plan := Plan(rows[id], call);
      if plan.None? {
        return true;
      }
      ok := WriteSchedule(id, plan.value, Changed);
    }

    method DeleteSchedule(id: Id, chat: nat) returns (ok: bool)
      modifies this
      ensures ok <==> id in old(rows) && !old(rows)[id].deleted && old(rows)[id].chat == chat
      ensures !ok ==> rows == old(rows) && outbox == old(outbox)
      ensures ok ==> rows == old(rows)[id := old(rows)[id].(deleted := true)]
      ensures ok ==> outbox == old(outbox) + [Event(Deleted, id, rows[id])]
    {
      if id !in rows || rows[id].deleted || rows[id].chat != chat {
        return false;
      }
      ok := WriteSchedule(id, Remove, Deleted);
    }

    // An agent's own word on a schedule tells it nothing back.
    method AgentCalls(id: Id, call: Call) returns (ok: bool)
      requires call.AgentUpdate? || call.AgentDelete?
      modifies this`rows
      ensures ok <==> id in old(rows) && Plan(old(rows)[id], call).Some?
      ensures rows == if ok then old(rows)[id := After(old(rows)[id], call)] else old(rows)
    {
      if id !in rows {
        return false;
      }
      var plan := Plan(rows[id], call);
      if plan.None? {
        return false;
      }
      if plan.value.Remove? {
        rows := rows[id := rows[id].(deleted := true)];
      } else {
        rows := rows[id := Updated(rows[id], plan.value.change)];
      }
      return true;
    }

    // Every schedule listed is set to the new zone, with an event for its
    // agent; those paused are paused afterwards too.
    method MoveSchedules(listed: seq<Id>, from: string, to: string)
      requires Distinct(listed)
      requires forall id <- listed :: id in rows && !rows[id].deleted && rows[id].cadence.timezone == from
      modifies this
      ensures rows.Keys == old(rows).Keys
      ensures forall id <- rows ::
                rows[id] == if id in listed then After(old(rows)[id], Move(from, to)) else old(rows)[id]
      ensures outbox == old(outbox) + if from == to then [] else Told(rows, listed)
    {
      if from == to {
        return;
      }
      ghost var was := rows;
      for i := 0 to |listed|
        invariant rows.Keys == was.Keys
        invariant forall id <- rows :: rows[id] == if id in listed[..i] then After(was[id], Move(from, to)) else was[id]
        invariant outbox == old(outbox) + Told(rows, listed[..i])
      {
        var id := listed[i];
        assert listed[..i + 1] == listed[..i] + [id];
        assert id !in listed[..i];
        var row := rows[id];
        var status := if row.status == Paused then Paused else Pending;
        ghost var before := rows;
        var change := Change(None, None, Some(row.cadence.(timezone := to)), Some(status));
        var ok := WriteSchedule(id, Update(change), Changed);
        ToldMore(before, rows, listed[..i], id);
      }
      assert listed[..|listed|] == listed;
    }
  }

  function Told(rows: map<Id, Row>, ids: seq<Id>): seq<Event>
    requires forall id <- ids :: id in rows
  {
    seq(|ids|, i requires 0 <= i < |ids| => Event(Changed, ids[i], rows[ids[i]]))
  }

  lemma ToldMore(before: map<Id, Row>, rows: map<Id, Row>, ids: seq<Id>, id: Id)
    requires id in rows && id !in ids && forall x <- ids :: x in before && x in rows && rows[x] == before[x]
    ensures Told(rows, ids + [id]) == Told(before, ids) + [Event(Changed, id, rows[id])]
  {
  }
}
