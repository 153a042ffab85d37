// One streamed message, raced over by its agent, the person's stop and the
// hub's sweeper (server/internal/conversations/streaming.go, stop.go).
//
// A run is any sequence of steps in any order, from any number of callers.
// What the source does as one transaction, one script or one command is one
// step; everything else may be interrupted, and a caller that crashes is one
// that takes no further step. A step that is not enabled changes nothing, so
// every sequence of steps is a run. An agent may name any message, also one
// that does not exist yet; the hub and a person only end streams they listed.
module Streaming {
  import opened Wrappers
  import opened StreamStore

  // Who finished a stream.
  datatype Ending = EndedByAgent | EndedByHub | EndedByPerson

  datatype Body = Body(text: Text, buttons: seq<Id>, selected: Option<Id>)
  datatype Row = Row(agent: Id, streaming: bool, body: Body, truncated: bool, stopped: bool)

  // Where a call of finishStream stands. `seen` and `found` are history no
  // step consults: the deltas accepted before the buffer was read, and
  // whether there was a buffer to read.
  datatype Phase =
    | Reading
    | Writing(text: Text, seen: Text, found: bool)
    | Clearing(row: Row)
    | Looking
    | Dropping
    | Answered(row: Row)
    | Refused
  datatype Call = Call(agent: Id, end: Ending, buttons: seq<Id>, phase: Phase)

  // History: the transaction that completed the message.
  datatype Win = Win(end: Ending, buttons: seq<Id>, text: Text, seen: Text, found: bool, told: seq<Id>)

  datatype State = State(
    row: Option<Row>,           // the message, once created
    made: bool,               // the buffer has been created
    buffer: Option<Text>,       // the buffer, while Redis holds it
    calls: map<nat, Call>,      // calls of finishStream
    taps: map<nat, Body>,       // button presses that have read the message
    agents: seq<Id>,            // the agents in the conversation
    outbox: seq<Id>,            // agents with a delivery row for the message
    accepted: Text,             // history: every accepted delta, in order
    wins: seq<Win>)             // history

  datatype Step =
    | Create(agent: Id)
    | Open
    | Append(agent: Id, delta: Text)
    | Lapse                     // the buffer's key expires
    | Members(now: seq<Id>)
    | Begin(call: nat, agent: Id, end: Ending, buttons: seq<Id>)
    | Read(call: nat)
    | Commit(call: nat)
    | Fail(call: nat)           // the database or Redis answers with an error
    | Clear(call: nat)
    | Look(call: nat)
    | Drop(call: nat)
    | TapRead(tap: nat)
    | TapWrite(tap: nat, button: Id)

  const Initial := State(None, false, None, map[], map[], [], [], [], [])

  // The text as it is stored, and whether anything was lost.
  function ClampText(text: Text): (r: (Text, bool))
    ensures r.0 <= text && |r.0| <= 8000
    ensures r.1 <==> r.0 != text
    ensures r.1 ==> |r.0| == 8000
  {
    if |text| <= TEXT_MAX_LEN then (text, false) else (text[..TEXT_MAX_LEN], true)
  }

  predicate Owns(s: State, agent: Id) { s.row.Some? && s.row.value.agent == agent }

  // The buffer a call sees. Keys hold the agent too, so another agent's call
  // sees none.
  function BufferFor(s: State, agent: Id): Option<Text> {
    if Owns(s, agent) then s.buffer else None
  }

  function Others(agents: seq<Id>, sender: Id): seq<Id> {
    if agents == [] then []
    else (if agents[0] == sender then [] else [agents[0]]) + Others(agents[1..], sender)
  }

  // The row FinishMessage writes.
  function Finished(row: Row, c: Call, text: Text): Row {
    var (kept, clamped) := ClampText(text);
    Row(row.agent, false, Body(kept, c.buttons, None), c.end != EndedByAgent || clamped, c.end == EndedByPerson)
  }

  // AppendStream's refusals before the script, then the script.
  predicate ValidDelta(delta: Text) { delta != [] && 0 !in delta }

  function Appended(s: State, agent: Id, delta: Text): Reply {
    AppendTo(BufferFor(s, agent), delta).0
  }

  // An error ends the call; the sweeper then forgets the stream.
  function AfterError(c: Call): Call { c.(phase := if c.end == EndedByHub then Dropping else Refused) }

  function Put(s: State, call: nat, c: Call): State { s.(calls := s.calls[call := c]) }

  // streams.text, and the body built from it.
  function ReadBuffer(s: State, call: nat): State {
    if call !in s.calls || !s.calls[call].phase.Reading? then s else
    var c := s.calls[call];
    var b := BufferFor(s, c.agent);
    Put(s, call, c.(phase := Writing(if b.Some? then b.value else [], s.accepted, b.Some?)))
  }

  // The transaction: FinishMessage matches only a row of this agent still
  // streaming, and the fan-out is written with it.
  function CommitFinish(s: State, call: nat): State {
    if call !in s.calls || !s.calls[call].phase.Writing? then s else
    var c := s.calls[call];
    var p := c.phase;
    if Owns(s, c.agent) && s.row.value.streaming then
      var row := Finished(s.row.value, c, p.text);
      var told := Others(s.agents, c.agent);
      Put(s, call, c.(phase := Clearing(row))).(row := Some(row), outbox := s.outbox + told,
        wins := s.wins + [Win(c.end, c.buttons, p.text, p.seen, p.found, told)])
    else Put(s, call, c.(phase := Looking))
  }

  function FailCall(s: State, call: nat): State {
    if call !in s.calls then s else
    var c := s.calls[call];
    if c.phase.Reading? || c.phase.Writing? || c.phase.Looking? then Put(s, call, AfterError(c)) else s
  }

  // The winner removes the buffer and answers.
  function ClearBuffer(s: State, call: nat): State {
    if call !in s.calls || !s.calls[call].phase.Clearing? then s else
    var c := s.calls[call];
    Put(s, call, c.(phase := Answered(c.phase.row))).(buffer := None)
  }

  // ownFinishedMessage.
  function LookUp(s: State, call: nat): State {
    if call !in s.calls || !s.calls[call].phase.Looking? then s else
    var c := s.calls[call];
    Put(s, call,
        if Owns(s, c.agent) && !s.row.value.streaming then c.(phase := Answered(s.row.value)) else AfterError(c))
  }

  // The sweeper forgets a stream it could not finish.
  function DropBuffer(s: State, call: nat): State {
    if call !in s.calls || !s.calls[call].phase.Dropping? then s else
    var c := s.calls[call];
    Put(s, call, c.(phase := Refused)).(buffer := if Owns(s, c.agent) then None else s.buffer)
  }

  function AppendDelta(s: State, agent: Id, delta: Text): State {
    if ValidDelta(delta) && Appended(s, agent, delta) == Accepted
    then s.(buffer := AppendTo(s.buffer, delta).1, accepted := s.accepted + delta) else s
  }

  // recordTap writes back the body the tap read, with the button taken.
  function WriteTap(s: State, tap: nat, button: Id): State {
    if tap in s.taps && s.row.Some? then
      s.(row := Some(s.row.value.(body := s.taps[tap].(selected := Some(button)))), taps := s.taps - {tap})
    else s
  }

  function Next(s: State, step: Step): State {
    match step
    case Create(agent) =>
      if s.row.None? then s.(row := Some(Row(agent, true, Body([], [], None), false, false))) else s
    case Open => if s.row.Some? && !s.made then s.(made := true, buffer := Some([])) else s
    case Append(agent, delta) => AppendDelta(s, agent, delta)
    case Lapse => s.(buffer := None)
    case Members(now) => if Distinct(now) then s.(agents := now) else s
    case Begin(call, agent, end, buttons) =>
      if call in s.calls || (s.row.None? && end != EndedByAgent) then s
      else Put(s, call, Call(agent, end, buttons, Reading))
    case Read(call) => ReadBuffer(s, call)
    case Commit(call) => CommitFinish(s, call)
    case Fail(call) => FailCall(s, call)
    case Clear(call) => ClearBuffer(s, call)
    case Look(call) => LookUp(s, call)
    case Drop(call) => DropBuffer(s, call)
    case TapRead(tap) =>
      if s.row.Some? && !s.row.value.streaming then s.(taps := s.taps[tap := s.row.value.body]) else s
    case TapWrite(tap, button) => WriteTap(s, tap, button)
  }

  function Run(s: State, steps: seq<Step>): State
    decreases |steps|
  {
    if steps == [] then s else Run(Next(s, steps[0]), steps[1..])
  }

  lemma {:induction false} RunConcat(s: State, a: seq<Step>, b: seq<Step>)
    ensures Run(s, a + b) == Run(Run(s, a), b)
    decreases |a|
  {
    if a == [] {
      assert a + b == b;
    } else {
      assert (a + b)[1..] == a[1..] + b && (a + b)[0] == a[0];
      RunConcat(Next(s, a[0]), a[1..], b);
    }
  }

  // What every answer to a finish agrees on: everything but which button a
  // person has taken since.
  ghost predicate SameWords(a: Row, b: Row) {
    a.(body := a.body.(selected := None)) == b.(body := b.body.(selected := None))
  }

  // The row is what the winning transaction wrote.
  ghost predicate WrittenBy(row: Row, w: Win) {
    && !row.streaming
    && row.body.text == ClampText(w.text).0
    && row.body.buttons == w.buttons
    && row.truncated == (w.end != EndedByAgent || ClampText(w.text).1)
    && row.stopped == (w.end == EndedByPerson)
  }

  ghost predicate GoodRead(accepted: Text, text: Text, seen: Text, found: bool) {
    && text == (if found then seen else [])
    && seen <= accepted
  }

  ghost predicate GoodCall(s: State, c: Call) {
    match c.phase
    case Writing(text, seen, found) => GoodRead(s.accepted, text, seen, found)
    case Clearing(row) => s.row.Some? && s.wins != [] && SameWords(row, s.row.value) && c.agent == row.agent
    case Answered(row) => s.row.Some? && s.wins != [] && SameWords(row, s.row.value) && c.agent == row.agent
    case _ => true
  }

  ghost predicate Inv(s: State) {
    && Distinct(s.agents)
    && (s.row.None? ==> !s.made && s.wins == [])
    && (!s.made ==> s.buffer.None? && s.accepted == [])
    && (s.buffer.Some? ==> s.buffer.value == s.accepted)
    && |s.wins| <= 1
    && (s.row.Some? ==> (s.row.value.streaming <==> s.wins == []))
    && s.outbox == (if s.wins == [] then [] else s.wins[0].told)
    && (s.wins != [] ==>
          && s.row.Some?
          && WrittenBy(s.row.value, s.wins[0])
          && GoodRead(s.accepted, s.wins[0].text, s.wins[0].seen, s.wins[0].found)
          && Distinct(s.wins[0].told) && s.row.value.agent !in s.wins[0].told)
    && (forall c :: c in s.calls ==> GoodCall(s, s.calls[c]))
    && (forall t :: t in s.taps ==> s.row.Some? && s.wins != [] && SameBody(s.taps[t], s.row.value.body))
  }

  ghost predicate SameBody(a: Body, b: Body) { a.text == b.text && a.buttons == b.buttons }

  lemma {:induction false} OthersAre(agents: seq<Id>, sender: Id)
    ensures forall a :: a in Others(agents, sender) <==> a in agents && a != sender
    ensures Distinct(agents) ==> Distinct(Others(agents, sender))
  {
    if agents != [] {
      OthersAre(agents[1..], sender);
      assert agents == [agents[0]] + agents[1..];
      if Distinct(agents) {
        assert forall j :: 0 <= j < |agents[1..]| ==> agents[1..][j] == agents[j + 1];
        assert Distinct(agents[1..]);
        assert agents[0] !in agents[1..];
      }
    }
  }

  // What a step of one call leaves alone.
  ghost predicate SameMessage(s: State, t: State) {
    && t.wins == s.wins && t.outbox == s.outbox && t.row == s.row
    && t.made == s.made && t.accepted == s.accepted && (t.buffer == s.buffer || t.buffer.None?)
  }

  lemma PutKeepsInv(s: State, call: nat, c: Call, buffer: Option<Text>)
    requires Inv(s) && GoodCall(s, c) && (buffer == s.buffer || buffer.None?)
    ensures var t := Put(s, call, c).(buffer := buffer); Inv(t) && SameMessage(s, t)
  {
    var t := Put(s, call, c).(buffer := buffer);
    forall k | k in t.calls ensures GoodCall(t, t.calls[k]) {
      if k in s.calls { assert GoodCall(s, s.calls[k]); }
    }
  }

  lemma ReadKeepsInv(s: State, call: nat)
    requires Inv(s)
    ensures Inv(ReadBuffer(s, call)) && SameMessage(s, ReadBuffer(s, call))
  {
    if call in s.calls {
      var c := s.calls[call];
      var b := BufferFor(s, c.agent);
      PutKeepsInv(s, call, c.(phase := Writing(if b.Some? then b.value else [], s.accepted, b.Some?)), s.buffer);
    }
  }

  lemma FailKeepsInv(s: State, call: nat)
    requires Inv(s)
    ensures Inv(FailCall(s, call)) && SameMessage(s, FailCall(s, call))
  {
    if call in s.calls { PutKeepsInv(s, call, AfterError(s.calls[call]), s.buffer); }
  }

  lemma ClearKeepsInv(s: State, call: nat)
    requires Inv(s)
    ensures Inv(ClearBuffer(s, call)) && SameMessage(s, ClearBuffer(s, call))
  {
    if call in s.calls && s.calls[call].phase.Clearing? {
      var c := s.calls[call];
      assert GoodCall(s, c);
      PutKeepsInv(s, call, c.(phase := Answered(c.phase.row)), None);
    }
  }

  lemma LookKeepsInv(s: State, call: nat)
    requires Inv(s)
    ensures Inv(LookUp(s, call)) && SameMessage(s, LookUp(s, call))
  {
    if call in s.calls {
      var c := s.calls[call];
      if Owns(s, c.agent) && !s.row.value.streaming {
        PutKeepsInv(s, call, c.(phase := Answered(s.row.value)), s.buffer);
      } else {
        PutKeepsInv(s, call, AfterError(c), s.buffer);
      }
    }
  }

  lemma DropKeepsInv(s: State, call: nat)
    requires Inv(s)
    ensures Inv(DropBuffer(s, call)) && SameMessage(s, DropBuffer(s, call))
  {
    if call in s.calls {
      var c := s.calls[call];
      PutKeepsInv(s, call, c.(phase := Refused), if Owns(s, c.agent) then None else s.buffer);
    }
  }

  lemma CommitKeepsInv(s: State, call: nat)
    requires Inv(s)
    ensures Inv(CommitFinish(s, call))
  {
    if call in s.calls && s.calls[call].phase.Writing? {
      var c := s.calls[call];
      if Owns(s, c.agent) && s.row.value.streaming {
        var t := CommitFinish(s, call);
        OthersAre(s.agents, c.agent);
        assert GoodCall(s, c);
        assert WrittenBy(t.row.value, t.wins[0]);
        forall k | k in t.calls ensures GoodCall(t, t.calls[k]) {
          if k != call { assert GoodCall(s, s.calls[k]); }
        }
      } else {
        PutKeepsInv(s, call, c.(phase := Looking), s.buffer);
      }
    }
  }

  lemma TapKeepsInv(s: State, tap: nat, button: Id)
    requires Inv(s)
    ensures var t := WriteTap(s, tap, button);
            Inv(t) && (s.row.Some? ==> SameWords(s.row.value, t.row.value))
  {
    var t := WriteTap(s, tap, button);
    if tap in s.taps {
      assert SameBody(s.taps[tap], s.row.value.body);
      assert SameWords(s.row.value, t.row.value);
      forall c | c in t.calls ensures GoodCall(t, t.calls[c]) { assert GoodCall(s, s.calls[c]); }
    }
  }

  predicate OfCall(step: Step) {
    step.Begin? || step.Read? || step.Fail? || step.Clear? || step.Look? || step.Drop?
  }

  // Steps of one call that leave the message as it is.
  lemma CallStepKeepsInv(s: State, step: Step)
    requires Inv(s) && OfCall(step)
    ensures Inv(Next(s, step)) && SameMessage(s, Next(s, step))
  {
    if step.Begin? || step.Read? || step.Fail? {
      EarlyStepKeepsInv(s, step);
    } else {
      LateStepKeepsInv(s, step);
    }
  }

  lemma EarlyStepKeepsInv(s: State, step: Step)
    requires Inv(s) && (step.Begin? || step.Read? || step.Fail?)
    ensures Inv(Next(s, step)) && SameMessage(s, Next(s, step))
  {
    if step.Begin? {
      PutKeepsInv(s, step.call, Call(step.agent, step.end, step.buttons, Reading), s.buffer);
    } else if step.Read? {
      ReadKeepsInv(s, step.call);
    } else {
      FailKeepsInv(s, step.call);
    }
  }

  lemma LateStepKeepsInv(s: State, step: Step)
    requires Inv(s) && (step.Clear? || step.Look? || step.Drop?)
    ensures Inv(Next(s, step)) && SameMessage(s, Next(s, step))
  {
    if step.Clear? {
      ClearKeepsInv(s, step.call);
      assert Next(s, step) == ClearBuffer(s, step.call);
    } else if step.Look? {
      LookKeepsInv(s, step.call);
      assert Next(s, step) == LookUp(s, step.call);
    } else {
      DropKeepsInv(s, step.call);
      assert Next(s, step) == DropBuffer(s, step.call);
    }
  }

  lemma AppendKeepsInv(s: State, agent: Id, delta: Text)
    requires Inv(s)
    ensures var t := AppendDelta(s, agent, delta);
            Inv(t) && t.wins == s.wins && t.outbox == s.outbox && t.row == s.row
  {
    var t := AppendDelta(s, agent, delta);
    forall c | c in t.calls ensures GoodCall(t, t.calls[c]) { assert GoodCall(s, s.calls[c]); }
  }

  lemma PlainStepKeepsInv(s: State, step: Step)
    requires Inv(s) && !OfCall(step) && !step.Commit? && !step.TapWrite?
    ensures var t := Next(s, step);
            Inv(t) && t.wins == s.wins && t.outbox == s.outbox && (s.row.Some? ==> t.row == s.row)
  {
    if step.Append? {
      AppendKeepsInv(s, step.agent, step.delta);
    } else {
      QuietStepKeepsInv(s, step);
    }
  }

  lemma QuietStepKeepsInv(s: State, step: Step)
    requires Inv(s) && (step.Create? || step.Open? || step.Lapse? || step.Members? || step.TapRead?)
    ensures var t := Next(s, step);
            Inv(t) && t.wins == s.wins && t.outbox == s.outbox && (s.row.Some? ==> t.row == s.row)
  {
    var t := Next(s, step);
    forall c | c in t.calls ensures GoodCall(t, t.calls[c]) { assert GoodCall(s, s.calls[c]); }
  }

  lemma StepKeepsInv(s: State, step: Step)
    requires Inv(s)
    ensures Inv(Next(s, step))
  {
    if step.Commit? {
      CommitKeepsInv(s, step.call);
    } else if step.TapWrite? {
      TapKeepsInv(s, step.tap, step.button);
    } else if OfCall(step) {
      CallStepKeepsInv(s, step);
    } else {
      PlainStepKeepsInv(s, step);
    }
  }

  lemma {:induction false} RunKeepsInv(s: State, steps: seq<Step>)
    requires Inv(s)
    ensures Inv(Run(s, steps))
    decreases |steps|
  {
    if steps != [] {
      StepKeepsInv(s, steps[0]);
      RunKeepsInv(Next(s, steps[0]), steps[1..]);
    }
  }

  // ---- Finished once ----------------------------------------------------

  lemma CommitIsFinal(s: State, call: nat)
    requires Inv(s) && s.wins != []
    ensures var t := CommitFinish(s, call); t.wins == s.wins && t.outbox == s.outbox && t.row == s.row
  {
  }

  lemma TapIsFinal(s: State, tap: nat, button: Id)
    requires Inv(s) && s.wins != []
    ensures var t := WriteTap(s, tap, button);
            Inv(t) && t.wins == s.wins && t.outbox == s.outbox && SameWords(s.row.value, t.row.value)
  {
    TapKeepsInv(s, tap, button);
  }

  lemma StepIsFinal(s: State, step: Step)
    requires Inv(s) && s.wins != []
    ensures var t := Next(s, step);
            Inv(t) && t.wins == s.wins && t.outbox == s.outbox && SameWords(s.row.value, t.row.value)
  {
    if step.Commit? {
      CommitKeepsInv(s, step.call);
      CommitIsFinal(s, step.call);
    } else if step.TapWrite? {
      TapIsFinal(s, step.tap, step.button);
    } else if OfCall(step) {
      CallStepKeepsInv(s, step);
    } else {
      PlainStepKeepsInv(s, step);
    }
  }

  lemma {:induction false} FinishIsFinal(s: State, steps: seq<Step>)
    requires Inv(s) && s.wins != []
    ensures var t := Run(s, steps);
            Inv(t) && t.wins == s.wins && t.outbox == s.outbox && SameWords(s.row.value, t.row.value)
    decreases |steps|
  {
    if steps != [] {
      StepIsFinal(s, steps[0]);
      FinishIsFinal(Next(s, steps[0]), steps[1..]);
    }
  }

  // In every run the message completes at most once. When it has, the agents
  // told are the other agents then in the conversation, each by one row; the
  // marks say who finished it; and a stopped message is a truncated one.
  lemma FinishedOnce(steps: seq<Step>)
    ensures var s := Run(Initial, steps);
            && |s.wins| <= 1
            && (s.row.Some? && !s.row.value.streaming <==> |s.wins| == 1)
            && (s.wins == [] ==> s.outbox == [])
            && (s.wins != [] ==>
                  && s.outbox == s.wins[0].told && Distinct(s.outbox) && s.row.value.agent !in s.outbox
                  && s.row.value.stopped == (s.wins[0].end == EndedByPerson)
                  && (s.wins[0].end != EndedByAgent ==> s.row.value.truncated)
                  && (s.row.value.stopped ==> s.row.value.truncated))
  {
    RunKeepsInv(Initial, steps);
  }

  // The transaction that wins tells exactly the members other than the
  // sender, each once.
  lemma WinnerTellsTheOthers(s: State, call: nat)
    requires Inv(s) && s.wins == []
    ensures var t := Next(s, Commit(call));
            t.wins != [] ==>
              && Owns(t, t.calls[call].agent) && Distinct(t.outbox)
              && (forall a :: a in t.outbox <==> a in s.agents && a != t.row.value.agent)
  {
    if call in s.calls { OthersAre(s.agents, s.calls[call].agent); }
  }

  // What the transaction writes, if the message is the caller's and still being
  // written: the text it read, or its first eight thousand characters; its
  // buttons; and marks for a text cut or not the agent's last, and for a stop.
  // Otherwise it writes nothing, and goes to see whether another has finished.
  lemma CommitDecides(s: State, call: nat)
    requires call in s.calls && s.calls[call].phase.Writing?
    ensures var c, t := s.calls[call], Next(s, Commit(call));
            var text := c.phase.text;
            && call in t.calls && t.accepted == s.accepted && t.buffer == s.buffer
            && if s.row.Some? && s.row.value.agent == c.agent && s.row.value.streaming then
                 && t.row == Some(Row(c.agent, false,
                                      Body(if |text| <= 8000 then text else text[..8000], c.buttons, None),
                                      c.end != EndedByAgent || |text| > 8000, c.end == EndedByPerson))
                 && t.calls[call] == c.(phase := Clearing(t.row.value)) && |t.wins| == |s.wins| + 1
               else t == s.(calls := s.calls[call := c.(phase := Looking)])
  {
  }

  // A finish reads its own message's buffer, if there is one; and once it has
  // won, the buffer goes.
  lemma ReadDecides(s: State, call: nat)
    requires call in s.calls && s.calls[call].phase.Reading?
    ensures var c, t := s.calls[call], Next(s, Read(call));
            && call in t.calls && t.calls[call].phase.Writing? && t == s.(calls := t.calls)
            && t.calls[call].phase.text ==
               if s.row.Some? && s.row.value.agent == c.agent && s.buffer.Some? then s.buffer.value else []
  {
  }

  lemma ClearDecides(s: State, call: nat)
    requires call in s.calls && s.calls[call].phase.Clearing?
    ensures var c, t := s.calls[call], Next(s, Clear(call));
            && t.buffer.None? && call in t.calls && t.calls[call].phase == Answered(c.phase.row)
            && t.row == s.row && t.wins == s.wins
  {
  }

  // A finish that lost answers what the winner wrote to the message's own
  // agent. Refused, or met by an error, an agent's or a person's finish ends;
  // the hub's goes on to drop the buffer of its own message.
  lemma LosersAnswer(s: State, call: nat)
    requires call in s.calls && s.calls[call].phase.Looking?
    ensures var c, t, failed := s.calls[call], Next(s, Look(call)), Next(s, Fail(call));
            var over := c.(phase := if c.end == EndedByHub then Dropping else Refused);
            && failed == s.(calls := s.calls[call := over])
            && t == if s.row.Some? && s.row.value.agent == c.agent && !s.row.value.streaming
                    then s.(calls := s.calls[call := c.(phase := Answered(s.row.value))]) else failed
  {
  }

  // Every answer given at any time is the winner's message, and stays it
  // however the run goes on: the same text, buttons and marks.
  lemma AnswersAgree(before: seq<Step>, after: seq<Step>, call: nat)
    ensures var s := Run(Initial, before);
            var t := Run(Initial, before + after);
            call in s.calls && s.calls[call].phase.Answered? ==>
              && s.wins != [] && WrittenBy(s.calls[call].phase.row, s.wins[0])
              && t.wins == s.wins && t.row.Some? && WrittenBy(t.row.value, s.wins[0])
              && SameWords(s.calls[call].phase.row, t.row.value)
  {
    var s := Run(Initial, before);
    RunConcat(Initial, before, after);
    RunKeepsInv(Initial, before);
    if call in s.calls && s.calls[call].phase.Answered? {
      assert GoodCall(s, s.calls[call]);
      FinishIsFinal(s, after);
    }
  }

  function FinishAgain(call: nat, agent: Id, end: Ending, buttons: seq<Id>): seq<Step> {
    [Begin(call, agent, end, buttons), Read(call), Commit(call), Look(call)]
  }

  // Finishing again is answered with the finished message for its own agent
  // and refused to any other, and changes nothing but the call's own record.
  lemma FinishingAgain(s: State, call: nat, agent: Id, end: Ending, buttons: seq<Id>)
    requires Inv(s) && s.wins != [] && call !in s.calls
    ensures var c := Call(agent, end, buttons, Reading);
            Run(s, FinishAgain(call, agent, end, buttons)) ==
            Put(s, call, if Owns(s, agent) then c.(phase := Answered(s.row.value)) else AfterError(c))
  {
    var c := Call(agent, end, buttons, Reading);
    FourCalls(s, call, agent, end, buttons);
    LosesTheRace(s, call, c);
    LooksUp(s, call, c.(phase := Looking));
  }

  lemma BeginsAndReads(s: State, call: nat, agent: Id, end: Ending, buttons: seq<Id>)
    requires call !in s.calls && s.row.Some?
    ensures Run(s, [Begin(call, agent, end, buttons), Read(call)]) ==
            ReadBuffer(Put(s, call, Call(agent, end, buttons, Reading)), call)
  {
    RunConcat(s, [Begin(call, agent, end, buttons)], [Read(call)]);
  }

  lemma CommitsAndLooks(s: State, call: nat)
    ensures Run(s, [Commit(call), Look(call)]) == LookUp(CommitFinish(s, call), call)
  {
    RunConcat(s, [Commit(call)], [Look(call)]);
  }

  lemma FourCalls(s: State, call: nat, agent: Id, end: Ending, buttons: seq<Id>)
    requires call !in s.calls && s.row.Some?
    ensures Run(s, FinishAgain(call, agent, end, buttons)) ==
            LookUp(CommitFinish(ReadBuffer(Put(s, call, Call(agent, end, buttons, Reading)), call), call), call)
  {
    var first, last := [Begin(call, agent, end, buttons), Read(call)], [Commit(call), Look(call)];
    assert first + last == FinishAgain(call, agent, end, buttons);
    RunConcat(s, first, last);
    BeginsAndReads(s, call, agent, end, buttons);
    CommitsAndLooks(Run(s, first), call);
  }

  lemma LosesTheRace(s: State, call: nat, c: Call)
    requires Inv(s) && s.wins != [] && c.phase.Reading?
    ensures CommitFinish(ReadBuffer(Put(s, call, c), call), call) == Put(s, call, c.(phase := Looking))
  {
    var b := BufferFor(s, c.agent);
    var read := c.(phase := Writing(if b.Some? then b.value else [], s.accepted, b.Some?));
    PutPut(s, call, c, read);
    assert ReadBuffer(Put(s, call, c), call) == Put(s, call, read);
    PutPut(s, call, read, c.(phase := Looking));
  }

  lemma LooksUp(s: State, call: nat, c: Call)
    requires Inv(s) && s.wins != [] && c.phase.Looking?
    ensures LookUp(Put(s, call, c), call) ==
            Put(s, call, if Owns(s, c.agent) then c.(phase := Answered(s.row.value)) else AfterError(c))
  {
    PutPut(s, call, c, if Owns(s, c.agent) then c.(phase := Answered(s.row.value)) else AfterError(c));
  }

  lemma PutPut(s: State, call: nat, a: Call, b: Call)
    ensures Put(Put(s, call, a), call, b) == Put(s, call, b)
  {
    assert s.calls[call := a][call := b] == s.calls[call := b];
  }

  lemma RunFour(s: State, a: Step, b: Step, c: Step, d: Step)
    ensures Run(s, [a]) == Next(s, a)
    ensures Run(s, [a, b]) == Next(Next(s, a), b)
    ensures Run(s, [a, b, c]) == Next(Next(Next(s, a), b), c)
    ensures Run(s, [a, b, c, d]) == Next(Next(Next(Next(s, a), b), c), d)
  {
    RunConcat(s, [a], [b]);
    RunConcat(s, [a], [b, c]);
    RunConcat(s, [a], [b, c, d]);
    RunConcat(Next(s, a), [b], [c]);
    RunConcat(Next(s, a), [b], [c, d]);
    RunConcat(Next(Next(s, a), b), [c], [d]);
    assert [a] + [b] == [a, b] && [a] + [b, c] == [a, b, c] && [a] + [b, c, d] == [a, b, c, d];
    assert [b] + [c] == [b, c] && [b] + [c, d] == [b, c, d] && [c] + [d] == [c, d];
  }

  // ---- The text ----------------------------------------------------------

  // The final text is always a prefix of the accepted deltas. It is all those
  // accepted before the winner read the buffer, cut at the limit, exactly
  // when the winner found a buffer or there was nothing to find; and then
  // truncated says whether a cut lost anything or the agent did not finish.
  lemma FinalText(steps: seq<Step>)
    ensures var s := Run(Initial, steps);
            s.wins != [] ==>
              s.row.Some? &&
              var w := s.wins[0];
              var row := s.row.value;
              && row.body.text <= s.accepted && w.seen <= s.accepted && |row.body.text| <= 8000
              && (row.body.text == ClampText(w.seen).0 <==> w.found || w.seen == [])
              && (w.found ==> (row.truncated <==> w.end != EndedByAgent || row.body.text != w.seen))
  {
    RunKeepsInv(Initial, steps);
    var s := Run(Initial, steps);
    if s.wins != [] {
      var w := s.wins[0];
      assert ClampText(w.text).0 <= w.text <= s.accepted;
    }
  }

  // The text is all that had been accepted when the winner read.
  ghost predicate Whole(s: State) {
    s.wins != [] ==> s.row.Some? && s.row.value.body.text == ClampText(s.wins[0].seen).0
  }

  // Whether buffers may lapse, and whether the hub's own finishes may meet
  // an error. Errors met by agents and persons are always allowed.
  predicate Allowed(s: State, step: Step, lapses: bool, errors: bool) {
    && (step.Lapse? ==> lapses)
    && (step.Fail? && step.call in s.calls && s.calls[step.call].end == EndedByHub ==> errors)
  }

  predicate AllAllowed(s: State, steps: seq<Step>, lapses: bool, errors: bool)
    decreases |steps|
  {
    steps == [] || (Allowed(s, steps[0], lapses, errors) && AllAllowed(Next(s, steps[0]), steps[1..], lapses, errors))
  }

  // A call that can no longer finish the message: it is finished, or another
  // agent's.
  predicate Moot(s: State, agent: Id) {
    s.row.Some? && !(s.row.value.agent == agent && s.row.value.streaming)
  }

  // What a call that may yet finish the message has read is all of it, and a
  // hub's call about to drop a buffer may not.
  predicate SafeCall(s: State, c: Call) {
    && (c.end == EndedByHub ==> s.row.Some?)
    && (c.phase.Writing? ==> c.phase.text == c.phase.seen || Moot(s, c.agent))
    && ((c.phase.Looking? && c.end == EndedByHub) || c.phase.Dropping? ==> Moot(s, c.agent))
  }

  // Until a stream is finished its buffer, once made, is there.
  ghost predicate Kept(s: State) {
    && (s.made && s.wins == [] ==> s.buffer.Some?)
    && (forall k <- s.calls :: SafeCall(s, s.calls[k]))
    && (s.wins != [] ==> s.wins[0].text == s.wins[0].seen)
  }

  lemma PutKeeps(s: State, call: nat, c: Call)
    requires Kept(s) && SafeCall(s, c)
    ensures Kept(Put(s, call, c))
  {
    var t := Put(s, call, c);
    forall k <- t.calls ensures SafeCall(t, t.calls[k]) {
      if k != call { assert SafeCall(s, s.calls[k]); }
    }
  }

  lemma ReadKeeps(s: State, call: nat)
    requires Inv(s) && Kept(s)
    ensures Kept(ReadBuffer(s, call))
  {
    if call in s.calls && s.calls[call].phase.Reading? {
      var c := s.calls[call];
      assert SafeCall(s, c);
      var b := BufferFor(s, c.agent);
      PutKeeps(s, call, c.(phase := Writing(if b.Some? then b.value else [], s.accepted, b.Some?)));
    }
  }

  lemma CommitKeeps(s: State, call: nat)
    requires Inv(s) && Kept(s)
    ensures Kept(CommitFinish(s, call))
  {
    if call in s.calls && s.calls[call].phase.Writing? {
      var c := s.calls[call];
      assert SafeCall(s, c);
      var t := CommitFinish(s, call);
      if Owns(s, c.agent) && s.row.value.streaming {
        forall k <- t.calls ensures SafeCall(t, t.calls[k]) {
          if k != call { assert SafeCall(s, s.calls[k]); }
        }
      } else {
        PutKeeps(s, call, c.(phase := Looking));
      }
    }
  }

  lemma FailKeeps(s: State, call: nat)
    requires Kept(s) && (call in s.calls ==> s.calls[call].end != EndedByHub)
    ensures Kept(FailCall(s, call))
  {
    if call in s.calls {
      assert SafeCall(s, s.calls[call]);
      PutKeeps(s, call, AfterError(s.calls[call]));
    }
  }

  lemma ClearKeeps(s: State, call: nat)
    requires Inv(s) && Kept(s)
    ensures Kept(ClearBuffer(s, call))
  {
    if call in s.calls && s.calls[call].phase.Clearing? {
      var c := s.calls[call];
      assert GoodCall(s, c) && SafeCall(s, c);
      PutKeeps(s, call, c.(phase := Answered(c.phase.row)));
      Emptied(Put(s, call, c.(phase := Answered(c.phase.row))));
    }
  }

  lemma Emptied(s: State)
    requires Kept(s) && s.wins != []
    ensures Kept(s.(buffer := None))
  {
    var t := s.(buffer := None);
    forall k <- t.calls ensures SafeCall(t, t.calls[k]) { assert SafeCall(s, s.calls[k]); }
  }

  lemma LookKeeps(s: State, call: nat)
    requires Inv(s) && Kept(s)
    ensures Kept(LookUp(s, call))
  {
    if call in s.calls && s.calls[call].phase.Looking? {
      var c := s.calls[call];
      assert SafeCall(s, c);
      if Owns(s, c.agent) && !s.row.value.streaming {
        PutKeeps(s, call, c.(phase := Answered(s.row.value)));
      } else {
        PutKeeps(s, call, AfterError(c));
      }
    }
  }

  lemma DropKeeps(s: State, call: nat)
    requires Inv(s) && Kept(s)
    ensures Kept(DropBuffer(s, call))
  {
    if call in s.calls && s.calls[call].phase.Dropping? {
      var c := s.calls[call];
      assert SafeCall(s, c);
      PutKeeps(s, call, c.(phase := Refused));
      if Owns(s, c.agent) {
        Emptied(Put(s, call, c.(phase := Refused)));
      }
    }
  }

  lemma TapKeeps(s: State, tap: nat, button: Id)
    requires Kept(s)
    ensures Kept(WriteTap(s, tap, button))
  {
    var t := WriteTap(s, tap, button);
    forall k <- t.calls ensures SafeCall(t, t.calls[k]) { assert SafeCall(s, s.calls[k]); }
  }

  lemma OtherKeeps(s: State, step: Step)
    requires Inv(s) && Kept(s)
    requires step.Create? || step.Open? || step.Append? || step.Members? || step.TapRead?
    ensures Kept(Next(s, step))
  {
    var t := Next(s, step);
    forall k <- t.calls ensures SafeCall(t, t.calls[k]) { assert SafeCall(s, s.calls[k]); }
  }

  lemma StepKeeps(s: State, step: Step)
    requires Inv(s) && Kept(s) && Allowed(s, step, false, false)
    ensures Kept(Next(s, step))
  {
    match step {
      case Create(agent) => OtherKeeps(s, step);
      case Open => OtherKeeps(s, step);
      case Append(agent, delta) => OtherKeeps(s, step);
      case Lapse =>
      case Members(now) => OtherKeeps(s, step);
      case Begin(call, agent, end, buttons) =>
        if call !in s.calls && (s.row.Some? || end == EndedByAgent) {
          PutKeeps(s, call, Call(agent, end, buttons, Reading));
        }
      case Read(call) => ReadKeeps(s, call);
      case Commit(call) => CommitKeeps(s, call);
      case Fail(call) => FailKeeps(s, call);
      case Clear(call) => ClearKeeps(s, call);
      case Look(call) => LookKeeps(s, call);
      case Drop(call) => DropKeeps(s, call);
      case TapRead(tap) => OtherKeeps(s, step);
      case TapWrite(tap, button) => TapKeeps(s, tap, button);
    }
  }

  lemma {:induction false} RunKeeps(s: State, steps: seq<Step>)
    requires Inv(s) && Kept(s) && AllAllowed(s, steps, false, false)
    ensures Inv(Run(s, steps)) && Kept(Run(s, steps))
    decreases |steps|
  {
    if steps != [] {
      StepKeepsInv(s, steps[0]);
      StepKeeps(s, steps[0]);
      RunKeeps(Next(s, steps[0]), steps[1..]);
    }
  }

  // In every run in which no buffer lapses and none of the hub's own finishes
  // meets an error, the text is everything accepted before the winner read,
  // cut at the limit, and truncated says whether the cut lost anything or the
  // agent did not finish.
  lemma TextIsWhole(steps: seq<Step>)
    requires AllAllowed(Initial, steps, false, false)
    ensures var s := Run(Initial, steps);
            && Whole(s)
            && (s.wins != [] ==>
                  && s.row.Some? && s.wins[0].seen <= s.accepted
                  && (s.row.value.truncated <==>
                        s.wins[0].end != EndedByAgent || s.row.value.body.text != s.wins[0].seen))
  {
    RunKeeps(Initial, steps);
  }

  // Both are needed: over all runs the text is whole exactly when buffers do
  // not lapse and the hub's finishes meet no error.
  lemma TextIsWholeExactly(lapses: bool, errors: bool)
    ensures (forall steps :: AllAllowed(Initial, steps, lapses, errors) ==> Whole(Run(Initial, steps))) <==>
            !lapses && !errors
  {
    if !lapses && !errors {
      forall steps | AllAllowed(Initial, steps, lapses, errors) ensures Whole(Run(Initial, steps)) {
        TextIsWhole(steps);
      }
    } else if errors {
      SweeperErrorLosesText();
      HarmlessAllowed(Initial, OneWord + SweepFails + AgentEnds, lapses, errors);
    } else {
      LapseLosesText();
      HarmlessAllowed(Initial, OneWord + [Lapse] + AgentEnds, lapses, errors);
    }
  }

  lemma {:induction false} HarmlessAllowed(s: State, steps: seq<Step>, lapses: bool, errors: bool)
    requires forall step <- steps :: (step.Lapse? ==> lapses) && (step.Fail? ==> errors)
    ensures AllAllowed(s, steps, lapses, errors)
    decreases |steps|
  {
    if steps != [] {
      HarmlessAllowed(Next(s, steps[0]), steps[1..], lapses, errors);
    }
  }

  // In every run a delta from the agent whose message it is, with a word in it
  // and no NUL, is appended exactly when its buffer is there and what was
  // accepted and the delta fit in 32,000 octets; any other changes nothing.
  lemma AppendsExactly(steps: seq<Step>, agent: Id, delta: Text)
    ensures var s := Run(Initial, steps);
            var fits := && s.row.Some? && s.row.value.agent == agent && s.buffer.Some?
                        && delta != [] && (forall r <- delta :: r != 0) && ByteLen(s.accepted + delta) <= 32_000;
            Next(s, Append(agent, delta)) ==
            if fits then s.(buffer := Some(s.accepted + delta), accepted := s.accepted + delta) else s
  {
    RunKeepsInv(Initial, steps);
    ByteLenConcat(Run(Initial, steps).accepted, delta);
  }

  // A person's press of a button that has read the finished message leaves its
  // words and takes the button, also when another was taken in between.
  lemma PressTakesTheButton(steps: seq<Step>, tap: nat, button: Id)
    requires var s := Run(Initial, steps); tap in s.taps
    ensures var s := Run(Initial, steps);
            var t := Next(s, TapWrite(tap, button));
            && s.row.Some? && t.row.Some? && SameWords(s.row.value, t.row.value)
            && t.row.value.body.selected == Some(button)
  {
    RunKeepsInv(Initial, steps);
    TapIsFinal(Run(Initial, steps), tap, button);
  }

  // A delta is refused as too long only when everything accepted so far and
  // the delta together would not fit in the character limit.
  lemma RefusedOnlyWhenTooLong(steps: seq<Step>, agent: Id, delta: Text)
    ensures var s := Run(Initial, steps);
            Appended(s, agent, delta) == TooLong ==> |s.accepted + delta| > 8000
  {
    RunKeepsInv(Initial, steps);
    var s := Run(Initial, steps);
    if Appended(s, agent, delta) == TooLong { TooLongIsTooLong(s.buffer.value, delta); }
  }

  lemma GoneStaysGone(s: State, step: Step)
    requires s.made && s.buffer.None?
    ensures var t := Next(s, step); t.made && t.buffer.None? && t.accepted == s.accepted
  {
  }

  // The buffer, once made and gone, never comes back.
  lemma {:induction false} BufferNeverReturns(s: State, steps: seq<Step>)
    requires s.made && s.buffer.None?
    ensures var t := Run(s, steps); t.made && t.buffer.None? && t.accepted == s.accepted
    decreases |steps|
  {
    if steps != [] {
      GoneStaysGone(s, steps[0]);
      BufferNeverReturns(Next(s, steps[0]), steps[1..]);
    }
  }

  // ---- No further word ---------------------------------------------------

  // Whatever happens next, nothing more is accepted.
  ghost predicate Sealed(s: State) {
    forall steps :: Run(s, steps).accepted == s.accepted
  }

  // A message takes no further word exactly when its buffer was made and is
  // gone, or is full. Being finished is not enough.
  lemma SealedExactly(steps: seq<Step>)
    requires Run(Initial, steps).row.Some?
    ensures var s := Run(Initial, steps);
            Sealed(s) <==> s.made && (s.buffer.Some? ==> ByteLen(s.buffer.value) >= 32_000)
  {
    var s := Run(Initial, steps);
    RunKeepsInv(Initial, steps);
    if s.made && (s.buffer.Some? ==> ByteLen(s.buffer.value) >= STREAM_MAX_BYTES) {
      forall more ensures Run(s, more).accepted == s.accepted { FullOrGoneIsSealed(s, more); }
    } else {
      var a := Append(s.row.value.agent, [0x41]);
      assert ByteLen([0x41]) == 1;
      if s.made {
        assert Run(s, [a]) == Next(s, a);
        assert Run(s, [a]).accepted != s.accepted;
      } else {
        var open := Next(s, Open);
        assert [Open, a][1..] == [a];
        assert Run(s, [Open, a]) == Run(open, [a]) == Next(open, a);
        assert ByteLen([]) == 0;
        assert Run(s, [Open, a]).accepted != s.accepted;
      }
    }
  }

  lemma FullOrGoneStep(s: State, step: Step)
    requires Inv(s) && s.made && (s.buffer.Some? ==> ByteLen(s.buffer.value) >= STREAM_MAX_BYTES)
    ensures var t := Next(s, step);
            && Inv(t) && t.made && (t.buffer.Some? ==> ByteLen(t.buffer.value) >= STREAM_MAX_BYTES)
            && t.accepted == s.accepted
  {
    if step.Commit? {
      CommitKeepsInv(s, step.call);
    } else if step.TapWrite? {
      TapKeepsInv(s, step.tap, step.button);
    } else if OfCall(step) {
      CallStepKeepsInv(s, step);
    } else {
      PlainStepKeepsInv(s, step);
      if step.Append? { ByteLenBounds(step.delta); }
    }
  }

  lemma {:induction false} FullOrGoneIsSealed(s: State, steps: seq<Step>)
    requires Inv(s) && s.made && (s.buffer.Some? ==> ByteLen(s.buffer.value) >= STREAM_MAX_BYTES)
    ensures Run(s, steps).accepted == s.accepted
    decreases |steps|
  {
    if steps != [] {
      FullOrGoneStep(s, steps[0]);
      FullOrGoneIsSealed(Next(s, steps[0]), steps[1..]);
    }
  }

  // The hub's promise for a stop, at the moment the finisher that won has
  // removed the buffer: no further word exactly when the buffer had been made
  // by then. The source makes it after the message's own transaction.
  lemma StopSealsIfOpened(steps: seq<Step>, call: nat)
    requires var s := Run(Initial, steps);
             call in s.calls && s.calls[call].phase.Clearing?
    ensures Sealed(Run(Initial, steps + [Clear(call)])) <==> Run(Initial, steps).made
  {
    var s := Run(Initial, steps);
    RunConcat(Initial, steps, [Clear(call)]);
    var t := Next(s, Clear(call));
    assert Run(s, [Clear(call)]) == t;
    RunKeepsInv(Initial, steps);
    assert GoodCall(s, s.calls[call]);
    SealedExactly(steps + [Clear(call)]);
  }

  const Started := Initial.(row := Some(Row(1, true, Body([], [], None), false, false)))
  const StoppedRow := Row(1, false, Body([], [], None), true, true)
  const StoppedAtOnce := Started.(row := Some(StoppedRow), wins := [Win(EndedByPerson, [], [], [], false, [])])
  const StopCall := Call(1, EndedByPerson, [], Reading)

  lemma StopAtOnce()
    ensures Run(Initial, [Create(1), Begin(0, 1, EndedByPerson, []), Read(0), Commit(0)])
            == Put(StoppedAtOnce, 0, StopCall.(phase := Clearing(StoppedRow)))
  {
    var read := StopCall.(phase := Writing([], [], false));
    RunFour(Initial, Create(1), Begin(0, 1, EndedByPerson, []), Read(0), Commit(0));
    PutPut(Started, 0, StopCall, read);
    PutPut(StoppedAtOnce, 0, read, StopCall.(phase := Clearing(StoppedRow)));
    assert ReadBuffer(Put(Started, 0, StopCall), 0) == Put(Started, 0, read);
    assert Others([], 1) == [];
  }

  // The race itself: a person's stop between the row and its buffer. The
  // reply is complete and stopped, its finisher is done, and a word is still
  // accepted afterwards.
  lemma StopBeforeOpenIsNotSealed()
    ensures var begun := [Create(1), Begin(0, 1, EndedByPerson, []), Read(0), Commit(0)];
            var s := Run(Initial, begun + [Clear(0)]);
            && s.row == Some(StoppedRow) && 0 in s.calls && s.calls[0].phase == Answered(StoppedRow)
            && Run(s, [Open, Append(1, [0x41])]).accepted == [0x41]
  {
    StopAtOnce();
    var begun := [Create(1), Begin(0, 1, EndedByPerson, []), Read(0), Commit(0)];
    var s4 := Run(Initial, begun);
    RunConcat(Initial, begun, [Clear(0)]);
    RunFour(s4, Clear(0), Lapse, Lapse, Lapse);
    var s5 := Next(s4, Clear(0));
    RunFour(s5, Open, Append(1, [0x41]), Lapse, Lapse);
    FirstWord(Next(s5, Open));
  }

  lemma FirstWord(s: State)
    requires s.buffer == Some([]) && Owns(s, 1)
    ensures Next(s, Append(1, [0x41])) == s.(buffer := Some([0x41]), accepted := s.accepted + [0x41])
  {
    assert ByteLen([0x41]) == 1 && ByteLen([]) == 0;
    var none: Text := [];
    assert none + [0x41] == [0x41];
  }

  const OneWord := [Create(1), Open, Append(1, [0x41])]
  const SweepFails := [Begin(0, 1, EndedByHub, []), Fail(0), Drop(0)]
  const AgentEnds := [Begin(1, 1, EndedByAgent, []), Read(1), Commit(1)]

  // The sweeper forgets a stream on any error, so a failed transaction costs
  // a live stream its text: the agent's own finish then stores nothing, and
  // does not call it truncated. finishStream reads whether there was a buffer
  // and ignores it; `found` in FinalText is that answer.
  lemma SweeperErrorLosesText()
    ensures var s := Run(Initial, OneWord + SweepFails + AgentEnds);
            && s.accepted == [0x41] && s.wins != [] && s.wins[0].end == EndedByAgent && s.row.Some?
            && s.row.value.body.text == [] && !s.row.value.truncated && !Whole(s)
  {
    var a, b, c := OneWord, SweepFails, AgentEnds;
    RunConcat(Initial, a + b, c);
    RunConcat(Initial, a, b);
    OneWordWritten();
    SweeperErrorDrops(WordWritten);
    AgentFinishesNothing(Run(WordWritten, b));
    assert ClampText([0x41]).0 == [0x41];
  }

  const WordWritten := Started.(made := true, buffer := Some([0x41]), accepted := [0x41])

  lemma OneWordWritten()
    ensures Run(Initial, OneWord) == WordWritten
  {
    RunFour(Initial, Create(1), Open, Append(1, [0x41]), Lapse);
    FirstWord(Started.(made := true, buffer := Some([])));
  }

  // So does the buffer's own expiry.
  lemma LapseLosesText()
    ensures !Whole(Run(Initial, OneWord + [Lapse] + AgentEnds))
  {
    RunConcat(Initial, OneWord + [Lapse], AgentEnds);
    RunConcat(Initial, OneWord, [Lapse]);
    OneWordWritten();
    var s := WordWritten.(buffer := None);
    assert Run(WordWritten, [Lapse]) == s;
    AgentFinishesNothing(s);
    assert ClampText([0x41]).0 == [0x41];
  }

  lemma SweeperErrorDrops(s: State)
    requires s.calls == map[] && Owns(s, 1)
    ensures Run(s, [Begin(0, 1, EndedByHub, []), Fail(0), Drop(0)])
            == Put(s, 0, Call(1, EndedByHub, [], Refused)).(buffer := None)
  {
    var c := Call(1, EndedByHub, [], Reading);
    RunFour(s, Begin(0, 1, EndedByHub, []), Fail(0), Drop(0), Lapse);
    PutPut(s, 0, c, c.(phase := Dropping));
    PutPut(s, 0, c.(phase := Dropping), c.(phase := Refused));
    assert FailCall(Put(s, 0, c), 0) == Put(s, 0, c.(phase := Dropping));
  }

  lemma AgentFinishesNothing(s: State)
    requires Owns(s, 1) && s.row.value.streaming && s.buffer.None? && 1 !in s.calls && s.agents == []
    ensures var t := Run(s, [Begin(1, 1, EndedByAgent, []), Read(1), Commit(1)]);
            && t.accepted == s.accepted
            && t.wins == s.wins + [Win(EndedByAgent, [], [], s.accepted, false, [])]
            && t.row == Some(Row(1, false, Body([], [], None), false, false))
  {
    var c := Call(1, EndedByAgent, [], Reading);
    RunFour(s, Begin(1, 1, EndedByAgent, []), Read(1), Commit(1), Lapse);
    PutPut(s, 1, c, c.(phase := Writing([], s.accepted, false)));
    assert ReadBuffer(Put(s, 1, c), 1) == Put(s, 1, c.(phase := Writing([], s.accepted, false)));
    assert Others([], 1) == [];
  }

  // ---- Why an append was refused ----------------------------------------

  datatype Code = Stopped | NotStreamingCode

  function WhyNotStreaming(s: State, agent: Id): Code {
    if s.row.Some? && s.row.value.stopped && s.row.value.agent == agent then Stopped else NotStreamingCode
  }

  // The agent is told its reply was stopped exactly when a person's stop is
  // what completed it.
  lemma ToldStopped(steps: seq<Step>, agent: Id)
    ensures var s := Run(Initial, steps);
            WhyNotStreaming(s, agent) == Stopped <==>
            (Owns(s, agent) && s.wins != [] && s.wins[0].end == EndedByPerson)
  {
    StoppedNeedsWin(Initial, steps);
    RunKeepsInv(Initial, steps);
  }

  lemma StoppedStep(s: State, step: Step)
    requires Inv(s) && (s.row.Some? && s.wins == [] ==> !s.row.value.stopped)
    ensures var t := Next(s, step); t.row.Some? && t.wins == [] ==> !t.row.value.stopped
  {
  }

  lemma {:induction false} StoppedNeedsWin(s: State, steps: seq<Step>)
    requires Inv(s) && (s.row.Some? && s.wins == [] ==> !s.row.value.stopped)
    ensures var t := Run(s, steps); t.row.Some? && t.wins == [] ==> !t.row.value.stopped
    decreases |steps|
  {
    if steps != [] {
      StepKeepsInv(s, steps[0]);
      StoppedStep(s, steps[0]);
      StoppedNeedsWin(Next(s, steps[0]), steps[1..]);
    }
  }
}
