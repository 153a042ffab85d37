// Events over an agent's socket, end to end: the hub's outbox
// (server/internal/delivery/delivery.go, server/internal/api/agentapi/socket.go)
// and the Python agent that handles and acknowledges them
// (sdk/python/cuckoo/agent.py).
module AgentSocket {
  import opened Wrappers

  type EventId = nat
  type TaskId = nat
  type Chat = nat

  const REMEMBER: nat := 1000

  datatype Kind = Message(chat: Chat) | Joined | ScheduleChange | StopRequested(chat: Chat) | Other

  // Which handlers the agent registered; the one for messages always is.
  datatype Handlers = Handlers(join: bool, schedule: bool, stop: bool)

  datatype Status = Pending | Delivered | Failed

  // How the handling of an event ended. `Raised` is any exception, including
  // a cancellation that no person asked for. A person's stop ends a message's
  // handler in two ways: it is cancelled, or the hub refuses a reply it is
  // writing, in whichever conversation that is, because the reply was
  // stopped. `NoHandler` is an event received that nobody handles.
  datatype Ending = Completed | StoppedError(chat: Chat) | Cancelled | NoHandler | Raised

  // A task handles one pushed event for the connection it came on. A running
  // one is flagged when a person stops its conversation.
  datatype Phase = Fresh | Running(flagged: bool) | Acking

  datatype Task = Task(event: EventId, connection: nat, phase: Phase)

  // The conversations a person has pressed stop in, the hub's rows, what is in
  // flight each way, and the agent's memory and tasks. `ended` remembers how
  // handling ended, every time it did.
  datatype State = State(
    stops: set<Chat>,
    kinds: map<EventId, Kind>,
    status: map<EventId, Status>,
    leased: set<EventId>,
    connection: nat,
    connected: bool,
    pushed: multiset<EventId>,
    acks: multiset<EventId>,
    seen: seq<EventId>,
    tasks: map<TaskId, Task>,
    ended: set<(EventId, Ending)>)

  datatype Step =
    | PressStop(chat: Chat)
    | Append(e: EventId, kind: Kind)
    | Push(e: EventId)
    | LeaseEnds(e: EventId)
    | Receive(e: EventId, t: TaskId)
    | Begin(t: TaskId)
    | End(t: TaskId, ending: Ending)
    | SendAck(t: TaskId)
    | TakeAck(e: EventId, ok: bool)
    | Fail(e: EventId)
    | Disconnect(read: multiset<EventId>)
    | Connect
    | Restart(read: multiset<EventId>)

  const Start := State({}, map[], map[], {}, 0, false, multiset{}, multiset{}, [], map[], {})

  // ----- The agent's memory of events -----

  // What the ids remembered are after one more: an id already there keeps its
  // place, a new one is the newest, and past the limit the oldest goes.
  function Remembered(seen: seq<EventId>, e: EventId): seq<EventId> {
    var longer := if e in seen then seen else seen + [e];
    if |longer| > REMEMBER then longer[|longer| - REMEMBER..] else longer
  }

  function RememberAll(seen: seq<EventId>, es: seq<EventId>): seq<EventId>
    decreases |es|
  {
    if es == [] then seen else RememberAll(Remembered(seen, es[0]), es[1..])
  }

  predicate GoodMemory(seen: seq<EventId>) {
    Distinct(seen) && |seen| <= REMEMBER
  }

  lemma RememberedStaysGood(seen: seq<EventId>, e: EventId)
    requires GoodMemory(seen)
    ensures GoodMemory(Remembered(seen, e))
    ensures e in Remembered(seen, e)
    ensures forall x <- Remembered(seen, e) :: x in seen || x == e
  {
    var after := Remembered(seen, e);
    if e !in seen {
      assert after[|after| - 1] == e;
    }
  }

  // An id is forgotten only under the weight of newer ones: with `newer` ids
  // already after it, it outlasts any 999 - newer more.
  lemma {:induction false} OutlastsTheNext(seen: seq<EventId>, i: nat, es: seq<EventId>)
    requires GoodMemory(seen) && i < |seen| && |seen| - i + |es| <= 1000
    ensures seen[i] in RememberAll(seen, es)
    decreases |es|
  {
    if es != [] {
      var after := Remembered(seen, es[0]);
      RememberedStaysGood(seen, es[0]);
      var j := i - (|seen| + (if es[0] in seen then 0 else 1) - |after|);
      assert after[j] == seen[i];
      OutlastsTheNext(after, j, es[1..]);
    }
  }

  // So a new id outlasts the next 999; but remembering an id again while it
  // is known does not make it new: its place stays, and one more id may push
  // it out.
  lemma RememberingAgainIsNotRefreshing(seen: seq<EventId>, e: EventId, other: EventId)
    requires GoodMemory(seen) && |seen| == 1000 && seen[0] == e && other !in seen
    ensures e !in Remembered(Remembered(seen, e), other)
  {
    var longer := seen + [other];
    assert longer[|longer| - REMEMBER..] == seen[1..] + [other];
  }

  // ----- Steps of the hub -----

  // A row for the agent. A stop ends the replies first and asks the agent to
  // stop after.
  function OnAppend(s: State, e: EventId, kind: Kind): State {
    if e in s.kinds || (kind.StopRequested? && kind.chat !in s.stops) then s
    else s.(kinds := s.kinds[e := kind], status := s.status[e := Pending])
  }

  // A due row, leased to the socket and pushed; an event not acknowledged
  // comes due again.
  function OnPush(s: State, e: EventId): State {
    if s.connected && e in s.status && s.status[e] == Pending && e !in s.leased
    then s.(leased := s.leased + {e}, pushed := s.pushed + multiset{e})
    else s
  }

  // An acknowledgement reaches the hub: it matches only a pending row.
  function OnTakeAck(s: State, e: EventId, ok: bool): State {
    if e !in s.acks then s
    else
      var after := s.(acks := s.acks - multiset{e});
      if ok && e in s.status && s.status[e] == Pending then after.(status := s.status[e := Delivered]) else after
  }

  function OnFail(s: State, e: EventId): State {
    if e in s.status && s.status[e] == Pending then s.(status := s.status[e := Failed]) else s
  }

  // The connection breaks. What was pushed and not received is lost, and so
  // is every acknowledgement but those the hub had read by then.
  function OnDisconnect(s: State, read: multiset<EventId>): State {
    s.(connected := false, pushed := multiset{}, acks := s.acks * read)
  }

  function OnConnect(s: State): State {
    OnDisconnect(s, s.acks).(connected := true, connection := s.connection + 1)
  }

  // The agent's process starts over: it remembers nothing.
  function OnRestart(s: State, read: multiset<EventId>): State {
    OnDisconnect(s, read).(seen := [], tasks := map[])
  }

  // ----- Steps of the agent -----

  function OnReceive(s: State, e: EventId, t: TaskId): State {
    if e !in s.pushed || t in s.tasks then s
    else s.(pushed := s.pushed - multiset{e}, tasks := s.tasks[t := Task(e, s.connection, Fresh)])
  }

  predicate HasHandler(h: Handlers, kind: Kind) {
    match kind
    case Message(_) => true
    case Joined => h.join
    case ScheduleChange => h.schedule
    case StopRequested(_) => h.stop
    case Other => false
  }

  // ----- The agent object -----

  // Whether an event is done with once its handler, if it has one, has ended
  // so. Of a message's, a completed one and one a person stopped; of any
  // other's, only a completed one. Anything else is left to the hub to send
  // again.
  predicate DoneWith(h: Handlers, kind: Kind, ending: Ending, flagged: bool) {
    || !HasHandler(h, kind)
    || ending == Completed
    || (kind.Message? && (ending.StoppedError? || (ending == Cancelled && flagged)))
  }

  // Its two bounded memories, and the message handlers running, with a flag
  // for those a person has stopped.
  class Agent {
    var seen: seq<EventId>
    var stopped: seq<nat>
    var running: map<Chat, map<TaskId, bool>>

    constructor ()
      ensures seen == [] && stopped == [] && running == map[]
    {
      seen, stopped, running := [], [], map[];
    }

    method Remember(e: EventId)
      modifies this`seen
      ensures seen == Remembered(old(seen), e)
    {
      if e !in seen {
        seen := seen + [e];
      }
      ghost var longer := seen;
      while |seen| > REMEMBER
        invariant |seen| <= |longer| && seen == longer[|longer| - |seen|..]
        invariant |seen| >= REMEMBER || seen == longer
      {
        seen := seen[1..];
      }
    }

    method MarkStopped(message: nat)
      modifies this`stopped
      ensures stopped == Remembered(old(stopped), message)
    {
      if message !in stopped {
        stopped := stopped + [message];
      }
      ghost var longer := stopped;
      while |stopped| > REMEMBER
        invariant |stopped| <= |longer| && stopped == longer[|longer| - |stopped|..]
        invariant |stopped| >= REMEMBER || stopped == longer
      {
        stopped := stopped[1..];
      }
    }

    // A person's stop: every handler running for the conversation is flagged
    // and cancelled, no other conversation's is.
    method StopRunning(chat: Chat) returns (cancelled: set<TaskId>)
      modifies this`running
      ensures chat !in old(running) ==> cancelled == {} && running == old(running)
      ensures chat in old(running) ==>
                && cancelled == old(running)[chat].Keys
                && running.Keys == old(running).Keys && running[chat].Keys == old(running)[chat].Keys
                && forall t <- running[chat] :: running[chat][t]
      ensures forall c <- old(running) :: c != chat ==> c in running && running[c] == old(running)[c]
    {
      cancelled := {};
      if chat !in running {
        return;
      }
      ghost var was := running;
      var todo := running[chat].Keys;
      while todo != {}
        invariant todo <= was[chat].Keys && cancelled == was[chat].Keys - todo
        invariant running.Keys == was.Keys && forall c <- was :: c != chat ==> running[c] == was[c]
        invariant running[chat].Keys == was[chat].Keys
        invariant forall t <- was[chat] :: running[chat][t] == if t in cancelled then true else was[chat][t]
      {
        var t: TaskId :| t in todo;
        var flags: map<TaskId, bool> := running[chat][t := true];
        running := running[chat := flags];
        cancelled := cancelled + {t};
        todo := todo - {t};
      }
    }

    // One event, and how its handler ends if it is called: remembered and
    // acknowledged, or neither. An event already remembered is acknowledged
    // without a handler.
    method Handle(h: Handlers, e: EventId, kind: Kind, ending: Ending, flagged: bool) returns (acked: bool)
      modifies this`seen
      ensures acked <==>
                || e in old(seen)
                || ending == Completed
                || (match kind
                    case Message(_) => ending.StoppedError? || (ending == Cancelled && flagged)
                    case Joined => !h.join
                    case ScheduleChange => !h.schedule
                    case StopRequested(_) => !h.stop
                    case Other => true)
      ensures seen == if acked && e !in old(seen) then Remembered(old(seen), e) else old(seen)
    {
      if e in seen {
        return true;
      }
      if kind.Joined? && h.join {
        if ending != Completed {
          return false;
        }
        Remember(e);
        return true;
      }
      if kind.ScheduleChange? && h.schedule {
        if ending != Completed {
          return false;
        }
        Remember(e);
        return true;
      }
      if kind.StopRequested? {
        if h.stop && ending != Completed {
          return false;
        }
        Remember(e);
        return true;
      }
      if !kind.Message? {
        Remember(e);
        return true;
      }
      if ending == Raised || ending == NoHandler || (ending == Cancelled && !flagged) {
        return false;
      }
      Remember(e);
      return true;
    }
  }

  // Remember, then acknowledge.
  function Settle(s: State, t: TaskId, ending: Ending): State
    requires t in s.tasks
  {
    var task := s.tasks[t];
    s.(seen := Remembered(s.seen, task.event), tasks := s.tasks[t := task.(phase := Acking)],
       ended := s.ended + {(task.event, ending)})
  }

  // A stop flags, and cancels, every handler running for a message of that
  // conversation.
  function Flag(tasks: map<TaskId, Task>, kinds: map<EventId, Kind>, chat: Chat): map<TaskId, Task> {
    map t | t in tasks ::
      if tasks[t].phase.Running? && tasks[t].event in kinds && kinds[tasks[t].event] == Message(chat)
      then tasks[t].(phase := Running(true)) else tasks[t]
  }

  function OnBegin(h: Handlers, s: State, t: TaskId): State {
    if t !in s.tasks || s.tasks[t].phase != Fresh || s.tasks[t].event !in s.kinds then s
    else
      var task := s.tasks[t];
      var kind := s.kinds[task.event];
      if task.event in s.seen then s.(tasks := s.tasks[t := task.(phase := Acking)])
      else
        var after := if kind.StopRequested? then s.(tasks := Flag(s.tasks, s.kinds, kind.chat)) else s;
        if HasHandler(h, kind) then after.(tasks := after.tasks[t := task.(phase := Running(false))])
        else Settle(after, t, NoHandler)
  }

  // A handler ends. The hub refuses a reply as stopped only once a person has
  // pressed stop in its conversation.
  function OnEnd(h: Handlers, s: State, t: TaskId, ending: Ending): State {
    if t !in s.tasks || !s.tasks[t].phase.Running? || s.tasks[t].event !in s.kinds then s
    else if ending.StoppedError? && ending.chat !in s.stops then s
    else
      var task := s.tasks[t];
      if ending != NoHandler && DoneWith(h, s.kinds[task.event], ending, task.phase.flagged)
      then Settle(s, t, ending)
      else s.(tasks := s.tasks - {t}, ended := s.ended + {(task.event, Raised)})
  }

  // The acknowledgement goes out on the connection the event came on, or is
  // lost with it.
  function OnSendAck(s: State, t: TaskId): State {
    if t !in s.tasks || s.tasks[t].phase != Acking then s
    else
      var task := s.tasks[t];
      var after := s.(tasks := s.tasks - {t});
      if s.connected && task.connection == s.connection then after.(acks := s.acks + multiset{task.event}) else after
  }

  function Next(h: Handlers, s: State, step: Step): State {
    match step
    case PressStop(chat) => s.(stops := s.stops + {chat})
    case Append(e, kind) => OnAppend(s, e, kind)
    case Push(e) => OnPush(s, e)
    case LeaseEnds(e) => s.(leased := s.leased - {e})
    case Receive(e, t) => OnReceive(s, e, t)
    case Begin(t) => OnBegin(h, s, t)
    case End(t, ending) => OnEnd(h, s, t, ending)
    case SendAck(t) => OnSendAck(s, t)
    case TakeAck(e, ok) => OnTakeAck(s, e, ok)
    case Fail(e) => OnFail(s, e)
    case Disconnect(read) => OnDisconnect(s, read)
    case Connect => OnConnect(s)
    case Restart(read) => OnRestart(s, read)
  }

  function Run(h: Handlers, s: State, steps: seq<Step>): State
    decreases |steps|
  {
    if steps == [] then s else Run(h, Next(h, s, steps[0]), steps[1..])
  }

  // ----- What every step keeps -----

  // What each ending means for the event it ends.
  predicate Meant(h: Handlers, kinds: map<EventId, Kind>, stops: set<Chat>, e: EventId, ending: Ending) {
    && e in kinds
    && match ending
       case Completed => HasHandler(h, kinds[e])
       case StoppedError(chat) => kinds[e].Message? && chat in stops
       case Cancelled => kinds[e].Message? && kinds[e].chat in stops
       case NoHandler => !HasHandler(h, kinds[e])
       case Raised => true
  }

  // Its handler completed, or was stopped by a person, or there is none.
  ghost predicate Handled(ended: set<(EventId, Ending)>, e: EventId) {
    exists p <- ended :: p.0 == e && p.1 != Raised
  }

  ghost predicate TaskSound(h: Handlers, kinds: map<EventId, Kind>, stops: set<Chat>,
                            ended: set<(EventId, Ending)>, task: Task)
  {
    && task.event in kinds
    && (task.phase.Acking? ==> Handled(ended, task.event))
    && (task.phase.Running? ==> HasHandler(h, kinds[task.event]))
    && (task.phase.Running? && task.phase.flagged ==>
          kinds[task.event].Message? && kinds[task.event].chat in stops)
  }

  ghost predicate Inv(h: Handlers, s: State) {
    && s.kinds.Keys == s.status.Keys
    && (forall e <- s.pushed :: e in s.kinds)
    && (forall t <- s.tasks :: TaskSound(h, s.kinds, s.stops, s.ended, s.tasks[t]))
    && GoodMemory(s.seen)
    && (forall e <- s.seen :: Handled(s.ended, e))
    && (forall e <- s.acks :: Handled(s.ended, e))
    && (forall e <- s.status :: s.status[e] == Delivered ==> Handled(s.ended, e))
    && (forall p <- s.ended :: Meant(h, s.kinds, s.stops, p.0, p.1))
    && (forall e <- s.kinds :: s.kinds[e].StopRequested? ==> s.kinds[e].chat in s.stops)
  }

  // More events and more stops unsettle nothing.
  ghost predicate Grown(s: State, after: State) {
    && after == s.(kinds := after.kinds, stops := after.stops, status := after.status)
    && s.kinds.Keys <= after.kinds.Keys && (forall e <- s.kinds :: after.kinds[e] == s.kinds[e])
    && s.stops <= after.stops
    && after.kinds.Keys == after.status.Keys
    && (forall e <- after.status :: after.status[e] == Delivered ==> e in s.status && s.status[e] == Delivered)
    && (forall e <- after.kinds :: after.kinds[e].StopRequested? ==> after.kinds[e].chat in after.stops)
  }

  lemma GrownKeepsInv(h: Handlers, s: State, after: State)
    requires Inv(h, s) && Grown(s, after)
    ensures Inv(h, after)
  {
    forall t <- s.tasks ensures TaskSound(h, after.kinds, after.stops, after.ended, s.tasks[t]) {
      assert TaskSound(h, s.kinds, s.stops, s.ended, s.tasks[t]);
    }
    forall p <- s.ended ensures Meant(h, after.kinds, after.stops, p.0, p.1) {
      assert Meant(h, s.kinds, s.stops, p.0, p.1);
    }
  }

  lemma AppendGrows(s: State, e: EventId, kind: Kind)
    requires s.kinds.Keys == s.status.Keys
    requires forall x <- s.kinds :: s.kinds[x].StopRequested? ==> s.kinds[x].chat in s.stops
    ensures Grown(s, OnAppend(s, e, kind))
  {
  }

  lemma AppendKeepsInv(h: Handlers, s: State, e: EventId, kind: Kind)
    requires Inv(h, s)
    ensures Inv(h, OnAppend(s, e, kind))
  {
    AppendGrows(s, e, kind);
    GrownKeepsInv(h, s, OnAppend(s, e, kind));
  }

  lemma PressStopKeepsInv(h: Handlers, s: State, chat: Chat)
    requires Inv(h, s)
    ensures Inv(h, s.(stops := s.stops + {chat}))
  {
    GrownKeepsInv(h, s, s.(stops := s.stops + {chat}));
  }

  lemma SettleKeepsInv(h: Handlers, s: State, t: TaskId, ending: Ending)
    requires Inv(h, s) && t in s.tasks && ending != Raised && Meant(h, s.kinds, s.stops, s.tasks[t].event, ending)
    ensures Inv(h, Settle(s, t, ending))
  {
    var after := Settle(s, t, ending);
    RememberedStaysGood(s.seen, s.tasks[t].event);
    assert Handled(after.ended, s.tasks[t].event);
    forall e | Handled(s.ended, e) ensures Handled(after.ended, e) {
    }
    forall x <- after.tasks ensures TaskSound(h, after.kinds, after.stops, after.ended, after.tasks[x]) {
      assert TaskSound(h, s.kinds, s.stops, s.ended, s.tasks[x]);
    }
  }

  lemma FlagKeepsInv(h: Handlers, s: State, chat: Chat)
    requires Inv(h, s) && chat in s.stops
    ensures Inv(h, s.(tasks := Flag(s.tasks, s.kinds, chat)))
  {
    var after := s.(tasks := Flag(s.tasks, s.kinds, chat));
    forall t <- after.tasks ensures TaskSound(h, after.kinds, after.stops, after.ended, after.tasks[t]) {
      assert TaskSound(h, s.kinds, s.stops, s.ended, s.tasks[t]);
    }
  }

  lemma PhaseKeepsInv(h: Handlers, s: State, t: TaskId, task: Task)
    requires Inv(h, s) && TaskSound(h, s.kinds, s.stops, s.ended, task)
    ensures Inv(h, s.(tasks := s.tasks[t := task]))
  {
    var after := s.(tasks := s.tasks[t := task]);
    forall x <- after.tasks ensures TaskSound(h, after.kinds, after.stops, after.ended, after.tasks[x]) {
      if x != t { assert TaskSound(h, s.kinds, s.stops, s.ended, s.tasks[x]); }
    }
  }

  lemma BeginKeepsInv(h: Handlers, s: State, t: TaskId)
    requires Inv(h, s)
    ensures Inv(h, OnBegin(h, s, t))
  {
    if t in s.tasks && s.tasks[t].phase == Fresh {
      var task := s.tasks[t];
      assert TaskSound(h, s.kinds, s.stops, s.ended, task);
      var kind := s.kinds[task.event];
      if task.event in s.seen {
        PhaseKeepsInv(h, s, t, task.(phase := Acking));
      } else {
        var after := if kind.StopRequested? then s.(tasks := Flag(s.tasks, s.kinds, kind.chat)) else s;
        if kind.StopRequested? {
          FlagKeepsInv(h, s, kind.chat);
        }
        if HasHandler(h, kind) {
          PhaseKeepsInv(h, after, t, task.(phase := Running(false)));
        } else {
          SettleKeepsInv(h, after, t, NoHandler);
        }
      }
    }
  }

  lemma EndKeepsInv(h: Handlers, s: State, t: TaskId, ending: Ending)
    requires Inv(h, s)
    ensures Inv(h, OnEnd(h, s, t, ending))
  {
    if t in s.tasks && s.tasks[t].phase.Running? && (ending.StoppedError? ==> ending.chat in s.stops) {
      var task := s.tasks[t];
      assert TaskSound(h, s.kinds, s.stops, s.ended, task);
      if ending != NoHandler && DoneWith(h, s.kinds[task.event], ending, task.phase.flagged) {
        SettleKeepsInv(h, s, t, ending);
      } else {
        var after := OnEnd(h, s, t, ending);
        forall x <- after.tasks ensures TaskSound(h, after.kinds, after.stops, after.ended, after.tasks[x]) {
          assert TaskSound(h, s.kinds, s.stops, s.ended, s.tasks[x]);
        }
      }
    }
  }

  lemma SendAckKeepsInv(h: Handlers, s: State, t: TaskId)
    requires Inv(h, s)
    ensures Inv(h, OnSendAck(s, t))
  {
    var after := OnSendAck(s, t);
    forall x <- after.tasks ensures TaskSound(h, after.kinds, after.stops, after.ended, after.tasks[x]) {
      assert TaskSound(h, s.kinds, s.stops, s.ended, s.tasks[x]);
    }
  }

  // Steps that leave what the agent knows and does alone.
  ghost predicate Frames(s: State, after: State) {
    && after.stops == s.stops && after.kinds == s.kinds && after.seen == s.seen
    && after.tasks == s.tasks && after.ended == s.ended
    && after.status.Keys == s.status.Keys
    && (forall e <- after.pushed :: e in s.pushed || e in s.status)
    && (forall e <- after.acks :: e in s.acks)
    && (forall e <- after.status :: after.status[e] == Delivered ==> s.status[e] == Delivered || e in s.acks)
  }

  lemma FramedInv(h: Handlers, s: State, after: State)
    requires Inv(h, s) && Frames(s, after)
    ensures Inv(h, after)
  {
  }

  lemma ReceiveKeepsInv(h: Handlers, s: State, e: EventId, t: TaskId)
    requires Inv(h, s)
    ensures Inv(h, OnReceive(s, e, t))
  {
    if e in s.pushed && t !in s.tasks {
      PhaseKeepsInv(h, s, t, Task(e, s.connection, Fresh));
      FramedInv(h, s.(tasks := s.tasks[t := Task(e, s.connection, Fresh)]), OnReceive(s, e, t));
    }
  }

  lemma RestartKeepsInv(h: Handlers, s: State, read: multiset<EventId>)
    requires Inv(h, s)
    ensures Inv(h, OnRestart(s, read))
  {
    var after := OnRestart(s, read);
    forall e | Handled(s.ended, e) ensures Handled(after.ended, e) {
    }
    forall p <- after.ended ensures Meant(h, after.kinds, after.stops, p.0, p.1) {
      assert Meant(h, s.kinds, s.stops, p.0, p.1);
    }
  }

  lemma FewerAcks(s: State, e: EventId)
    ensures Frames(s, s.(acks := s.acks - multiset{e}))
  {
  }

  lemma AckedFrames(s: State, e: EventId)
    requires e in s.acks && e in s.status
    ensures Frames(s, s.(acks := s.acks - multiset{e}, status := s.status[e := Delivered]))
  {
  }

  lemma TakeAckFrames(s: State, e: EventId, ok: bool)
    ensures Frames(s, OnTakeAck(s, e, ok))
  {
    if e in s.acks {
      if ok && e in s.status && s.status[e] == Pending {
        AckedFrames(s, e);
      } else {
        FewerAcks(s, e);
      }
    }
  }

  lemma PushFrames(s: State, e: EventId)
    ensures Frames(s, OnPush(s, e))
  {
  }

  lemma OtherFrames(h: Handlers, s: State, step: Step)
    requires step.LeaseEnds? || step.Fail? || step.Disconnect? || step.Connect?
    ensures Frames(s, Next(h, s, step))
  {
  }

  lemma {:induction false} RunKeepsInv(h: Handlers, s: State, steps: seq<Step>)
    requires Inv(h, s)
    ensures Inv(h, Run(h, s, steps))
    decreases |steps|
  {
    if steps != [] {
      var step := steps[0];
      if step.PressStop? {
        PressStopKeepsInv(h, s, step.chat);
      } else if step.Append? {
        AppendKeepsInv(h, s, step.e, step.kind);
      } else if step.Begin? {
        BeginKeepsInv(h, s, step.t);
      } else if step.End? {
        EndKeepsInv(h, s, step.t, step.ending);
      } else if step.SendAck? {
        SendAckKeepsInv(h, s, step.t);
      } else if step.Receive? {
        ReceiveKeepsInv(h, s, step.e, step.t);
      } else if step.Restart? {
        RestartKeepsInv(h, s, step.read);
      } else {
        if step.TakeAck? {
          TakeAckFrames(s, step.e, step.ok);
        } else if step.Push? {
          PushFrames(s, step.e);
        } else {
          OtherFrames(h, s, step);
        }
        FramedInv(h, s, Next(h, s, step));
      }
      RunKeepsInv(h, Next(h, s, step), steps[1..]);
    }
  }

  // ----- Delivered means handled -----

  // However pushes, lost leases, reconnects, restarts, handler failures and
  // acknowledgements fall, an event the hub has marked delivered either had a
  // handler complete for it; or is a message whose handler a person's stop
  // ended, by cancelling it after a stop in its own conversation, or by the
  // hub refusing what it wrote to a conversation in which somebody had
  // pressed stop; or is of a kind this agent handles not at all.
  lemma DeliveredMeansHandled(h: Handlers, steps: seq<Step>, e: EventId)
    requires var s := Run(h, Start, steps); e in s.status && s.status[e] == Delivered
    ensures var s := Run(h, Start, steps);
            && e in s.kinds
            && (|| ((e, Completed) in s.ended && HasHandler(h, s.kinds[e]))
                || (s.kinds[e].Message? && exists chat <- s.stops :: (e, StoppedError(chat)) in s.ended)
                || ((e, Cancelled) in s.ended && s.kinds[e].Message? && s.kinds[e].chat in s.stops)
                || !HasHandler(h, s.kinds[e]))
  {
    RunKeepsInv(h, Start, steps);
    var s := Run(h, Start, steps);
    assert Handled(s.ended, e);
    var p :| p in s.ended && p.0 == e && p.1 != Raised;
    assert Meant(h, s.kinds, s.stops, p.0, p.1);
    assert p == (e, p.1);
  }

  // An event all of whose handlers failed is not marked delivered, nor does
  // the agent claim to have seen it.
  lemma FailuresStayPending(h: Handlers, steps: seq<Step>, e: EventId)
    requires var s := Run(h, Start, steps); forall p <- s.ended :: p.0 == e ==> p.1 == Raised
    ensures var s := Run(h, Start, steps);
            e !in s.seen && e !in s.acks && (e in s.status ==> s.status[e] != Delivered)
  {
    RunKeepsInv(h, Start, steps);
    var s := Run(h, Start, steps);
    assert !Handled(s.ended, e);
  }

  // ----- What each event comes to -----

  // An event the agent remembers is acknowledged and no handler is called
  // again; of any other, the handler for its kind is called if there is one,
  // and it is remembered and acknowledged at once if there is none.
  lemma BeginDecides(h: Handlers, s: State, t: TaskId)
    requires t in s.tasks && s.tasks[t].phase == Fresh && s.tasks[t].event in s.kinds
    requires GoodMemory(s.seen)
    ensures var e, after := s.tasks[t].event, Next(h, s, Begin(t));
            var called := match s.kinds[e]
                          case Message(_) => true
                          case Joined => h.join
                          case ScheduleChange => h.schedule
                          case StopRequested(_) => h.stop
                          case Other => false;
            && t in after.tasks && after.tasks[t].event == e
            && (e in s.seen ==> after == s.(tasks := s.tasks[t := s.tasks[t].(phase := Acking)]))
            && (e !in s.seen && called ==>
                  after.tasks[t].phase == Running(false) && after.seen == s.seen && after.ended == s.ended)
            && (e !in s.seen && !called ==>
                  after.tasks[t].phase == Acking && e in after.seen && after.ended == s.ended + {(e, NoHandler)})
  {
    RememberedStaysGood(s.seen, s.tasks[t].event);
  }

  // A stop the agent has not seen flags every handler running for a message
  // of its conversation, and no other task.
  lemma StopFlagsAll(h: Handlers, s: State, t: TaskId, x: TaskId)
    requires t in s.tasks && x in s.tasks && x != t && s.tasks[t].phase == Fresh
    requires s.tasks[t].event in s.kinds && s.tasks[x].event in s.kinds && s.tasks[t].event !in s.seen
    ensures var after := Next(h, s, Begin(t));
            var kind, task := s.kinds[s.tasks[t].event], s.tasks[x];
            && x in after.tasks
            && after.tasks[x] ==
               if kind.StopRequested? && task.phase.Running? && s.kinds[task.event] == Message(kind.chat)
               then task.(phase := Running(true)) else task
  {
  }

  // A handler that ends leaves its event done with, remembered and about to
  // be acknowledged, exactly when it completed or, for a message, a person's
  // stop ended it; otherwise the agent is as if it had never begun.
  lemma EndDecides(h: Handlers, steps: seq<Step>, t: TaskId, ending: Ending)
    requires var s := Run(h, Start, steps);
             && t in s.tasks && s.tasks[t].phase.Running?
             && (ending.StoppedError? ==> ending.chat in s.stops)
    ensures var s := Run(h, Start, steps);
            var task, after := s.tasks[t], Next(h, s, End(t, ending));
            var e := task.event;
            && e in s.kinds
            && var stopped := ending.StoppedError? || (ending == Cancelled && task.phase.flagged);
               if ending == Completed || (s.kinds[e].Message? && stopped)
               then && e in after.seen && (e, ending) in after.ended
                    && after.tasks == s.tasks[t := task.(phase := Acking)]
               else && after.seen == s.seen && after.tasks == s.tasks - {t}
                    && after.ended == s.ended + {(e, Raised)}
  {
    RunKeepsInv(h, Start, steps);
    var s := Run(h, Start, steps);
    assert TaskSound(h, s.kinds, s.stops, s.ended, s.tasks[t]);
    EndsSo(h, s, t, ending);
  }

  lemma EndsSo(h: Handlers, s: State, t: TaskId, ending: Ending)
    requires t in s.tasks && s.tasks[t].phase.Running? && (ending.StoppedError? ==> ending.chat in s.stops)
    requires s.tasks[t].event in s.kinds && HasHandler(h, s.kinds[s.tasks[t].event]) && GoodMemory(s.seen)
    ensures var task, after := s.tasks[t], OnEnd(h, s, t, ending);
            var e := task.event;
            var stopped := ending.StoppedError? || (ending == Cancelled && task.phase.flagged);
            if ending == Completed || (s.kinds[e].Message? && stopped)
            then && e in after.seen && (e, ending) in after.ended
                 && after.tasks == s.tasks[t := task.(phase := Acking)]
            else && after.seen == s.seen && after.tasks == s.tasks - {t}
                 && after.ended == s.ended + {(e, Raised)}
  {
    RememberedStaysGood(s.seen, s.tasks[t].event);
  }

  // So work a person stopped is over: its event is remembered, and its
  // acknowledgement, unless the connection breaks, makes it delivered.
  lemma StoppedWorkIsOver(h: Handlers, steps: seq<Step>, t: TaskId, ending: Ending)
    requires var s := Run(h, Start, steps);
             && t in s.tasks && s.tasks[t].phase.Running?
             && s.tasks[t].event in s.kinds && s.kinds[s.tasks[t].event].Message?
             && (|| (ending == Cancelled && s.tasks[t].phase.flagged)
                 || (ending.StoppedError? && ending.chat in s.stops))
             && s.connected && s.tasks[t].connection == s.connection
    ensures var s := Run(h, Start, steps);
            var e := s.tasks[t].event;
            var after := Run(h, s, [End(t, ending), SendAck(t), TakeAck(e, true)]);
            && e in after.seen && e in after.status && after.status[e] != Pending
            && (e in s.status && s.status[e] == Pending ==> after.status[e] == Delivered)
  {
    RunKeepsInv(h, Start, steps);
    var s := Run(h, Start, steps);
    var e := s.tasks[t].event;
    EndDecides(h, steps, t, ending);
    RunThree(h, s, End(t, ending), SendAck(t), TakeAck(e, true));
    AckTaken(h, Next(h, s, End(t, ending)), t);
  }

  lemma AckTaken(h: Handlers, s: State, t: TaskId)
    requires t in s.tasks && s.tasks[t].phase == Acking && s.connected && s.tasks[t].connection == s.connection
    requires s.tasks[t].event in s.status
    ensures var e := s.tasks[t].event;
            var after := Next(h, Next(h, s, SendAck(t)), TakeAck(e, true));
            && after.seen == s.seen && e in after.status
            && after.status[e] == if s.status[e] == Pending then Delivered else s.status[e]
  {
  }

  // An acknowledgement sent on a connection that has gone is lost.
  lemma LateAckIsLost(h: Handlers, s: State, t: TaskId)
    requires t in s.tasks && s.tasks[t].phase == Acking && !(s.connected && s.tasks[t].connection == s.connection)
    ensures Next(h, s, SendAck(t)) == s.(tasks := s.tasks - {t})
  {
  }

  // ----- Leases -----

  // How often a run pushes an event, and how often its lease runs out.
  function Pushes(h: Handlers, s: State, steps: seq<Step>, e: EventId): nat
    decreases |steps|
  {
    if steps == [] then 0
    else (if steps[0] == Push(e) && Next(h, s, steps[0]).pushed != s.pushed then 1 else 0)
         + Pushes(h, Next(h, s, steps[0]), steps[1..], e)
  }

  function LeaseEndings(steps: seq<Step>, e: EventId): nat
    decreases |steps|
  {
    if steps == [] then 0 else (if steps[0] == LeaseEnds(e) then 1 else 0) + LeaseEndings(steps[1..], e)
  }

  // Once pushed, an event is not pushed again before its lease has run out.
  lemma {:induction false} PushedOnceALease(h: Handlers, s: State, steps: seq<Step>, e: EventId)
    ensures Pushes(h, s, steps, e) <= LeaseEndings(steps, e) + if e in s.leased then 0 else 1
    decreases |steps|
  {
    if steps != [] {
      PushedOnceALease(h, Next(h, s, steps[0]), steps[1..], e);
      LeasedStays(h, s, steps[0], e);
    }
  }

  lemma LeasedStays(h: Handlers, s: State, step: Step, e: EventId)
    ensures e in s.leased && step != LeaseEnds(e) ==> e in Next(h, s, step).leased
    ensures step == Push(e) && Next(h, s, step).pushed != s.pushed ==> e !in s.leased && e in Next(h, s, step).leased
  {
  }

  // What is not settled and not leased is pushed to a socket that is there;
  // what is settled never is.
  lemma PushedWhenDue(h: Handlers, s: State, e: EventId)
    requires e in s.status && s.connected && e !in s.leased
    ensures Next(h, s, Push(e)).pushed[e] == s.pushed[e] + if s.status[e] == Pending then 1 else 0
  {
  }

  // How often the agent takes an event up, and how often it acknowledges one
  // and the hub reads that.
  function Receipts(h: Handlers, s: State, steps: seq<Step>, e: EventId): nat
    decreases |steps|
  {
    if steps == [] then 0
    else (if steps[0].Receive? && steps[0].e == e && Next(h, s, steps[0]) != s then 1 else 0)
         + Receipts(h, Next(h, s, steps[0]), steps[1..], e)
  }

  function AcksSent(h: Handlers, s: State, steps: seq<Step>, e: EventId): nat
    decreases |steps|
  {
    if steps == [] then 0
    else var after := Next(h, s, steps[0]);
         (if steps[0].SendAck? && after.acks[e] > s.acks[e] then 1 else 0) + AcksSent(h, after, steps[1..], e)
  }

  function AcksRead(h: Handlers, s: State, steps: seq<Step>, e: EventId): nat
    decreases |steps|
  {
    if steps == [] then 0
    else (if steps[0].TakeAck? && steps[0].e == e && e in s.acks then 1 else 0)
         + AcksRead(h, Next(h, s, steps[0]), steps[1..], e)
  }

  // Nothing appears on the wire by itself: an event is taken up no more often
  // than it is pushed, and an acknowledgement read no more often than sent.
  lemma {:induction false} WireAddsNothing(h: Handlers, s: State, steps: seq<Step>, e: EventId)
    ensures var after := Run(h, s, steps);
            && Receipts(h, s, steps, e) + after.pushed[e] <= Pushes(h, s, steps, e) + s.pushed[e]
            && AcksRead(h, s, steps, e) + after.acks[e] <= AcksSent(h, s, steps, e) + s.acks[e]
    decreases |steps|
  {
    if steps != [] {
      WireAddsNothing(h, Next(h, s, steps[0]), steps[1..], e);
      StepAddsNothing(h, s, steps[0], e);
    }
  }

  lemma StepAddsNothing(h: Handlers, s: State, step: Step, e: EventId)
    ensures var after := Next(h, s, step);
            && (if step.Receive? && step.e == e && after != s then 1 else 0) + after.pushed[e]
               <= s.pushed[e] + (if step == Push(e) && after.pushed != s.pushed then 1 else 0)
            && (if step.TakeAck? && step.e == e && e in s.acks then 1 else 0) + after.acks[e]
               <= s.acks[e] + (if step.SendAck? && after.acks[e] > s.acks[e] then 1 else 0)
  {
    if step.Push? || step.Receive? {
      PushAddsOne(s, step, e);
    } else if step.SendAck? || step.TakeAck? {
      AckAddsOne(s, step, e);
    } else {
      RestAddsNothing(h, s, step, e);
    }
  }

  lemma PushAddsOne(s: State, step: Step, e: EventId)
    requires step.Push? || step.Receive?
    ensures var after := if step.Push? then OnPush(s, step.e) else OnReceive(s, step.e, step.t);
            && after.acks == s.acks
            && (if step.Receive? && step.e == e && after != s then 1 else 0) + after.pushed[e]
               <= s.pushed[e] + (if step == Push(e) && after.pushed != s.pushed then 1 else 0)
  {
    if step.Push? && step.e == e {
      assert (s.pushed + multiset{e})[e] == s.pushed[e] + 1;
    } else if step.Receive? && step.e in s.pushed {
      assert (s.pushed - multiset{step.e})[step.e] == s.pushed[step.e] - 1;
    }
  }

  lemma AckAddsOne(s: State, step: Step, e: EventId)
    requires step.SendAck? || step.TakeAck?
    ensures var after := if step.SendAck? then OnSendAck(s, step.t) else OnTakeAck(s, step.e, step.ok);
            && after.pushed == s.pushed
            && (if step.TakeAck? && step.e == e && e in s.acks then 1 else 0) + after.acks[e]
               <= s.acks[e] + (if step.SendAck? && after.acks[e] > s.acks[e] then 1 else 0)
  {
  }

  lemma RestAddsNothing(h: Handlers, s: State, step: Step, e: EventId)
    requires !step.Push? && !step.Receive? && !step.SendAck? && !step.TakeAck?
    ensures Next(h, s, step).pushed[e] <= s.pushed[e] && Next(h, s, step).acks[e] <= s.acks[e]
  {
  }

  // A broken connection keeps nothing that was pushed, and of what was
  // acknowledged at most what the hub had read; and no task begun before a new
  // connection can answer over it.
  lemma ConnectionsAreApart(h: Handlers, steps: seq<Step>, read: multiset<EventId>)
    ensures var s := Run(h, Start, steps);
            var broken, again, restarted :=
              Next(h, s, Disconnect(read)), Next(h, s, Connect), Next(h, s, Restart(read));
            && !broken.connected && broken.pushed == multiset{} && broken.acks == s.acks * read
            && broken.tasks == s.tasks && broken.seen == s.seen
            && again.connected && again.pushed == multiset{} && again.tasks == s.tasks
            && (forall t <- again.tasks :: again.tasks[t].connection != again.connection)
            && restarted == broken.(tasks := map[], seen := [])
  {
    RunHasNoneAhead(h, Start, steps);
  }

  // No task came on a connection still to be made.
  predicate NoneAhead(s: State) {
    forall t <- s.tasks :: s.tasks[t].connection <= s.connection
  }

  lemma {:induction false} RunHasNoneAhead(h: Handlers, s: State, steps: seq<Step>)
    requires NoneAhead(s)
    ensures NoneAhead(Run(h, s, steps))
    decreases |steps|
  {
    if steps != [] {
      StepHasNoneAhead(h, s, steps[0]);
      RunHasNoneAhead(h, Next(h, s, steps[0]), steps[1..]);
    }
  }

  lemma StepHasNoneAhead(h: Handlers, s: State, step: Step)
    requires NoneAhead(s)
    ensures NoneAhead(Next(h, s, step))
  {
  }

  // ----- Nothing pending is ever stuck -----

  // One way on from anywhere: the agent starts over and connects, the lease
  // runs out, and the event is pushed and handled once more.
  function HandOver(e: EventId): seq<Step> {
    [Restart(multiset{}), Connect, LeaseEnds(e), Push(e), Receive(e, 0), Begin(0)]
  }

  lemma RunConcat(h: Handlers, s: State, a: seq<Step>, b: seq<Step>)
    ensures Run(h, s, a + b) == Run(h, Run(h, s, a), b)
    decreases |a|
  {
    if a == [] {
      assert a + b == b;
    } else {
      assert (a + b)[1..] == a[1..] + b;
      RunConcat(h, Next(h, s, a[0]), a[1..], b);
    }
  }

  lemma RunThree(h: Handlers, s: State, a: Step, b: Step, c: Step)
    ensures Run(h, s, [a, b, c]) == Next(h, Next(h, Next(h, s, a), b), c)
  {
    RunConcat(h, s, [a], [b, c]);
    RunConcat(h, Next(h, s, a), [b], [c]);
    assert [a] + [b, c] == [a, b, c] && [b] + [c] == [b, c];
    assert Run(h, s, [a]) == Next(h, s, a);
  }

  lemma PushedAndBegun(h: Handlers, s: State, e: EventId)
    requires e in s.kinds && e in s.status && s.status[e] == Pending && HasHandler(h, s.kinds[e])
    requires s.tasks == map[] && s.seen == [] && e !in s.leased && s.connected && s.pushed == multiset{}
    ensures var after := OnBegin(h, OnReceive(OnPush(s, e), e, 0), 0);
            && after.kinds == s.kinds && after.status == s.status && after.connected
            && after.tasks == map[0 := Task(e, after.connection, Running(false))]
  {
    var received := OnReceive(OnPush(s, e), e, 0);
    assert received.tasks == map[0 := Task(e, s.connection, Fresh)];
  }

  lemma ReadyAgain(h: Handlers, s: State, e: EventId)
    ensures var ready := Run(h, s, [Restart(multiset{}), Connect, LeaseEnds(e)]);
            && ready.kinds == s.kinds && ready.status == s.status
            && ready.tasks == map[] && ready.seen == [] && e !in ready.leased
            && ready.connected && ready.pushed == multiset{}
  {
    RunThree(h, s, Restart(multiset{}), Connect, LeaseEnds(e));
  }

  lemma HandedOver(h: Handlers, s: State, e: EventId)
    requires e in s.kinds && e in s.status && s.status[e] == Pending && HasHandler(h, s.kinds[e])
    ensures var after := Run(h, s, HandOver(e));
            && after.kinds == s.kinds && after.status == s.status && after.connected
            && after.tasks == map[0 := Task(e, after.connection, Running(false))]
  {
    var first, second := [Restart(multiset{}), Connect, LeaseEnds(e)], [Push(e), Receive(e, 0), Begin(0)];
    assert HandOver(e) == first + second;
    RunConcat(h, s, first, second);
    ReadyAgain(h, s, e);
    var ready := Run(h, s, first);
    RunThree(h, ready, Push(e), Receive(e, 0), Begin(0));
    PushedAndBegun(h, ready, e);
  }

  lemma CompletedAndAcked(h: Handlers, s: State, e: EventId)
    requires e in s.kinds && e in s.status && s.status[e] == Pending && s.connected
    requires s.tasks == map[0 := Task(e, s.connection, Running(false))]
    ensures var after := OnTakeAck(OnSendAck(OnEnd(h, s, 0, Completed), 0), e, true);
            e in after.status && after.status[e] == Delivered && (e, Completed) in after.ended
  {
  }

  lemma LastThree(h: Handlers, s: State, e: EventId)
    requires e in s.kinds && e in s.status && s.status[e] == Pending && s.connected
    requires s.tasks == map[0 := Task(e, s.connection, Running(false))]
    ensures var after := Run(h, s, [End(0, Completed), SendAck(0), TakeAck(e, true)]);
            e in after.status && after.status[e] == Delivered && (e, Completed) in after.ended
  {
    RunThree(h, s, End(0, Completed), SendAck(0), TakeAck(e, true));
    CompletedAndAcked(h, s, e);
  }

  // Whatever has happened, an event still pending that has a handler can
  // still be handled and, once its handler completes, is marked delivered.
  lemma NothingIsStuck(h: Handlers, steps: seq<Step>, e: EventId)
    requires var s := Run(h, Start, steps);
             e in s.kinds && e in s.status && s.status[e] == Pending && HasHandler(h, s.kinds[e])
    ensures var s := Run(h, Start, steps);
            var after := Run(h, s, HandOver(e) + [End(0, Completed), SendAck(0), TakeAck(e, true)]);
            e in after.status && after.status[e] == Delivered && (e, Completed) in after.ended
  {
    var s := Run(h, Start, steps);
    RunConcat(h, s, HandOver(e), [End(0, Completed), SendAck(0), TakeAck(e, true)]);
    HandedOver(h, s, e);
    LastThree(h, Run(h, s, HandOver(e)), e);
  }
}
