// Live updates to the connections of one instance
// (server/internal/realtime/hub.go), with any number of threads.
//
// The hub's mutex is held across steps only by Dispatch, while it sends; its
// other critical sections are one step each, taken when the mutex is free. A
// sync.Once is a value: its function runs once, and a second caller waits
// until the first has finished. A send on a closed channel, or closing one
// twice, is a panic. A step that is not enabled changes nothing.
module HubThreads {
  import opened Wrappers

  type Id = nat

  // A channel holds this many events that its connection has yet to take.
  const SUBSCRIPTION_BUFFER := 64

  datatype Event = Event(id: Id, recipients: seq<Id>)

  datatype Once = Fresh | Running(thread: Id) | Finished

  // One subscription and its channel. The rest is history: what its connection
  // has taken from the channel, what was put in, every event addressed to its
  // person since it subscribed, and whether the hub was closed by then.
  datatype Sub = Sub(user: Id, queue: seq<Event>, shut: bool, detachOnce: Once, signalOnce: Once,
                     taken: seq<Event>, sent: seq<Event>, due: seq<Event>, late: bool)

  // Where a thread is. The head of `todo` is the subscription it is at;
  // `detach` tells Subscription.Close from the hub's own Close.
  datatype Thread =
    | Sending(event: Event, todo: seq<Id>, slow: seq<Id>)   // in Dispatch, with the mutex
    | Closing(todo: seq<Id>)                                // at detachOnce.Do
    | Detaching(todo: seq<Id>)                              // inside it
    | Signalling(todo: seq<Id>, detach: bool)               // at signalOnce.Do
    | Shutting(todo: seq<Id>, detach: bool)                 // inside it

  datatype State = State(
    closed: bool,
    mutex: Option<Id>,
    subs: map<Id, set<Id>>,        // by person
    chans: map<Id, Sub>,           // every subscription ever made
    threads: map<Id, Thread>,
    panicked: bool,
    dispatching: Option<Id>,       // history: the Dispatch in progress
    solo: bool,                    // history: none overlapped, none named a person twice
    closer: Option<Id>)            // history: the first Close of the hub

  datatype Step =
    | Subscribe(sub: Id, user: Id)
    | Dispatch(thread: Id, event: Event, order: seq<Id>)
    | Send(thread: Id)
    | Unlock(thread: Id)
    | CloseSub(thread: Id, sub: Id)
    | CloseHub(thread: Id, order: seq<Id>)
    | EnterDetach(thread: Id)
    | Detach(thread: Id)
    | EnterSignal(thread: Id)
    | Shut(thread: Id)
    | Return(thread: Id)
    | Receive(sub: Id)

  const Initial := State(false, None, map[], map[], map[], false, None, true, None)

  predicate Registered(s: State, sub: Id) {
    sub in s.chans && s.chans[sub].user in s.subs && sub in s.subs[s.chans[sub].user]
  }

  function Goto(s: State, thread: Id, at: Thread): State { s.(threads := s.threads[thread := at]) }

  function SetSub(s: State, sub: Id, c: Sub): State { s.(chans := s.chans[sub := c]) }

  function OnSubscribe(s: State, sub: Id, user: Id): State {
    if s.mutex.Some? || sub in s.chans then s else
    var others := if user in s.subs then s.subs[user] else {};
    s.(subs := s.subs[user := others + {sub}],
       chans := s.chans[sub := Sub(user, [], false, Fresh, Fresh, [], [], [], s.closed)])
  }

  // The order a Dispatch may visit subscriptions in: all of its people's,
  // none twice unless a person is named twice.
  predicate Visits(s: State, order: seq<Id>, recipients: seq<Id>) {
    && (forall sub :: sub in order ==> Registered(s, sub) && s.chans[sub].user in recipients)
    && (forall sub :: sub in s.chans && Registered(s, sub) && s.chans[sub].user in recipients ==> sub in order)
    && (Distinct(recipients) ==> Distinct(order))
  }

  // Every subscription of the people named owes the event, whatever becomes
  // of it.
  function Owed(chans: map<Id, Sub>, event: Event): map<Id, Sub> {
    map sub | sub in chans ::
      if chans[sub].user in event.recipients then chans[sub].(due := chans[sub].due + [event]) else chans[sub]
  }

  function OnDispatch(s: State, thread: Id, event: Event, order: seq<Id>): State {
    if s.mutex.Some? || thread in s.threads || !Visits(s, order, event.recipients) then s
    else if s.closed then s.(chans := Owed(s.chans, event))
    else Goto(s, thread, Sending(event, order, [])).(
      mutex := Some(thread), chans := Owed(s.chans, event), dispatching := Some(thread),
      solo := s.solo && s.dispatching.None? && Distinct(event.recipients))
  }

  // One subscription of a dispatch: the event goes into its channel if there
  // is room, and its connection is noted as slow if there is none.
  function OnSend(s: State, thread: Id): State {
    if thread !in s.threads || !s.threads[thread].Sending? || s.threads[thread].todo == [] then s else
    var t := s.threads[thread];
    var sub := t.todo[0];
    if sub !in s.chans then s else
    var c := s.chans[sub];
    if c.shut then s.(panicked := true)
    else if |c.queue| < SUBSCRIPTION_BUFFER
    then SetSub(Goto(s, thread, Sending(t.event, t.todo[1..], t.slow)), sub,
         c.(queue := c.queue + [t.event], sent := c.sent + [t.event]))
    else Goto(s, thread, Sending(t.event, t.todo[1..], t.slow + [sub]))
  }

  function OnUnlock(s: State, thread: Id): State {
    if thread !in s.threads || !s.threads[thread].Sending? || s.threads[thread].todo != [] then s
    else Goto(s, thread, Closing(s.threads[thread].slow)).(mutex := None)
  }

  function OnCloseSub(s: State, thread: Id, sub: Id): State {
    if thread in s.threads || sub !in s.chans then s else Goto(s, thread, Closing([sub]))
  }

  function OnCloseHub(s: State, thread: Id, order: seq<Id>): State {
    if s.mutex.Some? || thread in s.threads || (exists sub :: sub in order && !Registered(s, sub))
       || (exists sub :: sub in s.chans && Registered(s, sub) && sub !in order) then s
    else Goto(s, thread, Signalling(order, false)).(
      closed := true, closer := if s.closer.Some? then s.closer else Some(thread))
  }

  function OnEnterDetach(s: State, thread: Id): State {
    if thread !in s.threads || !s.threads[thread].Closing? || s.threads[thread].todo == [] then s else
    var todo := s.threads[thread].todo;
    if todo[0] !in s.chans then s else
    var c := s.chans[todo[0]];
    match c.detachOnce
    case Fresh => SetSub(Goto(s, thread, Detaching(todo)), todo[0], c.(detachOnce := Running(thread)))
    case Running(_) => s
    case Finished => Goto(s, thread, Signalling(todo, true))
  }

  // detach: the last subscription of a person takes the person's entry along.
  function Without(subs: map<Id, set<Id>>, user: Id, sub: Id): map<Id, set<Id>> {
    if user !in subs then subs
    else if subs[user] - {sub} == {} then subs - {user}
    else subs[user := subs[user] - {sub}]
  }

  function OnDetach(s: State, thread: Id): State {
    if s.mutex.Some? || thread !in s.threads || !s.threads[thread].Detaching? then s else
    if s.threads[thread].todo == [] then s else
    var todo := s.threads[thread].todo;
    if todo[0] !in s.chans then s else
    var c := s.chans[todo[0]];
    SetSub(Goto(s, thread, Signalling(todo, true)), todo[0], c.(detachOnce := Finished)).(
      subs := Without(s.subs, c.user, todo[0]))
  }

  // Done with the head: on to the next.
  function After(todo: seq<Id>, detach: bool): Thread
    requires todo != []
  {
    if detach then Closing(todo[1..]) else Signalling(todo[1..], false)
  }

  function OnEnterSignal(s: State, thread: Id): State {
    if thread !in s.threads || !s.threads[thread].Signalling? || s.threads[thread].todo == [] then s else
    var t := s.threads[thread];
    if t.todo[0] !in s.chans then s else
    var c := s.chans[t.todo[0]];
    match c.signalOnce
    case Fresh => SetSub(Goto(s, thread, Shutting(t.todo, t.detach)), t.todo[0], c.(signalOnce := Running(thread)))
    case Running(_) => s
    case Finished => Goto(s, thread, After(t.todo, t.detach))
  }

  // The one closing of a channel, inside its once; a second would panic.
  function OnShut(s: State, thread: Id): State {
    if thread !in s.threads || !s.threads[thread].Shutting? || s.threads[thread].todo == [] then s else
    var t := s.threads[thread];
    if t.todo[0] !in s.chans then s else
    var c := s.chans[t.todo[0]];
    if c.shut then s.(panicked := true)
    else SetSub(Goto(s, thread, After(t.todo, t.detach)), t.todo[0], c.(shut := true, signalOnce := Finished))
  }

  function OnReturn(s: State, thread: Id): State {
    if thread in s.threads && s.threads[thread].todo == []
       && (s.threads[thread].Closing? || s.threads[thread].Signalling?)
    then s.(threads := s.threads - {thread},
            dispatching := if s.dispatching == Some(thread) then None else s.dispatching)
    else s
  }

  function OnReceive(s: State, sub: Id): State {
    if sub in s.chans && s.chans[sub].queue != []
    then SetSub(s, sub, s.chans[sub].(queue := s.chans[sub].queue[1..],
                                     taken := s.chans[sub].taken + [s.chans[sub].queue[0]])) else s
  }

  function Next(s: State, step: Step): State {
    match step
    case Subscribe(sub, user) => OnSubscribe(s, sub, user)
    case Dispatch(thread, event, order) => OnDispatch(s, thread, event, order)
    case Send(thread) => OnSend(s, thread)
    case Unlock(thread) => OnUnlock(s, thread)
    case CloseSub(thread, sub) => OnCloseSub(s, thread, sub)
    case CloseHub(thread, order) => OnCloseHub(s, thread, order)
    case EnterDetach(thread) => OnEnterDetach(s, thread)
    case Detach(thread) => OnDetach(s, thread)
    case EnterSignal(thread) => OnEnterSignal(s, thread)
    case Shut(thread) => OnShut(s, thread)
    case Return(thread) => OnReturn(s, thread)
    case Receive(sub) => OnReceive(s, sub)
  }

  function Run(s: State, steps: seq<Step>): State
    decreases |steps|
  {
    if steps == [] then s else Run(Next(s, steps[0]), steps[1..])
  }

  // ---- The invariant -----------------------------------------------------

  // A subscription is registered until it is detached, its channel is shut
  // exactly when signalled, and signalling waits for one of two things: the
  // subscription has been detached, or the hub is closed.
  ghost predicate GoodSub(s: State, sub: Id)
    requires sub in s.chans
  {
    var c := s.chans[sub];
    && (c.shut <==> c.signalOnce.Finished?)
    && (c.detachOnce.Finished? <==> !Registered(s, sub))
    && (!c.signalOnce.Fresh? ==> c.detachOnce.Finished? || s.closed)
  }

  ghost predicate GoodThread(s: State, thread: Id)
    requires thread in s.threads
  {
    var t := s.threads[thread];
    && (forall sub :: sub in t.todo ==> sub in s.chans)
    && match t
       case Sending(_, todo, slow) =>
         && s.mutex == Some(thread) && !s.closed
         && (forall sub :: sub in todo || sub in slow ==> Registered(s, sub))
       case Closing(todo) => true
       case Detaching(todo) => todo != [] && s.chans[todo[0]].detachOnce == Running(thread)
       case Signalling(todo, detach) =>
         (todo != [] && detach ==> s.chans[todo[0]].detachOnce.Finished?) && (!detach ==> s.closed)
       case Shutting(todo, detach) =>
         && todo != [] && s.chans[todo[0]].signalOnce == Running(thread)
         && (detach ==> s.chans[todo[0]].detachOnce.Finished?) && (!detach ==> s.closed)
  }

  ghost predicate GoodSubs(s: State) {
    forall u <- s.subs ::
      s.subs[u] != {} && forall sub <- s.subs[u] :: sub in s.chans && s.chans[sub].user == u
  }

  ghost predicate Inv(s: State) {
    && !s.panicked
    && GoodSubs(s)
    && (forall sub :: sub in s.chans ==> GoodSub(s, sub))
    && (forall thread :: thread in s.threads ==> GoodThread(s, thread))
    && (s.mutex.Some? ==> s.mutex.value in s.threads && s.threads[s.mutex.value].Sending?)
  }

  lemma SubscribeKeeps(s: State, sub: Id, user: Id)
    requires Inv(s)
    ensures Inv(OnSubscribe(s, sub, user))
  {
    var t := OnSubscribe(s, sub, user);
    if t != s {
      forall c | c in t.chans ensures GoodSub(t, c) { if c != sub { assert GoodSub(s, c); } }
      forall k | k in t.threads ensures GoodThread(t, k) { assert GoodThread(s, k); }
    }
  }

  lemma OwedKeeps(s: State, event: Event)
    requires Inv(s)
    ensures Inv(s.(chans := Owed(s.chans, event)))
  {
    var t := s.(chans := Owed(s.chans, event));
    forall c | c in t.chans ensures GoodSub(t, c) { assert GoodSub(s, c); }
    forall k | k in t.threads ensures GoodThread(t, k) { assert GoodThread(s, k); }
  }

  lemma LockedKeeps(s: State, thread: Id, at: Thread, solo: bool)
    requires Inv(s) && s.mutex.None? && thread !in s.threads && !s.closed && at.Sending? && at.slow == []
    requires forall sub <- at.todo :: sub in s.chans && Registered(s, sub)
    ensures Inv(Goto(s, thread, at).(mutex := Some(thread), dispatching := Some(thread), solo := solo))
  {
    var t := Goto(s, thread, at).(mutex := Some(thread), dispatching := Some(thread), solo := solo);
    forall c | c in t.chans ensures GoodSub(t, c) { assert GoodSub(s, c); }
    forall k | k in t.threads ensures GoodThread(t, k) { if k != thread { assert GoodThread(s, k); } }
  }

  lemma DispatchKeeps(s: State, thread: Id, event: Event, order: seq<Id>)
    requires Inv(s)
    ensures Inv(OnDispatch(s, thread, event, order))
  {
    var t := OnDispatch(s, thread, event, order);
    if t != s {
      OwedKeeps(s, event);
      if !s.closed {
        var owed := s.(chans := Owed(s.chans, event));
        assert forall sub <- order :: Registered(owed, sub);
        LockedKeeps(owed, thread, Sending(event, order, []), t.solo);
      }
    }
  }

  lemma UnlockKeeps(s: State, thread: Id)
    requires Inv(s)
    ensures Inv(OnUnlock(s, thread))
  {
    var t := OnUnlock(s, thread);
    if t != s {
      assert GoodThread(s, thread);
      forall c | c in t.chans ensures GoodSub(t, c) { assert GoodSub(s, c); }
      forall k | k in t.threads ensures GoodThread(t, k) { assert GoodThread(s, k); }
    }
  }

  // A thread moves on, and nothing else changes.
  lemma GotoKeeps(s: State, thread: Id, at: Thread)
    requires Inv(s) && (s.mutex == Some(thread) ==> at.Sending?)
    requires GoodThread(Goto(s, thread, at), thread)
    ensures Inv(Goto(s, thread, at))
  {
    var t := Goto(s, thread, at);
    forall c | c in t.chans ensures GoodSub(t, c) { assert GoodSub(s, c); }
    forall k | k in t.threads ensures GoodThread(t, k) { if k != thread { assert GoodThread(s, k); } }
  }

  // What is in a channel is nobody's condition.
  lemma QueueKeeps(s: State, sub: Id, c: Sub)
    requires Inv(s) && sub in s.chans && c == s.chans[sub].(queue := c.queue, sent := c.sent, taken := c.taken)
    ensures Inv(SetSub(s, sub, c))
  {
    var t := SetSub(s, sub, c);
    forall x | x in t.chans ensures GoodSub(t, x) { assert GoodSub(s, x); }
    forall k | k in t.threads ensures GoodThread(t, k) { assert GoodThread(s, k); }
  }

  lemma SendKeeps(s: State, thread: Id)
    requires Inv(s)
    ensures Inv(OnSend(s, thread))
  {
    var after := OnSend(s, thread);
    if after != s {
      assert GoodThread(s, thread);
      var t := s.threads[thread];
      var sub := t.todo[0];
      assert GoodSub(s, sub);
      var c := s.chans[sub];
      assert forall x <- t.todo[1..] :: x in t.todo;
      if |c.queue| < SUBSCRIPTION_BUFFER {
        GotoKeeps(s, thread, Sending(t.event, t.todo[1..], t.slow));
        QueueKeeps(Goto(s, thread, Sending(t.event, t.todo[1..], t.slow)), sub,
                   c.(queue := c.queue + [t.event], sent := c.sent + [t.event]));
      } else {
        GotoKeeps(s, thread, Sending(t.event, t.todo[1..], t.slow + [sub]));
      }
    }
  }

  // A channel is closed by the one thread whose turn it was, moved on by now.
  lemma ShutSubKeeps(s: State, thread: Id, sub: Id)
    requires Inv(s) && sub in s.chans && s.chans[sub].signalOnce == Running(thread)
    requires thread in s.threads && !s.threads[thread].Shutting?
    ensures Inv(SetSub(s, sub, s.chans[sub].(shut := true, signalOnce := Finished)))
  {
    var t := SetSub(s, sub, s.chans[sub].(shut := true, signalOnce := Finished));
    forall x | x in t.chans ensures GoodSub(t, x) { assert GoodSub(s, x); }
    forall k | k in t.threads ensures GoodThread(t, k) { assert GoodThread(s, k); }
  }

  // A thread takes one of a subscription's onces.
  lemma OnceKeeps(s: State, thread: Id, at: Thread, sub: Id, c: Sub)
    requires Inv(s) && thread in s.threads && GoodThread(s, thread) && s.mutex != Some(thread) && sub in s.chans
    requires var was := s.chans[sub];
             || (was.detachOnce.Fresh? && c == was.(detachOnce := Running(thread)) && at.Detaching?)
             || (was.signalOnce.Fresh? && c == was.(signalOnce := Running(thread)) && at.Shutting?
                 && (was.detachOnce.Finished? || s.closed))
    requires at.todo != [] && at.todo[0] == sub && (forall x :: x in at.todo ==> x in s.chans)
    requires at.Shutting? ==> (at.detach ==> c.detachOnce.Finished?) && (!at.detach ==> s.closed)
    ensures Inv(SetSub(Goto(s, thread, at), sub, c))
  {
    var t := SetSub(Goto(s, thread, at), sub, c);
    forall x | x in t.chans ensures GoodSub(t, x) { assert GoodSub(s, x) && Registered(t, x) == Registered(s, x); }
    forall k | k in t.threads ensures GoodThread(t, k) { if k != thread { assert GoodThread(s, k); } }
  }

  lemma EnterDetachKeeps(s: State, thread: Id)
    requires Inv(s)
    ensures Inv(OnEnterDetach(s, thread))
  {
    if OnEnterDetach(s, thread) != s {
      assert GoodThread(s, thread);
      var todo := s.threads[thread].todo;
      var c := s.chans[todo[0]];
      if c.detachOnce.Fresh? {
        OnceKeeps(s, thread, Detaching(todo), todo[0], c.(detachOnce := Running(thread)));
      } else {
        GotoKeeps(s, thread, Signalling(todo, true));
      }
    }
  }

  lemma DetachKeeps(s: State, thread: Id)
    requires Inv(s)
    ensures Inv(OnDetach(s, thread))
  {
    var t := OnDetach(s, thread);
    if t != s {
      assert GoodThread(s, thread);
      var sub := s.threads[thread].todo[0];
      assert GoodSub(s, sub);
      forall c | c in t.chans ensures GoodSub(t, c) {
        assert GoodSub(s, c);
        var u := s.chans[sub].user;
        assert Registered(t, c) <==> Registered(s, c) && c != sub by {
          if c != sub && u in s.subs && c in s.subs[u] { assert c in s.subs[u] - {sub}; }
        }
      }
      forall k | k in t.threads ensures GoodThread(t, k) { assert GoodThread(s, k); }
    }
  }

  lemma EnterSignalKeeps(s: State, thread: Id)
    requires Inv(s)
    ensures Inv(OnEnterSignal(s, thread))
  {
    if OnEnterSignal(s, thread) != s {
      assert GoodThread(s, thread);
      var t := s.threads[thread];
      var c := s.chans[t.todo[0]];
      if c.signalOnce.Fresh? {
        OnceKeeps(s, thread, Shutting(t.todo, t.detach), t.todo[0], c.(signalOnce := Running(thread)));
      } else {
        GotoKeeps(s, thread, After(t.todo, t.detach));
      }
    }
  }

  lemma ShutKeeps(s: State, thread: Id)
    requires Inv(s)
    ensures Inv(OnShut(s, thread))
  {
    if OnShut(s, thread) != s {
      assert GoodThread(s, thread);
      var t := s.threads[thread];
      assert GoodSub(s, t.todo[0]);
      assert forall x <- t.todo[1..] :: x in t.todo;
      GotoKeeps(s, thread, After(t.todo, t.detach));
      ShutSubKeeps(Goto(s, thread, After(t.todo, t.detach)), thread, t.todo[0]);
    }
  }

  lemma CloseHubKeeps(s: State, thread: Id, order: seq<Id>)
    requires Inv(s)
    ensures Inv(OnCloseHub(s, thread, order))
  {
    var t := OnCloseHub(s, thread, order);
    if t != s {
      forall c | c in t.chans ensures GoodSub(t, c) { assert GoodSub(s, c); }
      forall k | k in t.threads ensures GoodThread(t, k) { if k != thread { assert GoodThread(s, k); } }
    }
  }

  lemma ReturnKeeps(s: State, thread: Id)
    requires Inv(s)
    ensures Inv(OnReturn(s, thread))
  {
    var t := OnReturn(s, thread);
    if t != s {
      forall c | c in t.chans ensures GoodSub(t, c) { assert GoodSub(s, c); }
      forall k | k in t.threads ensures GoodThread(t, k) { assert GoodThread(s, k); }
    }
  }

  lemma CloseSubKeeps(s: State, thread: Id, sub: Id)
    requires Inv(s)
    ensures Inv(OnCloseSub(s, thread, sub))
  {
    if OnCloseSub(s, thread, sub) != s {
      GotoKeeps(s, thread, Closing([sub]));
    }
  }

  lemma ReceiveKeeps(s: State, sub: Id)
    requires Inv(s)
    ensures Inv(OnReceive(s, sub))
  {
    if OnReceive(s, sub) != s {
      QueueKeeps(s, sub, OnReceive(s, sub).chans[sub]);
    }
  }

  lemma StepKeepsInv(s: State, step: Step)
    requires Inv(s)
    ensures Inv(Next(s, step))
  {
    match step
    case Subscribe(sub, user) => SubscribeKeeps(s, sub, user);
    case Dispatch(thread, event, order) => DispatchKeeps(s, thread, event, order);
    case Send(thread) => SendKeeps(s, thread);
    case Unlock(thread) => UnlockKeeps(s, thread);
    case CloseSub(thread, sub) => CloseSubKeeps(s, thread, sub);
    case CloseHub(thread, order) => CloseHubKeeps(s, thread, order);
    case EnterDetach(thread) => EnterDetachKeeps(s, thread);
    case Detach(thread) => DetachKeeps(s, thread);
    case EnterSignal(thread) => EnterSignalKeeps(s, thread);
    case Shut(thread) => ShutKeeps(s, thread);
    case Return(thread) => ReturnKeeps(s, thread);
    case Receive(sub) => ReceiveKeeps(s, sub);
  }

  lemma {:induction false} RunKeepsInv(s: State, steps: seq<Step>)
    requires Inv(s)
    ensures Inv(Run(s, steps))
    decreases |steps|
  {
    if steps != [] {
      StepKeepsInv(s, steps[0]);
      RunKeepsInv(Next(s, steps[0]), steps[1..]);
    }
  }

  // No step of any run sends on a closed channel or closes one twice: whatever
  // channel a dispatch is about to send on, or a thread to close, is open.
  lemma NeverPanics(steps: seq<Step>)
    ensures var s := Run(Initial, steps);
            && !s.panicked
            && forall thread <- s.threads ::
                 (s.threads[thread].Sending? || s.threads[thread].Shutting?) && s.threads[thread].todo != [] ==>
                   s.threads[thread].todo[0] in s.chans && !s.chans[s.threads[thread].todo[0]].shut
  {
    RunKeepsInv(Initial, steps);
    var s := Run(Initial, steps);
    forall thread | thread in s.threads && (s.threads[thread].Sending? || s.threads[thread].Shutting?)
                    && s.threads[thread].todo != []
      ensures s.threads[thread].todo[0] in s.chans && !s.chans[s.threads[thread].todo[0]].shut
    {
      assert GoodThread(s, thread);
      assert s.threads[thread].todo[0] in s.threads[thread].todo;
      assert GoodSub(s, s.threads[thread].todo[0]);
    }
  }

  // Wait's test, len(h.subs) == 0.
  predicate WaitReturns(s: State) { |s.subs| == 0 }

  // Wait returns exactly when every subscription there ever was has been
  // detached.
  lemma WaitMeansAllDetached(steps: seq<Step>)
    ensures var s := Run(Initial, steps);
            WaitReturns(s) <==> forall sub :: sub in s.chans ==> s.chans[sub].detachOnce.Finished?
  {
    RunKeepsInv(Initial, steps);
    var s := Run(Initial, steps);
    if WaitReturns(s) {
      forall sub | sub in s.chans ensures s.chans[sub].detachOnce.Finished? { assert GoodSub(s, sub); }
    } else {
      var u :| u in s.subs;
      var sub :| sub in s.subs[u];
      assert GoodSub(s, sub) && Registered(s, sub);
    }
  }

  // ---- What a channel carries -------------------------------------------

  // The dispatcher's thread, and where a subscription stands with it.
  ghost predicate GoodFeed(s: State, sub: Id)
    requires sub in s.chans
  {
    var c := s.chans[sub];
    && c.sent <= c.due
    && (Registered(s, sub) && !s.closed ==>
          match s.dispatching
          case None => c.sent == c.due
          case Some(d) =>
            d in s.threads &&
            var t := s.threads[d];
            if t.Sending? then
              if sub in t.todo then c.sent + [t.event] == c.due else sub in t.slow || c.sent == c.due
            else sub in t.todo || c.sent == c.due)
  }

  ghost predicate OneDispatcher(s: State) {
    && (forall k :: k in s.threads && s.threads[k].Sending? ==>
          s.dispatching == Some(k) && Distinct(s.threads[k].todo))
    && (s.dispatching.Some? ==>
          s.dispatching.value in s.threads &&
          var t := s.threads[s.dispatching.value];
          (t.Signalling? || t.Shutting?) ==> t.detach)
  }

  ghost predicate FeedInv(s: State) {
    s.solo ==> OneDispatcher(s) && forall sub :: sub in s.chans ==> GoodFeed(s, sub)
  }

  lemma SubscribeFeeds(s: State, sub: Id, user: Id)
    requires Inv(s) && FeedInv(s)
    ensures FeedInv(OnSubscribe(s, sub, user))
  {
    var t := OnSubscribe(s, sub, user);
    if t != s && t.solo {
      forall c | c in t.chans ensures GoodFeed(t, c) {
        if c != sub { assert GoodFeed(s, c) && Registered(t, c) == Registered(s, c); }
        else if s.dispatching.Some? { assert GoodThread(s, s.dispatching.value); }
      }
    }
  }

  lemma DispatchFeeds(s: State, thread: Id, event: Event, order: seq<Id>)
    requires Inv(s) && FeedInv(s)
    ensures FeedInv(OnDispatch(s, thread, event, order))
  {
    var t := OnDispatch(s, thread, event, order);
    if t != s && t.solo {
      assert forall c :: c in s.chans ==> Registered(t, c) == Registered(s, c);
      forall c | c in t.chans ensures GoodFeed(t, c) { assert GoodFeed(s, c); }
    }
  }

  lemma SendFeeds(s: State, thread: Id)
    requires Inv(s) && FeedInv(s)
    ensures FeedInv(OnSend(s, thread))
  {
    var t := OnSend(s, thread);
    if t != s && t.solo {
      var todo := s.threads[thread].todo;
      var sub := todo[0];
      assert GoodThread(s, thread) && GoodSub(s, sub);
      assert todo == [sub] + todo[1..];
      assert sub !in todo[1..];
      forall c | c in t.chans ensures GoodFeed(t, c) {
        assert GoodFeed(s, c) && Registered(t, c) == Registered(s, c);
      }
    }
  }

  lemma UnlockFeeds(s: State, thread: Id)
    requires Inv(s) && FeedInv(s)
    ensures FeedInv(OnUnlock(s, thread))
  {
    var t := OnUnlock(s, thread);
    if t != s && t.solo {
      forall c | c in t.chans ensures GoodFeed(t, c) {
        assert GoodFeed(s, c) && Registered(t, c) == Registered(s, c);
      }
    }
  }

  // A thread that is not sending moves: it keeps its list, or drops a head
  // that is registered no longer.
  lemma MoveFeeds(s: State, t: State, thread: Id)
    requires FeedInv(s)
    requires thread in s.threads && thread in t.threads && !s.threads[thread].Sending? && !t.threads[thread].Sending?
    requires t.threads == s.threads[thread := t.threads[thread]]
    requires t.chans.Keys == s.chans.Keys && t.dispatching == s.dispatching && t.solo == s.solo && t.closed == s.closed
    requires forall c :: c in s.chans ==>
               s.chans[c].sent == t.chans[c].sent && s.chans[c].due == t.chans[c].due
               && (Registered(t, c) ==> Registered(s, c))
    requires var todo := s.threads[thread].todo;
             || t.threads[thread].todo == todo
             || (todo != [] && t.threads[thread].todo == todo[1..] &&
                (s.dispatching == Some(thread) ==> !Registered(t, todo[0])))
    requires s.dispatching == Some(thread) && (t.threads[thread].Signalling? || t.threads[thread].Shutting?) ==>
               t.threads[thread].detach
    ensures FeedInv(t)
  {
    if t.solo {
      var todo := s.threads[thread].todo;
      forall c | c in t.chans ensures GoodFeed(t, c) {
        assert GoodFeed(s, c);
        if todo != [] { assert todo == [todo[0]] + todo[1..]; }
      }
    }
  }

  // The same for a step that also sets one of the subscription's onces.
  lemma OnceFeeds(s: State, thread: Id, at: Thread, sub: Id, c: Sub)
    requires FeedInv(s) && thread in s.threads && !s.threads[thread].Sending? && !at.Sending?
    requires sub in s.chans && c.user == s.chans[sub].user && c.sent == s.chans[sub].sent && c.due == s.chans[sub].due
    requires var todo := s.threads[thread].todo;
             at.todo == todo
             || (todo != [] && at.todo == todo[1..] && (s.dispatching == Some(thread) ==> !Registered(s, todo[0])))
    requires s.dispatching == Some(thread) && (at.Signalling? || at.Shutting?) ==> at.detach
    ensures FeedInv(SetSub(Goto(s, thread, at), sub, c))
    ensures FeedInv(Goto(s, thread, at))
  {
    var t := SetSub(Goto(s, thread, at), sub, c);
    assert forall x :: x in s.chans ==> Registered(t, x) == Registered(s, x);
    MoveFeeds(s, t, thread);
    assert forall x :: x in s.chans ==> Registered(Goto(s, thread, at), x) == Registered(s, x);
    MoveFeeds(s, Goto(s, thread, at), thread);
  }

  lemma EnterDetachFeeds(s: State, thread: Id)
    requires Inv(s) && FeedInv(s)
    ensures FeedInv(OnEnterDetach(s, thread))
  {
    if OnEnterDetach(s, thread) != s {
      var todo := s.threads[thread].todo;
      var c := s.chans[todo[0]];
      if c.detachOnce.Fresh? {
        OnceFeeds(s, thread, Detaching(todo), todo[0], c.(detachOnce := Running(thread)));
      } else {
        OnceFeeds(s, thread, Signalling(todo, true), todo[0], c);
      }
    }
  }

  lemma DetachFeeds(s: State, thread: Id)
    requires Inv(s) && FeedInv(s)
    ensures FeedInv(OnDetach(s, thread))
  {
    var t := OnDetach(s, thread);
    if t != s {
      assert forall c :: c in s.chans && Registered(t, c) ==> Registered(s, c);
      MoveFeeds(s, t, thread);
    }
  }

  lemma EnterSignalFeeds(s: State, thread: Id)
    requires Inv(s) && FeedInv(s)
    ensures FeedInv(OnEnterSignal(s, thread))
  {
    if OnEnterSignal(s, thread) != s && s.solo {
      var t := s.threads[thread];
      var c := s.chans[t.todo[0]];
      assert GoodThread(s, thread) && GoodSub(s, t.todo[0]);
      if c.signalOnce.Fresh? {
        OnceFeeds(s, thread, Shutting(t.todo, t.detach), t.todo[0], c.(signalOnce := Running(thread)));
      } else {
        OnceFeeds(s, thread, After(t.todo, t.detach), t.todo[0], c);
      }
    }
  }

  lemma ShutFeeds(s: State, thread: Id)
    requires Inv(s) && FeedInv(s)
    ensures FeedInv(OnShut(s, thread))
  {
    if OnShut(s, thread) != s && s.solo {
      var t := s.threads[thread];
      var c := s.chans[t.todo[0]];
      assert GoodThread(s, thread) && GoodSub(s, t.todo[0]);
      OnceFeeds(s, thread, After(t.todo, t.detach), t.todo[0], c.(shut := true, signalOnce := Finished));
    }
  }

  lemma RestFeeds(s: State, step: Step)
    requires Inv(s) && FeedInv(s) && (step.CloseSub? || step.Return? || step.Receive? || step.CloseHub?)
    ensures FeedInv(Next(s, step))
  {
    var t := Next(s, step);
    if t != s && t.solo {
      forall c | c in t.chans ensures GoodFeed(t, c) {
        assert GoodFeed(s, c) && Registered(t, c) == Registered(s, c);
      }
    }
  }

  lemma StepKeepsFeed(s: State, step: Step)
    requires Inv(s) && FeedInv(s)
    ensures FeedInv(Next(s, step))
  {
    match step
    case Subscribe(sub, user) => SubscribeFeeds(s, sub, user);
    case Dispatch(thread, event, order) => DispatchFeeds(s, thread, event, order);
    case Send(thread) => SendFeeds(s, thread);
    case Unlock(thread) => UnlockFeeds(s, thread);
    case CloseSub(thread, sub) => RestFeeds(s, step);
    case CloseHub(thread, order) => RestFeeds(s, step);
    case EnterDetach(thread) => EnterDetachFeeds(s, thread);
    case Detach(thread) => DetachFeeds(s, thread);
    case EnterSignal(thread) => EnterSignalFeeds(s, thread);
    case Shut(thread) => ShutFeeds(s, thread);
    case Return(thread) => RestFeeds(s, step);
    case Receive(sub) => RestFeeds(s, step);
  }

  lemma {:induction false} RunKeepsFeed(s: State, steps: seq<Step>)
    requires Inv(s) && FeedInv(s)
    ensures FeedInv(Run(s, steps))
    decreases |steps|
  {
    if steps != [] {
      StepKeepsInv(s, steps[0]);
      StepKeepsFeed(s, steps[0]);
      RunKeepsFeed(Next(s, steps[0]), steps[1..]);
    }
  }

  // A channel hands on what was put in, in order: what was taken and what it
  // holds are together what was sent.
  predicate InOrder(chans: map<Id, Sub>) {
    forall sub <- chans :: chans[sub].taken + chans[sub].queue == chans[sub].sent
  }

  lemma SendInOrder(s: State, thread: Id)
    requires InOrder(s.chans)
    ensures InOrder(OnSend(s, thread).chans)
  {
    if OnSend(s, thread).chans != s.chans {
      var t := s.threads[thread];
      var c := s.chans[t.todo[0]];
      assert c.taken + (c.queue + [t.event]) == (c.taken + c.queue) + [t.event];
    }
  }

  lemma ReceiveInOrder(s: State, sub: Id)
    requires InOrder(s.chans)
    ensures InOrder(OnReceive(s, sub).chans)
  {
    if sub in s.chans && s.chans[sub].queue != [] {
      var c := s.chans[sub];
      assert (c.taken + [c.queue[0]]) + c.queue[1..] == c.taken + c.queue;
    }
  }

  // Closing puts nothing into a channel and takes nothing out.
  ghost predicate SameTraffic(was: map<Id, Sub>, now: map<Id, Sub>) {
    && now.Keys == was.Keys
    && forall c <- was ::
         && now[c].queue == was[c].queue && now[c].taken == was[c].taken && now[c].sent == was[c].sent
         && now[c].due == was[c].due && now[c].user == was[c].user
  }

  lemma EnterDetachIsQuiet(s: State, thread: Id)
    ensures SameTraffic(s.chans, OnEnterDetach(s, thread).chans)
  {
    var after := OnEnterDetach(s, thread);
    if after.chans != s.chans {
      var sub := s.threads[thread].todo[0];
      assert after.chans == s.chans[sub := s.chans[sub].(detachOnce := Running(thread))];
    }
  }

  lemma DetachIsQuiet(s: State, thread: Id)
    ensures SameTraffic(s.chans, OnDetach(s, thread).chans)
  {
  }

  lemma EnterSignalIsQuiet(s: State, thread: Id)
    ensures SameTraffic(s.chans, OnEnterSignal(s, thread).chans)
  {
    var after := OnEnterSignal(s, thread);
    if after.chans != s.chans {
      var sub := s.threads[thread].todo[0];
      assert after.chans == s.chans[sub := s.chans[sub].(signalOnce := Running(thread))];
    }
  }

  lemma ShutIsQuiet(s: State, thread: Id)
    ensures SameTraffic(s.chans, OnShut(s, thread).chans)
  {
  }

  lemma MoveIsQuiet(s: State, step: Step)
    requires Moves(step)
    ensures SameTraffic(s.chans, Next(s, step).chans)
  {
    match step {
      case EnterDetach(thread) => EnterDetachIsQuiet(s, thread);
      case Detach(thread) => DetachIsQuiet(s, thread);
      case EnterSignal(thread) => EnterSignalIsQuiet(s, thread);
      case Shut(thread) => ShutIsQuiet(s, thread);
    }
  }

  lemma EnterInOrder(s: State, step: Step)
    requires InOrder(s.chans) && Moves(step)
    ensures InOrder(Next(s, step).chans)
  {
    MoveIsQuiet(s, step);
  }

  lemma RestInOrder(s: State, step: Step)
    requires InOrder(s.chans)
    requires step.Subscribe? || step.Dispatch? || step.Unlock? || step.CloseSub? || step.CloseHub? || step.Return?
    ensures InOrder(Next(s, step).chans)
  {
  }

  lemma {:induction false} RunInOrder(s: State, steps: seq<Step>)
    requires InOrder(s.chans)
    ensures InOrder(Run(s, steps).chans)
    decreases |steps|
  {
    if steps != [] {
      if steps[0].Send? {
        SendInOrder(s, steps[0].thread);
      } else if steps[0].Receive? {
        ReceiveInOrder(s, steps[0].sub);
      } else if Moves(steps[0]) {
        EnterInOrder(s, steps[0]);
      } else {
        RestInOrder(s, steps[0]);
      }
      RunInOrder(Next(s, steps[0]), steps[1..]);
    }
  }

  // One Dispatch at a time, and none that names a person twice.
  predicate OneAtATime(s: State, steps: seq<Step>)
    decreases |steps|
  {
    steps == [] ||
    (&& (steps[0].Dispatch? ==> s.dispatching.None? && Distinct(steps[0].event.recipients))
     && OneAtATime(Next(s, steps[0]), steps[1..]))
  }

  lemma {:induction false} RunIsSolo(s: State, steps: seq<Step>)
    requires s.solo && OneAtATime(s, steps)
    ensures Run(s, steps).solo
    decreases |steps|
  {
    if steps != [] {
      StaysSolo(s, steps[0]);
      RunIsSolo(Next(s, steps[0]), steps[1..]);
    }
  }

  lemma StaysSolo(s: State, step: Step)
    requires s.solo && (step.Dispatch? ==> s.dispatching.None? && Distinct(step.event.recipients))
    ensures Next(s, step).solo
  {
  }

  // While one Dispatch runs at a time and no event names a person twice, what
  // a connection has received is, in order and without a gap, the events
  // addressed to its person since it subscribed, and what its channel still
  // holds are those that come next: all of them, between dispatches, as long
  // as it is registered and the hub is open.
  lemma NoGaps(steps: seq<Step>, sub: Id)
    requires OneAtATime(Initial, steps)
    ensures var s := Run(Initial, steps);
            sub in s.chans ==>
              var c := s.chans[sub];
              && c.taken <= c.due && c.taken + c.queue <= c.due
              && (Registered(s, sub) && !s.closed && s.dispatching.None? ==> c.taken + c.queue == c.due)
              && (s.dispatching.Some? ==> s.dispatching.value in s.threads)
  {
    RunKeepsInv(Initial, steps);
    RunKeepsFeed(Initial, steps);
    RunInOrder(Initial, steps);
    RunIsSolo(Initial, steps);
    var s := Run(Initial, steps);
    if sub in s.chans { assert GoodFeed(s, sub); }
  }

  // A connection takes what is in its channel from the front, one at a time,
  // also after the channel was closed.
  lemma TakesTheNext(steps: seq<Step>, sub: Id)
    ensures var s := Run(Initial, steps);
            sub in s.chans && s.chans[sub].queue != [] ==>
              var c, after := s.chans[sub], Next(s, Receive(sub)).chans[sub];
              |after.taken| == |c.taken| + 1 && after.taken <= c.sent && after.sent == c.sent
  {
    RunInOrder(Initial, steps);
    var s := Run(Initial, steps);
    ReceiveInOrder(s, sub);
  }

  // ---- What single steps come to ----------------------------------------

  // A new subscription is registered for its person with an empty channel,
  // and nobody else's registration changes.
  lemma SubscribeJoins(steps: seq<Step>, sub: Id, user: Id)
    requires var s := Run(Initial, steps); s.mutex.None? && sub !in s.chans
    ensures var s := Run(Initial, steps);
            var t := Next(s, Subscribe(sub, user));
            && Registered(t, sub) && t.chans[sub].user == user && t.chans[sub].queue == [] && !t.chans[sub].shut
            && forall x :: x != sub ==> (Registered(t, x) <==> Registered(s, x))
  {
    RunKeepsInv(Initial, steps);
  }

  // A dispatch at a connection puts its event last in the channel unless that
  // holds sixty-four already, and then notes the connection as one to close.
  lemma SendDecides(steps: seq<Step>, thread: Id)
    requires var s := Run(Initial, steps);
             thread in s.threads && s.threads[thread].Sending? && s.threads[thread].todo != []
    ensures var s := Run(Initial, steps);
            var t, at := Next(s, Send(thread)), s.threads[thread];
            var sub := at.todo[0];
            && sub in s.chans && sub in t.chans && thread in t.threads
            && var room := |s.chans[sub].queue| < 64;
            && t.chans[sub].queue == s.chans[sub].queue + (if room then [at.event] else [])
            && t.threads[thread] == Sending(at.event, at.todo[1..], at.slow + if room then [] else [sub])
  {
    RunKeepsInv(Initial, steps);
    var s := Run(Initial, steps);
    assert GoodThread(s, thread);
    assert s.threads[thread].todo[0] in s.threads[thread].todo;
    assert GoodSub(s, s.threads[thread].todo[0]);
  }

  // A dispatch that has been everywhere goes on to close those it noted.
  lemma UnlockClosesTheSlow(s: State, thread: Id)
    requires thread in s.threads && s.threads[thread].Sending? && s.threads[thread].todo == []
    ensures var t := Next(s, Unlock(thread));
            t.mutex.None? && thread in t.threads && t.threads[thread] == Closing(s.threads[thread].slow)
  {
  }

  // Whenever a thread is done with a subscription, its channel has been closed;
  // and if the thread came from Subscription.Close, it has been detached.
  lemma DoneMeansClosed(steps: seq<Step>, step: Step, thread: Id)
    requires var s := Run(Initial, steps);
             thread in s.threads && !s.threads[thread].Sending? && s.threads[thread].todo != []
    requires var s, t := Run(Initial, steps), Next(Run(Initial, steps), step);
             thread in t.threads && t.threads[thread].todo != s.threads[thread].todo
    ensures var s, t := Run(Initial, steps), Next(Run(Initial, steps), step);
            var sub := s.threads[thread].todo[0];
            && t.threads[thread].todo == s.threads[thread].todo[1..]
            && sub in t.chans && t.chans[sub].shut && (t.threads[thread].Closing? ==> !Registered(t, sub))
  {
    RunKeepsInv(Initial, steps);
    var s := Run(Initial, steps);
    assert GoodThread(s, thread);
    if step.EnterSignal? || step.Shut? {
      if step.thread != thread {
        OthersKeepTheList(s, step, thread);
      } else if step.EnterSignal? {
        PassedIsFinished(s, thread);
      } else {
        ShutIsFinished(s, thread);
      }
    } else if step.EnterDetach? || step.Detach? {
      DetachesKeepTheList(s, step, thread);
    } else if step.Send? || step.Unlock? || step.Return? {
      DispatchesKeepTheList(s, step, thread);
    } else {
      StartsKeepTheList(s, step, thread);
    }
  }

  predicate SameList(s: State, t: State, thread: Id) {
    thread in s.threads && thread in t.threads && t.threads[thread].todo == s.threads[thread].todo
  }

  lemma StartsKeepTheList(s: State, step: Step, thread: Id)
    requires thread in s.threads && !s.threads[thread].Sending? && s.threads[thread].todo != []
    requires step.Subscribe? || step.Dispatch? || step.CloseSub? || step.CloseHub? || step.Receive?
    ensures SameList(s, Next(s, step), thread)
  {
  }

  lemma DispatchesKeepTheList(s: State, step: Step, thread: Id)
    requires thread in s.threads && !s.threads[thread].Sending? && s.threads[thread].todo != []
    requires step.Send? || step.Unlock? || step.Return?
    ensures SameList(s, Next(s, step), thread)
  {
  }

  lemma DetachesKeepTheList(s: State, step: Step, thread: Id)
    requires thread in s.threads && !s.threads[thread].Sending? && s.threads[thread].todo != []
    requires step.EnterDetach? || step.Detach?
    ensures SameList(s, Next(s, step), thread)
  {
  }

  lemma OthersKeepTheList(s: State, step: Step, thread: Id)
    requires thread in s.threads && !s.threads[thread].Sending? && s.threads[thread].todo != []
    requires (step.EnterSignal? || step.Shut?) && step.thread != thread
    ensures SameList(s, Next(s, step), thread)
  {
  }

  ghost predicate Finishes(s: State, t: State, thread: Id)
    requires thread in s.threads && s.threads[thread].todo != [] && thread in t.threads
  {
    var sub := s.threads[thread].todo[0];
    t.threads[thread].todo != s.threads[thread].todo ==>
      && t.threads[thread].todo == s.threads[thread].todo[1..]
      && sub in t.chans && t.chans[sub].shut && (t.threads[thread].Closing? ==> !Registered(t, sub))
  }

  lemma PassedIsFinished(s: State, thread: Id)
    requires Inv(s) && thread in s.threads && s.threads[thread].todo != [] && GoodThread(s, thread)
    ensures thread in OnEnterSignal(s, thread).threads && Finishes(s, OnEnterSignal(s, thread), thread)
  {
    assert GoodSub(s, s.threads[thread].todo[0]);
  }

  lemma ShutIsFinished(s: State, thread: Id)
    requires Inv(s) && thread in s.threads && s.threads[thread].todo != [] && GoodThread(s, thread)
    ensures thread in OnShut(s, thread).threads && Finishes(s, OnShut(s, thread), thread)
  {
    assert GoodSub(s, s.threads[thread].todo[0]);
  }

  // What is due to a connection is every event dispatched that names its
  // person, in the order they are, and nothing else.
  lemma DueGrows(s: State, step: Step, sub: Id)
    requires sub in s.chans
    ensures var t := Next(s, step);
            && sub in t.chans && t.chans[sub].user == s.chans[sub].user
            && t.chans[sub].due == s.chans[sub].due +
               if step.Dispatch? && t != s && s.chans[sub].user in step.event.recipients then [step.event] else []
  {
    if Moves(step) {
      MoveIsQuiet(s, step);
    } else if step.Dispatch? {
      assert OnDispatch(s, step.thread, step.event, step.order) == s ||
             OnDispatch(s, step.thread, step.event, step.order).chans == Owed(s.chans, step.event);
    } else {
      RestIsQuiet(s, step, sub);
    }
  }

  // Once the hub is closed nothing more goes into any channel.
  lemma ClosedSendsNothing(steps: seq<Step>, step: Step, sub: Id)
    requires var s := Run(Initial, steps); s.closed && sub in s.chans
    ensures var s, t := Run(Initial, steps), Next(Run(Initial, steps), step);
            t.closed && sub in t.chans && t.chans[sub].sent == s.chans[sub].sent
  {
    RunKeepsInv(Initial, steps);
    var s := Run(Initial, steps);
    if step.Send? {
      if step.thread in s.threads { assert GoodThread(s, step.thread); }
    } else if Moves(step) {
      MoveIsQuiet(s, step);
    } else {
      RestIsQuiet(s, step, sub);
    }
    ClosedStays(s, step);
  }

  lemma RestIsQuiet(s: State, step: Step, sub: Id)
    requires sub in s.chans && !Moves(step)
    ensures var t := Next(s, step);
            && sub in t.chans && t.chans[sub].user == s.chans[sub].user
            && (!step.Send? ==> t.chans[sub].sent == s.chans[sub].sent)
            && (!step.Dispatch? ==> t.chans[sub].due == s.chans[sub].due)
  {
  }

  lemma ClosedStays(s: State, step: Step)
    requires s.closed
    ensures Next(s, step).closed
  {
  }

  // ---- What closing the hub reaches -------------------------------------

  // While a subscription made before the hub closed has not been signalled,
  // the closing thread still has it on its list.
  ghost predicate CloseInv(s: State) {
    && (s.closed <==> s.closer.Some?)
    && (s.closed ==> forall sub :: sub in s.chans && Awaits(s, sub) ==>
          s.closer.value in s.threads &&
          var t := s.threads[s.closer.value];
          (t.Signalling? || t.Shutting?) && !t.detach && sub in t.todo)
  }

  ghost predicate Awaits(s: State, sub: Id)
    requires sub in s.chans
  {
    Registered(s, sub) && !s.chans[sub].late && s.chans[sub].signalOnce.Fresh?
  }

  predicate Moves(step: Step) {
    step.EnterDetach? || step.Detach? || step.EnterSignal? || step.Shut?
  }

  // What such a step does: the thread keeps its list or is done with the
  // head, which by then has been signalled; only the head is touched.
  ghost predicate Moved(s: State, t: State, thread: Id) {
    && thread in s.threads && thread in t.threads && s.threads[thread].todo != []
    && t.threads == s.threads[thread := t.threads[thread]]
    && (t.closed <==> s.closed) && t.closer == s.closer && t.chans.Keys == s.chans.Keys
    && (forall c :: c in t.chans && Awaits(t, c) ==> Awaits(s, c))
    && (s.threads[thread].Signalling? || s.threads[thread].Shutting? ==>
          var was := s.threads[thread];
          var now := t.threads[thread];
          (now.Signalling? || now.Shutting? || now.Closing?)
          && (!was.detach ==> !now.Closing? && !now.detach)
          && (now.todo == was.todo || (now.todo == was.todo[1..]
               && was.todo[0] in t.chans && !Awaits(t, was.todo[0]))))
  }

  lemma MovedKeepsClose(s: State, t: State, thread: Id)
    requires CloseInv(s) && Moved(s, t, thread)
    ensures CloseInv(t)
  {
    if t.closed {
      var todo := s.threads[thread].todo;
      assert todo == [todo[0]] + todo[1..];
      forall c | c in t.chans && Awaits(t, c)
        ensures t.closer.value in t.threads
        ensures var k := t.threads[t.closer.value]; (k.Signalling? || k.Shutting?) && !k.detach && c in k.todo
      {
        assert Awaits(s, c);
      }
    }
  }

  // Only the head is touched, and what is registered stays.
  lemma AwaitsLess(s: State, t: State, sub: Id)
    requires sub in s.chans && t.subs == s.subs && t.chans.Keys == s.chans.Keys
    requires forall c <- s.chans :: c != sub ==> t.chans[c] == s.chans[c]
    requires t.chans[sub].user == s.chans[sub].user && t.chans[sub].late == s.chans[sub].late
    requires t.chans[sub].signalOnce.Fresh? ==> s.chans[sub].signalOnce.Fresh?
    ensures forall c :: c in t.chans && Awaits(t, c) ==> Awaits(s, c)
  {
    forall c | c in t.chans ensures Awaits(t, c) ==> Awaits(s, c) { assert Registered(t, c) == Registered(s, c); }
  }

  lemma EnterSignalMoves(s: State, thread: Id)
    requires Inv(s) && OnEnterSignal(s, thread) != s
    ensures Moved(s, OnEnterSignal(s, thread), thread)
  {
    AwaitsLess(s, OnEnterSignal(s, thread), s.threads[thread].todo[0]);
  }

  lemma ShutMoves(s: State, thread: Id)
    requires Inv(s) && OnShut(s, thread) != s
    ensures Moved(s, OnShut(s, thread), thread)
  {
    var t := OnShut(s, thread);
    assert GoodThread(s, thread) && GoodSub(s, s.threads[thread].todo[0]);
    forall c | c in t.chans ensures Awaits(t, c) ==> Awaits(s, c) { assert Registered(t, c) == Registered(s, c); }
  }

  lemma DetachMoves(s: State, thread: Id)
    requires Inv(s) && OnDetach(s, thread) != s
    ensures Moved(s, OnDetach(s, thread), thread)
  {
    var t := OnDetach(s, thread);
    forall c | c in t.chans ensures Awaits(t, c) ==> Awaits(s, c) { assert Registered(t, c) ==> Registered(s, c); }
  }

  lemma EnterDetachMoves(s: State, thread: Id)
    requires Inv(s) && OnEnterDetach(s, thread) != s
    ensures Moved(s, OnEnterDetach(s, thread), thread)
  {
    AwaitsLess(s, OnEnterDetach(s, thread), s.threads[thread].todo[0]);
  }

  lemma MoveKeepsClose(s: State, step: Step)
    requires Inv(s) && CloseInv(s) && Moves(step)
    ensures CloseInv(Next(s, step))
  {
    var t := Next(s, step);
    if t != s {
      match step {
        case EnterDetach(thread) => EnterDetachMoves(s, thread);
        case Detach(thread) => DetachMoves(s, thread);
        case EnterSignal(thread) => EnterSignalMoves(s, thread);
        case Shut(thread) => ShutMoves(s, thread);
      }
      MovedKeepsClose(s, t, step.thread);
    }
  }

  lemma RestKeepsClose(s: State, step: Step)
    requires Inv(s) && CloseInv(s) && !Moves(step)
    ensures CloseInv(Next(s, step))
  {
    var t := Next(s, step);
    if t != s && t.closed {
      forall c | c in t.chans && Awaits(t, c)
        ensures t.closer.value in t.threads
        ensures var k := t.threads[t.closer.value]; (k.Signalling? || k.Shutting?) && !k.detach && c in k.todo
      {
        assert c in s.chans && (Registered(t, c) <==> Registered(s, c));
        assert Awaits(s, c);
      }
    }
  }

  lemma {:induction false} RunKeepsClose(s: State, steps: seq<Step>)
    requires Inv(s) && CloseInv(s)
    ensures CloseInv(Run(s, steps))
    decreases |steps|
  {
    if steps != [] {
      StepKeepsInv(s, steps[0]);
      if Moves(steps[0]) { MoveKeepsClose(s, steps[0]); } else { RestKeepsClose(s, steps[0]); }
      RunKeepsClose(Next(s, steps[0]), steps[1..]);
    }
  }

  // Once the closing thread is through its list, every connection still
  // registered has been told, except those that subscribed after the close.
  lemma CloseReachesAllBefore(steps: seq<Step>, sub: Id)
    ensures var s := Run(Initial, steps);
            && s.closed && s.closer.Some? && (s.closer.value in s.threads ==> s.threads[s.closer.value].todo == [])
            && sub in s.chans && Registered(s, sub) && s.chans[sub].signalOnce.Fresh?
            ==> s.chans[sub].late
  {
    RunKeepsInv(Initial, steps);
    RunKeepsClose(Initial, steps);
    var s := Run(Initial, steps);
    if sub in s.chans { assert s.closed && Awaits(s, sub) ==> s.closer.value in s.threads; }
  }

  // Nobody has it on a list.
  ghost predicate Untold(s: State, sub: Id) {
    && s.closed && sub in s.chans && s.chans[sub].detachOnce.Fresh? && s.chans[sub].signalOnce.Fresh?
    && !s.chans[sub].shut && s.chans[sub].sent == []
    && (forall k :: k in s.threads ==>
          sub !in s.threads[k].todo && (s.threads[k].Sending? ==> sub !in s.threads[k].slow))
  }

  lemma UntoldDetach(s: State, sub: Id, thread: Id)
    requires Untold(s, sub)
    ensures Untold(OnEnterDetach(s, thread), sub) && Untold(OnDetach(s, thread), sub)
  {
    if thread in s.threads {
      var todo := s.threads[thread].todo;
      if todo != [] { assert todo[0] in todo; }
    }
  }

  lemma UntoldSignal(s: State, sub: Id, thread: Id)
    requires Untold(s, sub)
    ensures Untold(OnEnterSignal(s, thread), sub) && Untold(OnShut(s, thread), sub)
  {
    if thread in s.threads {
      var todo := s.threads[thread].todo;
      if todo != [] { assert todo[0] in todo && todo == [todo[0]] + todo[1..]; }
    }
  }

  lemma UntoldRest(s: State, sub: Id, step: Step)
    requires Untold(s, sub) && !Moves(step) && !step.Send? && !step.CloseHub? && !(step.CloseSub? && step.sub == sub)
    ensures Untold(Next(s, step), sub)
  {
  }

  lemma UntoldSend(s: State, sub: Id, thread: Id)
    requires Untold(s, sub)
    ensures Untold(OnSend(s, thread), sub)
  {
    if thread in s.threads {
      var todo := s.threads[thread].todo;
      if todo != [] { assert todo[0] in todo && todo == [todo[0]] + todo[1..]; }
    }
  }

  // A connection that subscribes after the close is told nothing, whatever
  // else happens, until it closes itself or the hub is closed again: its
  // channel stays open, its person's events do not come, and Wait waits.
  lemma {:induction false} LateIsNeverTold(s: State, sub: Id, steps: seq<Step>)
    requires Untold(s, sub)
    requires forall i :: 0 <= i < |steps| ==> !steps[i].CloseHub? && !(steps[i].CloseSub? && steps[i].sub == sub)
    ensures Untold(Run(s, steps), sub)
    decreases |steps|
  {
    if steps != [] {
      if Moves(steps[0]) {
        UntoldDetach(s, sub, steps[0].thread);
        UntoldSignal(s, sub, steps[0].thread);
      } else if steps[0].Send? {
        UntoldSend(s, sub, steps[0].thread);
      } else {
        UntoldRest(s, sub, steps[0]);
      }
      assert forall i :: 0 <= i < |steps[1..]| ==> steps[1..][i] == steps[i + 1];
      LateIsNeverTold(Next(s, steps[0]), sub, steps[1..]);
    }
  }

  lemma LateExists()
    ensures var s := Run(Initial, [CloseHub(0, []), Return(0), Subscribe(1, 7)]);
            Untold(s, 1) && Registered(s, 1) && s.threads == map[] && !WaitReturns(s)
  {
    var a := Next(Initial, CloseHub(0, []));
    assert a == Initial.(closed := true, closer := Some(0), threads := map[0 := Signalling([], false)]);
    var b := Next(a, Return(0));
    assert b == Initial.(closed := true, closer := Some(0));
    var steps := [CloseHub(0, []), Return(0), Subscribe(1, 7)];
    assert Run(Initial, steps) == Run(a, steps[1..]);
    assert Run(a, steps[1..]) == Run(b, steps[1..][1..]);
    assert steps[1..][1..] == [Subscribe(1, 7)];
    var c := Next(b, Subscribe(1, 7));
    assert Run(b, [Subscribe(1, 7)]) == Run(c, []) == c;
    assert 7 in c.subs;
  }
}

// The hub as one thread runs it: its fields, and the loops under its mutex.
module LiveHub {
  import opened Wrappers
  import opened HubThreads

  // How often a person is named.
  function Count(people: seq<Id>, person: Id): nat {
    multiset(people)[person]
  }

  lemma CountMore(people: seq<Id>, last: Id, person: Id)
    ensures Count(people + [last], person) == Count(people, person) + if last == person then 1 else 0
  {
    assert multiset(people + [last]) == multiset(people) + multiset{last};
  }

  // A channel after an event has been offered to it so many times, and
  // whether it ever had no room.
  function Given(queue: seq<Event>, event: Event, times: nat): seq<Event> {
    if times == 0 then queue
    else
      var before := Given(queue, event, times - 1);
      if |before| < SUBSCRIPTION_BUFFER then before + [event] else before
  }

  predicate Slow(queue: seq<Event>, event: Event, times: nat) {
    times > 0 && (Slow(queue, event, times - 1) || |Given(queue, event, times - 1)| >= SUBSCRIPTION_BUFFER)
  }

  // It is given the event as often as there is room, behind what it holds,
  // and is slow exactly when that is less often than it was offered.
  lemma {:induction false} GivenWhatFits(queue: seq<Event>, event: Event, times: nat)
    requires |queue| <= 64
    ensures var room := 64 - |queue|;
            && Given(queue, event, times) == queue + seq(if times < room then times else room, i => event)
            && (Slow(queue, event, times) <==> times > room)
  {
    if times > 0 {
      GivenWhatFits(queue, event, times - 1);
    }
  }

  type Subs = map<Id, set<Id>>
  type Queues = map<Id, seq<Event>>

  ghost predicate Sane(subs: Subs, queues: Queues) {
    && (forall u :: u in subs ==> subs[u] <= queues.Keys)
    && (forall u, v :: u in subs && v in subs && u != v ==> subs[u] !! subs[v])
  }

  // Every connection has been given the event as often as its person is named.
  ghost predicate Offered(subs: Subs, was: Queues, now: Queues, people: seq<Id>, event: Event) {
    && now.Keys == was.Keys
    && (forall u, c | u in subs && c in subs[u] && c in was :: now[c] == Given(was[c], event, Count(people, u)))
  }

  // Exactly those that ever had no room, each with its person.
  ghost predicate FoundSlow(subs: Subs, was: Queues, people: seq<Id>, event: Event, slow: map<Id, Id>) {
    && (forall u, c | u in subs && c in subs[u] && c in was && Slow(was[c], event, Count(people, u)) :: c in slow)
    && (forall c <- slow ::
          && slow[c] in subs && c in subs[slow[c]] && c in was
          && Slow(was[c], event, Count(people, slow[c])))
  }

  // What offering the event once more does to the connections of one person.
  ghost predicate OfferedOnce(subs: Subs, before: Queues, after: Queues, person: Id, event: Event, more: set<Id>) {
    && after.Keys == before.Keys
    && (forall c <- before ::
          after[c] == before[c] + if person in subs && c in subs[person] && c !in more then [event] else [])
    && more == if person in subs
               then set c | c in subs[person] && c in before && |before[c]| >= SUBSCRIPTION_BUFFER
               else {}
  }

  lemma OneMoreOffer(subs: Subs, was: Queues, before: Queues, after: Queues, people: seq<Id>, person: Id,
                     event: Event, more: set<Id>, u: Id, c: Id)
    requires Sane(subs, was) && u in subs && c in subs[u] && c in was && c in before
    requires before[c] == Given(was[c], event, Count(people, u))
    requires OfferedOnce(subs, before, after, person, event, more)
    ensures after[c] == Given(was[c], event, Count(people + [person], u))
    ensures Slow(was[c], event, Count(people + [person], u)) <==> Slow(was[c], event, Count(people, u)) || c in more
    ensures c in more ==> u == person
  {
    CountMore(people, person, u);
  }

  lemma OfferedMore(subs: Subs, was: Queues, before: Queues, after: Queues, people: seq<Id>, person: Id,
                    event: Event, more: set<Id>)
    requires Sane(subs, was) && Offered(subs, was, before, people, event)
    requires OfferedOnce(subs, before, after, person, event, more)
    ensures Offered(subs, was, after, people + [person], event)
  {
    forall u, c | u in subs && c in subs[u] && c in was
      ensures after[c] == Given(was[c], event, Count(people + [person], u))
    {
      OneMoreOffer(subs, was, before, after, people, person, event, more, u, c);
    }
  }

  lemma SlowMore(subs: Subs, was: Queues, before: Queues, after: Queues, people: seq<Id>, person: Id,
                 event: Event, slow: map<Id, Id>, more: set<Id>)
    requires Sane(subs, was) && Offered(subs, was, before, people, event) && FoundSlow(subs, was, people, event, slow)
    requires OfferedOnce(subs, before, after, person, event, more)
    ensures FoundSlow(subs, was, people + [person], event, slow + map c | c in more :: person)
  {
    var all := slow + map c | c in more :: person;
    forall u, c | u in subs && c in subs[u] && c in was && Slow(was[c], event, Count(people + [person], u))
      ensures c in all
    {
      OneMoreOffer(subs, was, before, after, people, person, event, more, u, c);
    }
    forall c | c in all
      ensures all[c] in subs && c in subs[all[c]] && c in was && Slow(was[c], event, Count(people + [person], all[c]))
    {
      OneMoreOffer(subs, was, before, after, people, person, event, more, all[c], c);
    }
  }

  class Hub {
    var subs: map<Id, set<Id>>      // connections by person
    var closed: bool
    var queues: map<Id, seq<Event>> // each connection's channel
    var shut: set<Id>               // channels that have been closed

    // A channel is closed only once its connection is off the list, or the
    // hub is closed: so what Dispatch reaches can be sent to.
    ghost predicate Valid()
      reads this
    {
      && (forall u :: u in subs ==> subs[u] != {} && subs[u] <= queues.Keys)
      && (forall u, v :: u in subs && v in subs && u != v ==> subs[u] !! subs[v])
      && (forall u, c :: u in subs && c in subs[u] ==> c !in shut || closed)
    }

    predicate On(user: Id, sub: Id)
      reads this`subs
    {
      user in subs && sub in subs[user]
    }

    function Connected(): (all: set<Id>)
      reads this`subs
      ensures forall u, c :: On(u, c) ==> c in all
    {
      set u, c | u in subs && c in subs[u] :: c
    }

    constructor ()
      ensures Valid() && subs == map[] && queues == map[] && !closed && shut == {}
    {
      subs, closed, queues, shut := map[], false, map[], {};
    }

    method Subscribe(user: Id, sub: Id)
      requires Valid() && sub !in queues && sub !in shut
      modifies this
      ensures Valid() && closed == old(closed) && shut == old(shut)
      ensures queues == old(queues)[sub := []]
      ensures forall u, c :: On(u, c) <==> old(On(u, c)) || (u == user && c == sub)
    {
      var others := if user in subs then subs[user] else {};
      subs := subs[user := others + {sub}];
      queues := queues[sub := []];
    }

    // Subscription.Close: detach, then signal; a second call changes nothing.
    method CloseSubscription(user: Id, sub: Id)
      requires Valid() && forall u :: On(u, sub) ==> u == user
      modifies this`subs, this`shut
      ensures Valid() && shut == old(shut) + {sub}
      ensures forall u, c :: On(u, c) <==> old(On(u, c)) && c != sub
    {
      if user in subs {
        var rest := subs[user] - {sub};
        assert forall c :: c in rest <==> c in subs[user] && c != sub;
        subs := if rest == {} then subs - {user} else subs[user := rest];
      }
      shut := shut + {sub};
      forall u, c | u in subs && c in subs[u] ensures c !in shut || closed {
        assert old(On(u, c));
        assert c == sub ==> u == user;
      }
    }

    // The loop under the mutex: every connection of the person is given the
    // event if its channel has room, and is slow if it has none.
    method SendTo(user: Id, event: Event) returns (slow: set<Id>)
      requires Valid() && !closed
      modifies this`queues
      ensures Valid() && queues.Keys == old(queues).Keys
      ensures slow == if user in subs then set c | c in subs[user] && |old(queues)[c]| >= 64 else {}
      ensures forall c :: c in queues ==>
                queues[c] == old(queues)[c] + (if On(user, c) && c !in slow then [event] else [])
    {
      slow := {};
      var left := if user in subs then subs[user] else {};
      ghost var all, was := left, queues;
      while left != {}
        invariant left <= all && queues.Keys == was.Keys
        invariant slow == set c | c in all - left && |was[c]| >= SUBSCRIPTION_BUFFER
        invariant forall c :: c in was ==>
                    queues[c] == was[c] + (if c in all - left && |was[c]| < SUBSCRIPTION_BUFFER then [event] else [])
        decreases left
      {
        var sub :| sub in left;
        assert sub !in shut;   // a send on a closed channel would panic
        if |queues[sub]| < SUBSCRIPTION_BUFFER {
          queues := queues[sub := queues[sub] + [event]];
        } else {
          slow := slow + {sub};
        }
        left := left - {sub};
      }
    }

    // An event to everyone it names: under the mutex each of their
    // connections is given it or found slow, and afterwards the slow ones are
    // closed. A person named twice is given it twice.
    method Dispatch(event: Event)
      requires Valid()
      modifies this
      ensures Valid() && closed == old(closed)
      ensures closed ==> subs == old(subs) && queues == old(queues) && shut == old(shut)
      ensures queues.Keys == old(queues).Keys
      ensures !closed ==> forall u, c | old(On(u, c)) ::
                queues[c] == Given(old(queues)[c], event, Count(event.recipients, u))
      ensures !closed ==> forall u, c ::
                On(u, c) <==> old(On(u, c)) && !Slow(old(queues)[c], event, Count(event.recipients, u))
      ensures !closed ==> forall c :: c in shut <==>
                c in old(shut) || exists u :: old(On(u, c)) && Slow(old(queues)[c], event, Count(event.recipients, u))
    {
      if closed {
        return;
      }
      ghost var was := queues;
      var slow := Offer(event);
      CloseAll(slow);
    }

    // The part under the mutex.
    method Offer(event: Event) returns (slow: map<Id, Id>)
      requires Valid() && !closed
      modifies this`queues
      ensures Valid()
      ensures Offered(subs, old(queues), queues, event.recipients, event)
      ensures FoundSlow(subs, old(queues), event.recipients, event, slow)
    {
      ghost var was := queues;
      slow := map[];
      var people := event.recipients;
      for i := 0 to |people|
        invariant Valid()
        invariant Offered(subs, was, queues, people[..i], event)
        invariant FoundSlow(subs, was, people[..i], event, slow)
      {
        assert people[..i + 1] == people[..i] + [people[i]];
        ghost var before := queues;
        var more := SendTo(people[i], event);
        assert OfferedOnce(subs, before, queues, people[i], event, more);
        OfferedMore(subs, was, before, queues, people[..i], people[i], event, more);
        SlowMore(subs, was, before, queues, people[..i], people[i], event, slow, more);
        slow := slow + map c | c in more :: people[i];
      }
      assert people[..|people|] == people;
    }

    // Closing every subscription found slow, one after another.
    method CloseAll(slow: map<Id, Id>)
      requires Valid() && forall c <- slow :: On(slow[c], c)
      modifies this`subs, this`shut
      ensures Valid() && shut == old(shut) + slow.Keys
      ensures forall u, c :: On(u, c) <==> old(On(u, c)) && c !in slow
    {
      var left := slow.Keys;
      while left != {}
        invariant Valid() && left <= slow.Keys && shut == old(shut) + (slow.Keys - left)
        invariant forall u, c :: On(u, c) <==> old(On(u, c)) && c !in slow.Keys - left
        decreases left
      {
        var sub: Id :| sub in left;
        CloseSubscription(slow[sub], sub);
        left := left - {sub};
      }
    }

    // Nothing is dispatched after a close, and every connection then
    // registered is told.
    method Close()
      requires Valid()
      modifies this`closed, this`shut
      ensures Valid() && closed
      ensures shut == old(shut) + Connected()
    {
      closed := true;
      shut := shut + Connected();
    }

    // Wait's test.
    method AllDetached() returns (none: bool)
      requires Valid()
      ensures none <==> forall u, c :: !On(u, c)
    {
      none := |subs| == 0;
      if subs != map[] {
        var u :| u in subs;
        var c :| c in subs[u];
        assert On(u, c);
      }
    }
  }
}
