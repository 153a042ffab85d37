// Sending under an idempotency key, and the outbox rows each message owes to
// its conversation's agents (server/internal/conversations/messages.go,
// deliveries.go, with the two unique indexes they rely on). Any number of
// sends run at once, each a database statement or transaction at a time.
module Sends {
  import opened Wrappers

  type AgentId = nat
  type Chat = nat
  type MessageId = nat

  datatype Sender = Person(id: nat) | Agent(agent: AgentId)

  // One request to send. Two requests with one sender and one key are retries
  // of each other, whatever else they carry.
  datatype Request = Request(sender: Sender, chat: Chat, key: Option<string>, body: string, streaming: bool)

  // A stored message: once complete, the agents its transaction told. Which
  // send inserted it, and whom it told, is history no step consults.
  datatype Message = Message(request: Request, told: Option<set<AgentId>>, origin: nat)

  datatype Answer = Created(message: MessageId) | Found(message: MessageId) | KeyReused | RateLimited | Internal

  // Where a send stands.
  datatype Phase = Checking | Limiting | Inserting | Violated | Committed(message: MessageId) | Answered(answer: Answer)

  datatype Attempt = Attempt(request: Request, phase: Phase)

  datatype Status = Pending | Delivered | Failed

  type Outbox = map<(MessageId, AgentId), Status>

  datatype State = State(
    members: map<Chat, seq<AgentId>>,
    messages: seq<Message>,
    outbox: Outbox,
    attempts: seq<Attempt>)

  datatype Step =
    | Members(chat: Chat, agents: seq<AgentId>)
    | Send(request: Request)
    | Check(i: nat)
    | Allow(i: nat, admitted: bool)
    | Insert(i: nat, bound: set<AgentId>)
    | Recheck(i: nat)
    | Reply(i: nat)
    | Break(i: nat)
    | Finish(m: MessageId, bound: set<AgentId>)
    | Settle(m: MessageId, agent: AgentId, status: Status)

  // ----- Fan-out -----

  // The agents a message is for: everyone's in the conversation but its own.
  function Audience(members: map<Chat, seq<AgentId>>, request: Request): set<AgentId> {
    if request.chat !in members then {}
    else set a | a in members[request.chat] && Agent(a) != request.sender
  }

  // What a new row says: delivery to an agent that has no binding has failed
  // from the start.
  function FirstStatus(a: AgentId, bound: set<AgentId>): Status {
    if a in bound then Pending else Failed
  }

  function FanRows(m: MessageId, audience: set<AgentId>, bound: set<AgentId>): Outbox {
    map k | k in (set a | a in audience :: (m, a)) :: FirstStatus(k.1, bound)
  }

  lemma OneMoreRow(outbox: Outbox, m: MessageId, told: set<AgentId>, agent: AgentId, bound: set<AgentId>)
    ensures (outbox + FanRows(m, told, bound))[(m, agent) := FirstStatus(agent, bound)]
            == outbox + FanRows(m, told + {agent}, bound)
  {
  }

  // The transaction's loop: one row for every agent listed but the sender,
  // and the agents now waiting, in the order they are listed.
  method FanOut(outbox: Outbox, m: MessageId, request: Request, members: map<Chat, seq<AgentId>>, bound: set<AgentId>)
    returns (rows: Outbox, pending: seq<AgentId>)
    requires request.chat in members ==> Distinct(members[request.chat])
    ensures rows == outbox + FanRows(m, Audience(members, request), bound)
    ensures forall k, a :: (k, a) in rows <==>
              || (k, a) in outbox
              || (k == m && request.chat in members && a in members[request.chat] && Agent(a) != request.sender)
    ensures request.chat in members ==> forall a <- members[request.chat] ::
              Agent(a) != request.sender ==> rows[(m, a)] == if a in bound then Pending else Failed
    ensures forall k, a :: (k, a) in outbox && k != m ==> rows[(k, a)] == outbox[(k, a)]
    ensures Distinct(pending)
    ensures forall a :: a in pending <==>
              request.chat in members && a in members[request.chat] && Agent(a) != request.sender && a in bound
  {
    var agents := if request.chat in members then members[request.chat] else [];
    rows, pending := outbox, [];
    ghost var told := {};
    for i := 0 to |agents|
      invariant told == set a | a in agents[..i] && Agent(a) != request.sender
      invariant rows == outbox + FanRows(m, told, bound)
      invariant Distinct(pending)
      invariant forall a :: a in pending <==> a in told && a in bound
    {
      var agent := agents[i];
      assert agents[..i + 1] == agents[..i] + [agent];
      if Agent(agent) == request.sender {
        continue;
      }
      assert agent !in agents[..i];
      if agent in bound {
        pending := pending + [agent];
      }
      rows := rows[(m, agent) := FirstStatus(agent, bound)];
      OneMoreRow(outbox, m, told, agent, bound);
      told := told + {agent};
    }
    assert agents[..|agents|] == agents;
  }

  // ----- Steps -----

  predicate Matches(message: Message, sender: Sender, key: string) {
    message.request.sender == sender && message.request.key == Some(key)
  }

  // The look-up by the unique index of senders and keys.
  function FindKey(messages: seq<Message>, sender: Sender, key: string): (found: Option<MessageId>)
    ensures found.Some? ==> found.value < |messages| && Matches(messages[found.value], sender, key)
    ensures found.None? ==> forall message <- messages :: !Matches(message, sender, key)
  {
    if messages == [] then None
    else if Matches(messages[|messages| - 1], sender, key) then Some(|messages| - 1)
    else FindKey(messages[..|messages| - 1], sender, key)
  }

  function Goto(s: State, i: nat, phase: Phase): State
    requires i < |s.attempts|
  {
    s.(attempts := s.attempts[i := s.attempts[i].(phase := phase)])
  }

  // Looking for the key: the answer if there is one, else what comes next.
  function LookUp(s: State, i: nat, next: Phase): State
    requires i < |s.attempts|
  {
    var r := s.attempts[i].request;
    if r.key.None? then Goto(s, i, next)
    else
      var found := FindKey(s.messages, r.sender, r.key.value);
      if found.None? then Goto(s, i, next)
      else if s.messages[found.value].request.chat != r.chat then Goto(s, i, Answered(KeyReused))
      else Goto(s, i, Answered(Found(found.value)))
  }

  predicate At(s: State, i: nat, phase: Phase) {
    i < |s.attempts| && s.attempts[i].phase == phase
  }

  function OnCheck(s: State, i: nat): State {
    if At(s, i, Checking) then LookUp(s, i, Limiting) else s
  }

  function OnAllow(s: State, i: nat, admitted: bool): State {
    if !At(s, i, Limiting) then s
    else Goto(s, i, if admitted then Inserting else Answered(RateLimited))
  }

  // The transaction: the message and its outbox rows together, or, when the
  // index already holds the key, neither.
  function OnInsert(s: State, i: nat, bound: set<AgentId>): State {
    if !At(s, i, Inserting) then s
    else
      var r := s.attempts[i].request;
      if r.key.Some? && FindKey(s.messages, r.sender, r.key.value).Some? then Goto(s, i, Violated)
      else
        var m := |s.messages|;
        var audience := Audience(s.members, r);
        var rows := if r.streaming then map[] else FanRows(m, audience, bound);
        var told := if r.streaming then None else Some(audience);
        Goto(s, i, Committed(m)).(messages := s.messages + [Message(r, told, i)], outbox := s.outbox + rows)
  }

  function OnRecheck(s: State, i: nat): State {
    if At(s, i, Violated) then LookUp(s, i, Answered(Internal)) else s
  }

  function OnReply(s: State, i: nat): State {
    if i < |s.attempts| && s.attempts[i].phase.Committed? then
      Goto(s, i, Answered(Created(s.attempts[i].phase.message)))
    else s
  }

  // Whatever a send was doing fails: before its transaction or after it.
  function OnBreak(s: State, i: nat): State {
    if i < |s.attempts| && !s.attempts[i].phase.Answered? then Goto(s, i, Answered(Internal)) else s
  }

  // A stream ends: the one update that completes its row, and its fan-out.
  function OnFinish(s: State, m: MessageId, bound: set<AgentId>): State {
    if m >= |s.messages| || s.messages[m].told.Some? then s
    else
      var message := s.messages[m];
      var audience := Audience(s.members, message.request);
      s.(messages := s.messages[m := message.(told := Some(audience))],
         outbox := s.outbox + FanRows(m, audience, bound))
  }

  // Delivery ends, one way or the other: only a pending row matches.
  function OnSettle(s: State, m: MessageId, agent: AgentId, status: Status): State {
    if (m, agent) in s.outbox && s.outbox[(m, agent)] == Pending
    then s.(outbox := s.outbox[(m, agent) := status])
    else s
  }

  function Next(s: State, step: Step): State {
    match step
    case Members(chat, agents) => if Distinct(agents) then s.(members := s.members[chat := agents]) else s
    case Send(r) => s.(attempts := s.attempts + [Attempt(r, Checking)])
    case Check(i) => OnCheck(s, i)
    case Allow(i, admitted) => OnAllow(s, i, admitted)
    case Insert(i, bound) => OnInsert(s, i, bound)
    case Recheck(i) => OnRecheck(s, i)
    case Reply(i) => OnReply(s, i)
    case Break(i) => OnBreak(s, i)
    case Finish(m, bound) => OnFinish(s, m, bound)
    case Settle(m, agent, status) => OnSettle(s, m, agent, status)
  }

  function Run(s: State, steps: seq<Step>): State
    decreases |steps|
  {
    if steps == [] then s else Run(Next(s, steps[0]), steps[1..])
  }

  function Start(members: map<Chat, seq<AgentId>>): State {
    State(members, [], map[], [])
  }

  // ----- What every step keeps -----

  ghost predicate KeysUnique(messages: seq<Message>) {
    forall i, j | 0 <= i < j < |messages| ::
      messages[i].request.key.Some? ==>
        messages[i].request.sender != messages[j].request.sender || messages[i].request.key != messages[j].request.key
  }

  // Two requests under one key in one conversation.
  predicate Retry(a: Request, b: Request) {
    a.sender == b.sender && a.chat == b.chat && a.key == b.key && a.key.Some?
  }

  // A message of the same sender under the same key, in another conversation.
  predicate UsedElsewhere(message: Message, r: Request) {
    message.request.sender == r.sender && message.request.key == r.key && message.request.chat != r.chat
  }

  // What a send's phase says of the messages stored.
  ghost predicate Sound(messages: seq<Message>, i: nat, attempt: Attempt) {
    var r := attempt.request;
    match attempt.phase
    case Committed(m) => m < |messages| && messages[m].request == r && messages[m].origin == i
    case Answered(answer) =>
      (match answer
       case Created(m) => m < |messages| && messages[m].request == r && messages[m].origin == i
       case Found(m) => m < |messages| && Retry(messages[m].request, r)
       case KeyReused => exists m <- messages :: UsedElsewhere(m, r)
       case RateLimited => true
       case Internal => true)
    case Checking => true
    case Limiting => true
    case Inserting => true
    case Violated => r.key.Some? && exists m <- messages :: Matches(m, r.sender, r.key.value)
  }

  // Exactly the rows owed: of every complete message, every agent told.
  predicate Owed(s: State, m: MessageId, agent: AgentId) {
    m < |s.messages| && s.messages[m].told.Some? && agent in s.messages[m].told.value
  }

  predicate HasRow(s: State, m: MessageId, agent: AgentId) {
    (m, agent) in s.outbox
  }

  ghost predicate FannedOut(s: State) {
    forall m, agent :: HasRow(s, m, agent) <==> Owed(s, m, agent)
  }

  ghost predicate Inv(s: State) {
    && KeysUnique(s.messages)
    && (forall i | 0 <= i < |s.attempts| :: Sound(s.messages, i, s.attempts[i]))
    && FannedOut(s)
  }

  lemma GotoKeepsInv(s: State, i: nat, phase: Phase)
    requires Inv(s) && i < |s.attempts| && Sound(s.messages, i, s.attempts[i].(phase := phase))
    ensures Inv(Goto(s, i, phase))
  {
    var after := Goto(s, i, phase);
    assert FannedOut(after) by {
      forall m, a ensures HasRow(after, m, a) <==> Owed(after, m, a) {
        assert HasRow(s, m, a) <==> Owed(s, m, a);
      }
    }
  }

  lemma LookUpKeepsInv(s: State, i: nat, next: Phase)
    requires Inv(s) && i < |s.attempts| && next in {Limiting, Answered(Internal)}
    ensures Inv(LookUp(s, i, next))
  {
    var r := s.attempts[i].request;
    if r.key.None? {
      GotoKeepsInv(s, i, next);
    } else {
      var found := FindKey(s.messages, r.sender, r.key.value);
      if found.None? {
        GotoKeepsInv(s, i, next);
      } else if s.messages[found.value].request.chat != r.chat {
        assert s.messages[found.value] in s.messages;
        GotoKeepsInv(s, i, Answered(KeyReused));
      } else {
        GotoKeepsInv(s, i, Answered(Found(found.value)));
      }
    }
  }

  // Messages may be added, and streams completed, without unsettling what
  // sends have been told.
  ghost predicate Extends(before: seq<Message>, after: seq<Message>) {
    && |before| <= |after|
    && (forall m | 0 <= m < |before| :: after[m].request == before[m].request && after[m].origin == before[m].origin)
  }

  lemma ExtendsKeepsSound(before: seq<Message>, after: seq<Message>, i: nat, attempt: Attempt)
    requires Extends(before, after) && Sound(before, i, attempt)
    ensures Sound(after, i, attempt)
  {
    if attempt.phase.Answered? && attempt.phase.answer.KeyReused? {
      var r := attempt.request;
      var m :| 0 <= m < |before| && UsedElsewhere(before[m], r);
      assert after[m] in after;
    }
    if attempt.phase.Violated? {
      var r := attempt.request;
      var message :| message in before && Matches(message, r.sender, r.key.value);
      var m :| 0 <= m < |before| && before[m] == message;
      assert Matches(after[m], r.sender, r.key.value) && after[m] in after;
    }
  }

  lemma InsertKeepsInv(s: State, i: nat, bound: set<AgentId>)
    requires Inv(s)
    ensures Inv(OnInsert(s, i, bound))
  {
    if At(s, i, Inserting) {
      var r := s.attempts[i].request;
      if r.key.Some? && FindKey(s.messages, r.sender, r.key.value).Some? {
        assert s.messages[FindKey(s.messages, r.sender, r.key.value).value] in s.messages;
        GotoKeepsInv(s, i, Violated);
      } else {
        var after := OnInsert(s, i, bound);
        InsertIsSound(s, i, bound);
        InsertKeepsKeys(s, i, bound);
        InsertFansOut(s, i, bound);
      }
    }
  }

  ghost predicate Inserts(s: State, i: nat) {
    At(s, i, Inserting) &&
    var r := s.attempts[i].request;
    r.key.None? || FindKey(s.messages, r.sender, r.key.value).None?
  }

  lemma InsertIsSound(s: State, i: nat, bound: set<AgentId>)
    requires Inv(s) && Inserts(s, i)
    ensures var after := OnInsert(s, i, bound);
            forall j | 0 <= j < |after.attempts| :: Sound(after.messages, j, after.attempts[j])
  {
    var after := OnInsert(s, i, bound);
    forall j | 0 <= j < |after.attempts| ensures Sound(after.messages, j, after.attempts[j]) {
      if j != i {
        ExtendsKeepsSound(s.messages, after.messages, j, s.attempts[j]);
      }
    }
  }

  lemma InsertKeepsKeys(s: State, i: nat, bound: set<AgentId>)
    requires Inv(s) && Inserts(s, i)
    ensures KeysUnique(OnInsert(s, i, bound).messages)
  {
    var r := s.attempts[i].request;
    var messages := OnInsert(s, i, bound).messages;
    forall a, b | 0 <= a < b < |messages| && messages[a].request.key.Some?
      ensures || messages[a].request.sender != messages[b].request.sender
              || messages[a].request.key != messages[b].request.key
    {
      if b == |s.messages| && r.key.Some? {
        assert messages[a] == s.messages[a] && s.messages[a] in s.messages;
      }
    }
  }

  lemma InsertFansOut(s: State, i: nat, bound: set<AgentId>)
    requires Inv(s) && Inserts(s, i)
    ensures FannedOut(OnInsert(s, i, bound))
  {
    var after := OnInsert(s, i, bound);
    forall m, a ensures HasRow(after, m, a) <==> Owed(after, m, a) {
      assert HasRow(s, m, a) <==> Owed(s, m, a);
    }
  }

  lemma FinishKeepsInv(s: State, m: MessageId, bound: set<AgentId>)
    requires Inv(s)
    ensures Inv(OnFinish(s, m, bound))
  {
    var after := OnFinish(s, m, bound);
    forall i | 0 <= i < |s.attempts| ensures Sound(after.messages, i, s.attempts[i]) {
      ExtendsKeepsSound(s.messages, after.messages, i, s.attempts[i]);
    }
    forall k, a ensures HasRow(after, k, a) <==> Owed(after, k, a) {
      assert HasRow(s, k, a) <==> Owed(s, k, a);
    }
  }

  lemma SettleKeepsInv(s: State, m: MessageId, agent: AgentId, status: Status)
    requires Inv(s)
    ensures Inv(OnSettle(s, m, agent, status))
  {
    var after := OnSettle(s, m, agent, status);
    forall k, a ensures HasRow(after, k, a) <==> Owed(after, k, a) {
      assert HasRow(s, k, a) <==> Owed(s, k, a);
    }
  }

  lemma MembersKeepInv(s: State, chat: Chat, agents: seq<AgentId>)
    requires Inv(s)
    ensures Inv(Next(s, Members(chat, agents)))
  {
    var after := Next(s, Members(chat, agents));
    forall k, a ensures HasRow(after, k, a) <==> Owed(after, k, a) {
      assert HasRow(s, k, a) <==> Owed(s, k, a);
    }
  }

  lemma SendKeepsInv(s: State, r: Request)
    requires Inv(s)
    ensures Inv(Next(s, Send(r)))
  {
    var after := Next(s, Send(r));
    forall k, a ensures HasRow(after, k, a) <==> Owed(after, k, a) {
      assert HasRow(s, k, a) <==> Owed(s, k, a);
    }
  }

  lemma StepKeepsInv(s: State, step: Step)
    requires Inv(s)
    ensures Inv(Next(s, step))
  {
    match step {
      case Members(chat, agents) => MembersKeepInv(s, chat, agents);
      case Send(r) => SendKeepsInv(s, r);
      case Check(i) => if At(s, i, Checking) { LookUpKeepsInv(s, i, Limiting); }
      case Allow(i, admitted) =>
        if At(s, i, Limiting) { GotoKeepsInv(s, i, if admitted then Inserting else Answered(RateLimited)); }
      case Insert(i, bound) => InsertKeepsInv(s, i, bound);
      case Recheck(i) => if At(s, i, Violated) { LookUpKeepsInv(s, i, Answered(Internal)); }
      case Reply(i) =>
        if i < |s.attempts| && s.attempts[i].phase.Committed? {
          GotoKeepsInv(s, i, Answered(Created(s.attempts[i].phase.message)));
        }
      case Break(i) =>
        if i < |s.attempts| && !s.attempts[i].phase.Answered? { GotoKeepsInv(s, i, Answered(Internal)); }
      case Finish(m, bound) => FinishKeepsInv(s, m, bound);
      case Settle(m, agent, status) => SettleKeepsInv(s, m, agent, status);
    }
  }

  lemma {:induction false} RunKeepsInv(s: State, steps: seq<Step>)
    requires Inv(s)
    ensures Inv(Run(s, steps))
    decreases |steps|
  {
    if steps != [] {
      StepKeepsInv(s, steps[0]);
      RunKeepsInv(Next(s, steps[0]), steps[1..]);
    }
  }

  // ----- One message for one key -----

  predicate Succeeded(attempt: Attempt) {
    attempt.phase.Answered? && (attempt.phase.answer.Created? || attempt.phase.answer.Found?)
  }

  // However retries race, two sends under one key that both succeed are in
  // the same conversation and answer the same message, and at most one of
  // them says it created it.
  lemma OneMessagePerKey(members: map<Chat, seq<AgentId>>, steps: seq<Step>, i: nat, j: nat)
    requires var s := Run(Start(members), steps);
             && i < |s.attempts| && j < |s.attempts| && i != j
             && s.attempts[i].request.sender == s.attempts[j].request.sender
             && s.attempts[i].request.key == s.attempts[j].request.key && s.attempts[i].request.key.Some?
             && Succeeded(s.attempts[i]) && Succeeded(s.attempts[j])
    ensures var s := Run(Start(members), steps);
            && s.attempts[i].request.chat == s.attempts[j].request.chat
            && s.attempts[i].phase.answer.message == s.attempts[j].phase.answer.message
            && !(s.attempts[i].phase.answer.Created? && s.attempts[j].phase.answer.Created?)
  {
    RunKeepsInv(Start(members), steps);
    var s := Run(Start(members), steps);
    assert Sound(s.messages, i, s.attempts[i]) && Sound(s.messages, j, s.attempts[j]);
    var mi, mj := s.attempts[i].phase.answer.message, s.attempts[j].phase.answer.message;
  }

  // Never two messages under one sender's key, in any conversation; and a
  // send refused for reusing its key really has one elsewhere.
  lemma NeverTwoMessages(members: map<Chat, seq<AgentId>>, steps: seq<Step>)
    ensures KeysUnique(Run(Start(members), steps).messages)
    ensures var s := Run(Start(members), steps);
            forall a <- s.attempts :: a.phase == Answered(KeyReused) ==>
              exists m <- s.messages :: UsedElsewhere(m, a.request)
  {
    RunKeepsInv(Start(members), steps);
    var s := Run(Start(members), steps);
    forall a | a in s.attempts && a.phase == Answered(KeyReused)
      ensures exists m <- s.messages :: UsedElsewhere(m, a.request)
    {
      var i :| 0 <= i < |s.attempts| && s.attempts[i] == a;
      assert Sound(s.messages, i, a);
    }
  }

  // Once a message exists, a retry's first look-up already answers it: the
  // same message in its conversation, refusal in any other, and nothing new
  // is stored, nor is the rate limit asked.
  lemma RetryCostsNothing(members: map<Chat, seq<AgentId>>, steps: seq<Step>, m: MessageId, i: nat)
    requires var s := Run(Start(members), steps);
             && m < |s.messages| && At(s, i, Checking) && s.attempts[i].request.key.Some?
             && Matches(s.messages[m], s.attempts[i].request.sender, s.attempts[i].request.key.value)
    ensures var s := Run(Start(members), steps);
            var after := Next(s, Check(i));
            && after.messages == s.messages && after.outbox == s.outbox
            && after.attempts[i].phase == Answered(
                 if s.messages[m].request.chat == s.attempts[i].request.chat then Found(m) else KeyReused)
  {
    RunKeepsInv(Start(members), steps);
    var s := Run(Start(members), steps);
    var r := s.attempts[i].request;
    var found := FindKey(s.messages, r.sender, r.key.value);
    assert s.messages[m] in s.messages;
    assert found.Some?;
  }

  // Whom a message tells is settled once, by the step that completes it: the
  // agents of its conversation at that moment, but its own sender.
  lemma ToldOnce(s: State, step: Step, m: MessageId)
    ensures var t := Next(s, step);
            && (m < |s.messages| && s.messages[m].told.Some? ==>
                  m < |t.messages| && t.messages[m].told == s.messages[m].told)
            && (m < |t.messages| && t.messages[m].told.Some? && (m >= |s.messages| || s.messages[m].told.None?) ==>
                  var r := t.messages[m].request;
                  forall a :: a in t.messages[m].told.value <==>
                    r.chat in s.members && a in s.members[r.chat] && Agent(a) != r.sender)
  {
  }

  // The rows a step writes say pending for an agent with a binding and failed
  // for one without; a row written earlier stays, and only settling it while
  // it is pending gives it another status.
  lemma RowsSayWhoIsBound(members: map<Chat, seq<AgentId>>, steps: seq<Step>, step: Step, m: MessageId, agent: AgentId)
    ensures var s := Run(Start(members), steps);
            var after := Next(s, step).outbox;
            if (m, agent) in s.outbox
            then && (m, agent) in after
                 && after[(m, agent)] ==
                    if s.outbox[(m, agent)] == Pending && step.Settle? && (step.m, step.agent) == (m, agent)
                    then step.status else s.outbox[(m, agent)]
            else (m, agent) in after ==>
                   && (step.Insert? || step.Finish?)
                   && after[(m, agent)] == if agent in step.bound then Pending else Failed
  {
    RunKeepsInv(Start(members), steps);
    var s := Run(Start(members), steps);
    assert HasRow(s, m, agent) <==> Owed(s, m, agent);
  }

  // A send that is admitted and meets no error stores its message and says so,
  // unless its key is there by then; one that is not admitted stores nothing.
  lemma AdmittedIsStored(members: map<Chat, seq<AgentId>>, steps: seq<Step>, i: nat, admitted: bool,
                         bound: set<AgentId>)
    requires At(Run(Start(members), steps), i, Limiting)
    ensures var s := Run(Start(members), steps);
            var r := s.attempts[i].request;
            var taken := r.key.Some? &&
                         exists m <- s.messages :: m.request.sender == r.sender && m.request.key == r.key;
            var t := Next(Next(s, Allow(i, admitted)), Insert(i, bound));
            && i < |t.attempts| && t.attempts[i].request == r
            && (!admitted ==> t.messages == s.messages && t.attempts[i].phase == Answered(RateLimited))
            && (admitted && taken ==>
                  && t.messages == s.messages && t.outbox == s.outbox && t.attempts[i].phase == Violated)
            && (admitted && !taken ==>
                  && |t.messages| == |s.messages| + 1 && s.messages <= t.messages
                  && t.messages[|s.messages|].request == r && (t.messages[|s.messages|].told.None? <==> r.streaming)
                  && Next(t, Reply(i)).attempts[i].phase == Answered(Created(|s.messages|)))
  {
    var s := Run(Start(members), steps);
    var r := s.attempts[i].request;
    if r.key.Some? {
      assert forall m <- s.messages :: m.request.sender == r.sender && m.request.key == r.key <==>
                                       Matches(m, r.sender, r.key.value);
      var found := FindKey(s.messages, r.sender, r.key.value);
      assert found.Some? ==> s.messages[found.value] in s.messages;
    }
  }

  // A send that lost the race looks again and finds who won it: it is answered
  // that message in its own conversation, and refused otherwise, and is never
  // left without an answer.
  lemma LoserFindsTheWinner(members: map<Chat, seq<AgentId>>, steps: seq<Step>, i: nat)
    requires At(Run(Start(members), steps), i, Violated)
    ensures var s := Run(Start(members), steps);
            var r, t := s.attempts[i].request, Next(s, Recheck(i));
            && t.messages == s.messages && i < |t.attempts| && r.key.Some?
            && exists m: nat | m < |s.messages| ::
                 && s.messages[m].request.sender == r.sender && s.messages[m].request.key == r.key
                 && t.attempts[i].phase ==
                    Answered(if s.messages[m].request.chat == r.chat then Found(m) else KeyReused)
  {
    RunKeepsInv(Start(members), steps);
    var s := Run(Start(members), steps);
    var r := s.attempts[i].request;
    assert Sound(s.messages, i, s.attempts[i]);
    var found := FindKey(s.messages, r.sender, r.key.value);
    assert found.Some?;
  }

  // At every point of every run, a complete message has one outbox row for
  // each agent its completion told, and a stream, which says nothing yet, has
  // none; there are no other rows.
  lemma EveryAgentOnce(members: map<Chat, seq<AgentId>>, steps: seq<Step>, m: MessageId, agent: AgentId)
    ensures var s := Run(Start(members), steps);
            (m, agent) in s.outbox <==>
            m < |s.messages| && s.messages[m].told.Some? && agent in s.messages[m].told.value
  {
    RunKeepsInv(Start(members), steps);
    var s := Run(Start(members), steps);
    assert HasRow(s, m, agent) <==> Owed(s, m, agent);
  }

  // ----- What a sender sees of delivery -----

  function Count(statuses: seq<Status>, status: Status): nat {
    if statuses == [] then 0
    else (if statuses[0] == status then 1 else 0) + Count(statuses[1..], status)
  }

  // Counting rows, as the query does, and deciding, as the service does.
  function Summarize(statuses: seq<Status>): Status {
    var delivered, failed := Count(statuses, Delivered), Count(statuses, Failed);
    if delivered + failed < |statuses| then Pending
    else if delivered == 0 then Failed
    else Delivered
  }

  lemma {:induction false} CountsAddUp(statuses: seq<Status>)
    ensures Count(statuses, Pending) + Count(statuses, Delivered) + Count(statuses, Failed) == |statuses|
    ensures forall status :: Count(statuses, status) > 0 <==> status in statuses
  {
    if statuses != [] {
      CountsAddUp(statuses[1..]);
      assert statuses == [statuses[0]] + statuses[1..];
    }
  }

  // The counts decide as the rows themselves would: pending while any row is,
  // failed if every row has, and delivered if none is pending and one is
  // delivered.
  lemma SummaryMeaning(statuses: seq<Status>)
    requires statuses != []
    ensures Summarize(statuses) == Pending <==> Pending in statuses
    ensures Summarize(statuses) == Failed <==> forall status <- statuses :: status == Failed
    ensures Summarize(statuses) == Delivered <==> Pending !in statuses && Delivered in statuses
  {
    CountsAddUp(statuses);
    assert forall status <- statuses :: status in {Pending, Delivered, Failed};
    assert statuses[0] in statuses;
  }

  // The rows of a message that has been fanned out, in the conversation's
  // order.
  function Rows(s: State, m: MessageId, agents: seq<AgentId>): seq<Status>
    requires forall a <- agents :: (m, a) in s.outbox
  {
    seq(|agents|, i requires 0 <= i < |agents| => s.outbox[(m, agents[i])])
  }

  lemma StepKeepsSettled(s: State, step: Step, m: MessageId, agent: AgentId)
    requires Inv(s) && (m, agent) in s.outbox && s.outbox[(m, agent)] != Pending
    ensures var after := Next(s, step); (m, agent) in after.outbox && after.outbox[(m, agent)] == s.outbox[(m, agent)]
  {
    assert Owed(s, m, agent);
  }

  lemma {:induction false} RunKeepsSettled(s: State, steps: seq<Step>, m: MessageId, agent: AgentId)
    requires Inv(s) && (m, agent) in s.outbox && s.outbox[(m, agent)] != Pending
    ensures var after := Run(s, steps); (m, agent) in after.outbox && after.outbox[(m, agent)] == s.outbox[(m, agent)]
    decreases |steps|
  {
    if steps != [] {
      StepKeepsSettled(s, steps[0], m, agent);
      StepKeepsInv(s, steps[0]);
      RunKeepsSettled(Next(s, steps[0]), steps[1..], m, agent);
    }
  }

  // A status that is no longer pending is the last one the sender sees,
  // whatever happens later.
  lemma TheTickIsFinal(members: map<Chat, seq<AgentId>>, before: seq<Step>, later: seq<Step>, m: MessageId,
                       agents: seq<AgentId>)
    requires agents != [] && forall a <- agents :: (m, a) in Run(Start(members), before).outbox
    requires Summarize(Rows(Run(Start(members), before), m, agents)) != Pending
    ensures forall a <- agents :: (m, a) in Run(Run(Start(members), before), later).outbox
    ensures Summarize(Rows(Run(Run(Start(members), before), later), m, agents)) ==
            Summarize(Rows(Run(Start(members), before), m, agents))
  {
    var s := Run(Start(members), before);
    RunKeepsInv(Start(members), before);
    var rows := Rows(s, m, agents);
    SummaryMeaning(rows);
    forall i | 0 <= i < |agents|
      ensures var after := Run(s, later); (m, agents[i]) in after.outbox && after.outbox[(m, agents[i])] == rows[i]
    {
      assert rows[i] in rows;
      RunKeepsSettled(s, later, m, agents[i]);
    }
    assert Rows(Run(s, later), m, agents) == rows;
  }
}
