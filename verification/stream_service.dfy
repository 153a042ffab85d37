// The loops that finish many streams in one call: the sweeper
// (server/internal/conversations/streaming.go) and a person's stop
// (server/internal/conversations/stop.go). Here nobody interferes, but the
// database and Redis may answer with errors; what interference can do to one
// message is module Streaming's subject.
module StreamService {
  import opened Wrappers
  import opened StreamStore
  import opened Streaming

  type Rows = map<Id, Row>

  predicate Owned(rows: Rows, ref: Ref) {
    ref.message in rows && rows[ref.message].agent == ref.agent
  }

  // What FinishMessage matches.
  predicate Live(rows: Rows, ref: Ref) { Owned(rows, ref) && rows[ref.message].streaming }

  function Finish(rows: Rows, ref: Ref, end: Ending, buttons: seq<Id>, text: Text): Rows {
    if Live(rows, ref)
    then rows[ref.message := Finished(rows[ref.message], Call(ref.agent, end, buttons, Reading), text)]
    else rows
  }

  type Buffers = map<Ref, Buffer>

  function TextIn(buffers: Buffers, ref: Ref): Text {
    if ref in buffers then buffers[ref].text else []
  }

  // Every message the refs own is finished from its buffer, all others stay.
  ghost predicate AllFinished(was: Rows, buffers: Buffers, now: Rows, refs: seq<Ref>, end: Ending) {
    && now.Keys == was.Keys
    && (forall ref :: ref in refs && Live(was, ref) ==>
          now[ref.message] == Finished(was[ref.message], Call(ref.agent, end, [], Reading), TextIn(buffers, ref)))
    && (forall m :: m in was && !(Ref(was[m].agent, m) in refs && was[m].streaming) ==> now[m] == was[m])
  }

  // One more ref of a listing; no buffer not yet listed has been touched.
  lemma OneMoreFinished(was: Rows, buffers: Buffers, now: Rows, refs: seq<Ref>, end: Ending, ref: Ref, text: Text)
    requires AllFinished(was, buffers, now, refs, end)
    requires ref !in refs ==> text == TextIn(buffers, ref)
    ensures AllFinished(was, buffers, Finish(now, ref, end, [], text), refs + [ref], end)
    ensures Live(now, ref) <==> Live(was, ref) && ref !in refs
  {
    assert Owned(was, ref) ==> ref == Ref(was[ref.message].agent, ref.message);
    assert Owned(was, ref) <==> Owned(now, ref);
    assert ref in refs && Live(was, ref) ==> !Live(now, ref);
    var after := Finish(now, ref, end, [], text);
    forall r | r in refs + [ref] && Live(was, r)
      ensures after[r.message] == Finished(was[r.message], Call(r.agent, end, [], Reading), TextIn(buffers, r))
    {
      assert r.message == ref.message && Owned(was, ref) ==> r == ref;
    }
  }

  // The messages a listing names to their own agent, in order, repeats kept.
  function OwnedMessages(rows: Rows, refs: seq<Ref>): seq<Id> {
    if refs == [] then []
    else OwnedMessages(rows, refs[..|refs| - 1])
         + (if Owned(rows, refs[|refs| - 1]) then [refs[|refs| - 1].message] else [])
  }

  lemma {:induction false} OwnedMessagesAre(rows: Rows, refs: seq<Ref>)
    ensures forall m :: m in OwnedMessages(rows, refs) <==> m in rows && Ref(rows[m].agent, m) in refs
  {
    if refs != [] {
      var last := refs[|refs| - 1];
      OwnedMessagesAre(rows, refs[..|refs| - 1]);
      assert refs == refs[..|refs| - 1] + [last];
      assert Owned(rows, last) ==> last == Ref(rows[last.message].agent, last.message);
    }
  }

  // What a sweep newly finished.
  ghost function Newly(was: Rows, refs: seq<Ref>): set<Id> {
    set m | m in was && was[m].streaming && Ref(was[m].agent, m) in refs
  }

  // The sweep's count is at least what it newly finished, and is that number
  // exactly when no owned message was listed twice or was complete already.
  lemma SweepCountExactly(was: Rows, refs: seq<Ref>)
    ensures |Newly(was, refs)| <= |OwnedMessages(was, refs)|
    ensures |OwnedMessages(was, refs)| == |Newly(was, refs)| <==>
            && Distinct(OwnedMessages(was, refs))
            && (forall m :: m in OwnedMessages(was, refs) ==> m in was && was[m].streaming)
  {
    OwnedMessagesAre(was, refs);
    var owned := OwnedMessages(was, refs);
    DistinctSize(owned);
    var all := set m | m in owned;
    var newly := Newly(was, refs);
    assert newly <= all;
    SubsetSize(newly, all);
    if forall m :: m in owned ==> was[m].streaming {
      assert newly == all;
    } else {
      var m :| m in owned && !was[m].streaming;
      assert m in all && m !in newly;
    }
  }

  // A stream that began five minutes ago and has just gone quiet is in both
  // listings; the sweep finishes one message and says two.
  lemma SweepCountsTwice(was: Rows, ref: Ref)
    requires Live(was, ref)
    ensures |OwnedMessages(was, [ref] + [ref])| == 2 && |Newly(was, [ref] + [ref])| == 1
  {
    assert OwnedMessages(was, []) == [];
    assert ([ref] + [ref])[..1] == [ref] && [ref][..0] == [];
    assert OwnedMessages(was, [ref]) == [ref.message];
    assert Newly(was, [ref] + [ref]) == {ref.message};
  }

  datatype StopRequested = StopRequested(agent: Id, message: Option<Id>)

  // The last of an agent's listed replies that a person's stop ended.
  function LastStopped(rows: Rows, refs: seq<Ref>, agent: Id): Option<Id> {
    if refs == [] then None else
    var last := refs[|refs| - 1];
    if last.agent == agent && Owned(rows, last) && rows[last.message].stopped then Some(last.message)
    else LastStopped(rows, refs[..|refs| - 1], agent)
  }

  function StoppedRows(rows: Rows, refs: seq<Ref>): seq<Row> {
    if refs == [] then []
    else StoppedRows(rows, refs[..|refs| - 1])
         + (var last := refs[|refs| - 1];
            if Owned(rows, last) && rows[last.message].stopped then [rows[last.message]] else [])
  }

  // Finishing one more stream leaves the rows of the refs before it.
  lemma FinishSparesEarlier(was: Rows, buffers: Buffers, now: Rows, refs: seq<Ref>, ref: Ref, after: Rows)
    requires AllFinished(was, buffers, now, refs, EndedByPerson)
    requires after.Keys == now.Keys && (forall m :: m in now && m != ref.message ==> after[m] == now[m])
    requires !Live(now, ref) ==> after == now
    requires Live(now, ref) ==> ref !in refs && after[ref.message].agent == ref.agent
    ensures forall r :: r in refs ==> (Owned(now, r) <==> Owned(after, r))
    ensures forall r :: r in refs && Owned(now, r) ==> after[r.message] == now[r.message]
  {
    forall r | r in refs
      ensures Owned(now, r) <==> Owned(after, r)
      ensures Owned(now, r) ==> after[r.message] == now[r.message]
    {
      assert r.message == ref.message && r.agent == ref.agent ==> r == ref;
    }
  }

  // Both read only the rows the refs own.
  lemma {:induction false} StoppedStays(was: Rows, now: Rows, refs: seq<Ref>)
    requires forall ref :: ref in refs ==> (Owned(was, ref) <==> Owned(now, ref))
    requires forall ref :: ref in refs && Owned(was, ref) ==> ref.message in now && now[ref.message] == was[ref.message]
    ensures forall agent :: LastStopped(was, refs, agent) == LastStopped(now, refs, agent)
    ensures StoppedRows(was, refs) == StoppedRows(now, refs)
  {
    if refs != [] {
      assert refs[|refs| - 1] in refs;
      assert forall ref :: ref in refs[..|refs| - 1] ==> ref in refs;
      StoppedStays(was, now, refs[..|refs| - 1]);
    }
  }

  lemma OneMoreStopped(rows: Rows, refs: seq<Ref>, ref: Ref)
    ensures var stopped := Owned(rows, ref) && rows[ref.message].stopped;
            && StoppedRows(rows, refs + [ref]) == StoppedRows(rows, refs)
               + (if stopped then [rows[ref.message]] else [])
            && (forall a :: LastStopped(rows, refs + [ref], a)
                 == if stopped && a == ref.agent then Some(ref.message) else LastStopped(rows, refs, a))
  {
    assert (refs + [ref])[..|refs|] == refs;
  }

  // Only buffers of listed streams may have gone.
  ghost predicate Untouched(was: Buffers, now: Buffers, refs: seq<Ref>) {
    forall ref :: ref !in refs ==> (ref in now <==> ref in was) && (ref in now ==> now[ref] == was[ref])
  }

  // ----- One finish, and a sweep of many -----

  // Where a finish meets an error, if it does: before its transaction is
  // done, or after it.
  datatype Fault = NoFault | Before | Afterwards

  datatype Answer = Ended(row: Row) | NotOwn | Failed

  // What a message's agents are told of it: each but its own, by one row.
  function ToldOf(ref: Ref, others: seq<Id>): seq<(Id, Id)> {
    seq(|others|, i requires 0 <= i < |others| => (ref.message, others[i]))
  }

  function Told(members: map<Id, seq<Id>>, ref: Ref): seq<(Id, Id)> {
    ToldOf(ref, if ref.message in members then Others(members[ref.message], ref.agent) else [])
  }

  lemma {:induction false} OthersMore(agents: seq<Id>, agent: Id, sender: Id)
    ensures Others(agents + [agent], sender) == Others(agents, sender) + if agent == sender then [] else [agent]
  {
    if agents == [] {
      assert [agent][1..] == [];
    } else {
      assert (agents + [agent])[1..] == agents[1..] + [agent];
      OthersMore(agents[1..], agent, sender);
    }
  }

  // That is one row for each agent in its conversation but its own, and, where
  // no agent is listed twice, no row twice.
  lemma ToldAre(members: map<Id, seq<Id>>, ref: Ref)
    ensures forall m, a ::
              (m, a) in Told(members, ref) <==> m == ref.message && m in members && a in members[m] && a != ref.agent
    ensures ref.message in members && Distinct(members[ref.message]) ==> Distinct(Told(members, ref))
  {
    if ref.message in members {
      var others := Others(members[ref.message], ref.agent);
      OthersAre(members[ref.message], ref.agent);
      forall m, a ensures (m, a) in Told(members, ref) <==> m == ref.message && a in others {
        if m == ref.message && a in others {
          var i :| 0 <= i < |others| && others[i] == a;
          assert Told(members, ref)[i] == (m, a);
        }
      }
    }
  }

  // The outbox rows that finishing the listed streams comes to: of every
  // message newly finished, one for each agent in its conversation but its
  // own.
  ghost predicate AllTold(was: Rows, members: map<Id, seq<Id>>, refs: seq<Ref>, added: seq<(Id, Id)>) {
    && (forall m, a ::
          (m, a) in added <==> m in Newly(was, refs) && m in members && a in members[m] && a != was[m].agent)
    && ((forall m :: m in members ==> Distinct(members[m])) ==> Distinct(added))
  }

  lemma OneMoreTold(was: Rows, members: map<Id, seq<Id>>, refs: seq<Ref>, added: seq<(Id, Id)>, ref: Ref)
    requires AllTold(was, members, refs, added)
    ensures AllTold(was, members, refs + [ref],
                    added + if Live(was, ref) && ref !in refs then Told(members, ref) else [])
  {
    var told := if Live(was, ref) && ref !in refs then Told(members, ref) else [];
    ToldAre(members, ref);
    forall m, a ensures (m, a) in added + told <==>
                        m in Newly(was, refs + [ref]) && m in members && a in members[m] && a != was[m].agent
    {
      assert m in Newly(was, refs + [ref]) <==>
             m in Newly(was, refs) || (m == ref.message && Live(was, ref));
      assert m == ref.message && Live(was, ref) ==> Ref(was[m].agent, m) == ref;
    }
    if (forall m :: m in members ==> Distinct(members[m])) && told != [] {
      forall k, n | 0 <= k < |added| && 0 <= n < |told| ensures added[k] != told[n] {
        assert (added[k].0, added[k].1) in added && told[n] in told;
        assert told[n].0 == ref.message && ref.message !in Newly(was, refs);
      }
    }
  }

  // Rows, buffers, active streams and outbox, and how many finishes answered.
  datatype World = World(rows: Rows, buffers: Buffers, active: map<Ref, int>, outbox: seq<(Id, Id)>, answered: nat)

  // What one finish does to them.
  function FinishOne(w: World, members: map<Id, seq<Id>>, ref: Ref, end: Ending, buttons: seq<Id>,
                     fault: Fault): World
  {
    if fault != Before && Live(w.rows, ref) then
      World(Finish(w.rows, ref, end, buttons, TextIn(w.buffers, ref)), w.buffers - {ref}, w.active - {ref},
            w.outbox + Told(members, ref), w.answered + if fault == NoFault then 1 else 0)
    else if fault == NoFault && Owned(w.rows, ref) then w.(answered := w.answered + 1)
    else w
  }

  // The sweeper forgets whatever it gets no answer for.
  function SweepOne(w: World, members: map<Id, seq<Id>>, ref: Ref, fault: Fault): World {
    var after := FinishOne(w, members, ref, EndedByHub, [], fault);
    if after.answered > w.answered then after
    else after.(buffers := after.buffers - {ref}, active := after.active - {ref})
  }

  function Sweep(w: World, members: map<Id, seq<Id>>, refs: seq<Ref>, faults: seq<Fault>): World
    requires |refs| == |faults|
    decreases |refs|
  {
    if refs == [] then w
    else
      var n := |refs| - 1;
      SweepOne(Sweep(w, members, refs[..n], faults[..n]), members, refs[n], faults[n])
  }

  // Every stream listed finished from its buffer and no other, its agents told,
  // and counted when it was its agent's; forgotten what was finished and what
  // is nobody's, and not what had been finished before.
  ghost predicate SweptClean(was: World, members: map<Id, seq<Id>>, refs: seq<Ref>, now: World) {
    && AllFinished(was.rows, was.buffers, now.rows, refs, EndedByHub)
    && was.outbox <= now.outbox && AllTold(was.rows, members, refs, now.outbox[|was.outbox|..])
    && now.answered == was.answered + |OwnedMessages(was.rows, refs)|
    && Forgotten(was, refs, now)
  }

  ghost predicate Forgotten(was: World, refs: seq<Ref>, now: World) {
    && Untouched(was.buffers, now.buffers, refs)
    && (forall ref :: ref in now.buffers <==>
          ref in was.buffers && (ref in refs ==> Owned(was.rows, ref) && !Live(was.rows, ref)))
    && (forall ref :: ref in now.active <==>
          ref in was.active && (ref in refs ==> Owned(was.rows, ref) && !Live(was.rows, ref)))
  }

  // When no finish meets an error, that is what a sweep comes to.
  lemma {:induction false} SweepWithoutErrors(w: World, members: map<Id, seq<Id>>, refs: seq<Ref>, faults: seq<Fault>)
    requires |refs| == |faults| && forall i | 0 <= i < |faults| :: faults[i] == NoFault
    ensures SweptClean(w, members, refs, Sweep(w, members, refs, faults))
    decreases |refs|
  {
    if refs != [] {
      var n := |refs| - 1;
      SweepWithoutErrors(w, members, refs[..n], faults[..n]);
      assert refs == refs[..n] + [refs[n]];
      OneMoreSwept(w, Sweep(w, members, refs[..n], faults[..n]), members, refs[..n], refs[n]);
    }
  }

  lemma OneMoreSwept(was: World, w: World, members: map<Id, seq<Id>>, refs: seq<Ref>, ref: Ref)
    requires SweptClean(was, members, refs, w)
    ensures SweptClean(was, members, refs + [ref], SweepOne(w, members, ref, NoFault))
  {
    OneMoreFinished(was.rows, was.buffers, w.rows, refs, EndedByHub, ref, TextIn(w.buffers, ref));
    OneMoreToldAfter(was, w, members, refs, ref);
    SameOwner(was, w, refs, ref);
    OneMoreForgotten(was, w, members, refs, ref);
    OneMoreOwned(was.rows, refs, ref);
    assert w.outbox + [] == w.outbox;
  }

  lemma OneMoreOwned(rows: Rows, refs: seq<Ref>, ref: Ref)
    ensures |OwnedMessages(rows, refs + [ref])| == |OwnedMessages(rows, refs)| + if Owned(rows, ref) then 1 else 0
  {
    assert (refs + [ref])[..|refs|] == refs;
  }

  lemma OneMoreToldAfter(was: World, w: World, members: map<Id, seq<Id>>, refs: seq<Ref>, ref: Ref)
    requires was.outbox <= w.outbox && AllTold(was.rows, members, refs, w.outbox[|was.outbox|..])
    ensures var after := w.outbox + if Live(was.rows, ref) && ref !in refs then Told(members, ref) else [];
            was.outbox <= after && AllTold(was.rows, members, refs + [ref], after[|was.outbox|..])
  {
    OneMoreTold(was.rows, members, refs, w.outbox[|was.outbox|..], ref);
    LongerRest(was.outbox, w.outbox, if Live(was.rows, ref) && ref !in refs then Told(members, ref) else []);
  }

  lemma LongerRest<T>(was: seq<T>, now: seq<T>, more: seq<T>)
    requires was <= now
    ensures was <= now + more && (now + more)[|was|..] == now[|was|..] + more
  {
  }

  lemma SameOwner(was: World, w: World, refs: seq<Ref>, ref: Ref)
    requires AllFinished(was.rows, was.buffers, w.rows, refs, EndedByHub)
    ensures Owned(was.rows, ref) <==> Owned(w.rows, ref)
  {
    assert Owned(was.rows, ref) ==> ref == Ref(was.rows[ref.message].agent, ref.message);
  }

  lemma OneMoreForgotten(was: World, w: World, members: map<Id, seq<Id>>, refs: seq<Ref>, ref: Ref)
    requires Forgotten(was, refs, w)
    requires Owned(was.rows, ref) <==> Owned(w.rows, ref)
    requires Live(w.rows, ref) <==> Live(was.rows, ref) && ref !in refs
    ensures Forgotten(was, refs + [ref], SweepOne(w, members, ref, NoFault))
  {
  }

  // What a person's stop of the listed replies comes to.
  ghost predicate EndedClean(was: World, members: map<Id, seq<Id>>, refs: seq<Ref>, now: World) {
    && AllFinished(was.rows, was.buffers, now.rows, refs, EndedByPerson)
    && was.outbox <= now.outbox && AllTold(was.rows, members, refs, now.outbox[|was.outbox|..])
    && Untouched(was.buffers, now.buffers, refs)
  }

  lemma OneMoreEnded(was: World, w: World, members: map<Id, seq<Id>>, refs: seq<Ref>, ref: Ref)
    requires EndedClean(was, members, refs, w)
    ensures EndedClean(was, members, refs + [ref], FinishOne(w, members, ref, EndedByPerson, [], NoFault))
  {
    OneMoreFinished(was.rows, was.buffers, w.rows, refs, EndedByPerson, ref, TextIn(w.buffers, ref));
    OneMoreToldAfter(was, w, members, refs, ref);
    assert w.outbox + [] == w.outbox;
  }

  // One more reply ended: the earlier answers stand, and this one joins them.
  lemma OneMoreAnswer(was: World, w: World, members: map<Id, seq<Id>>, refs: seq<Ref>, ref: Ref)
    requires EndedClean(was, members, refs, w)
    ensures var after := FinishOne(w, members, ref, EndedByPerson, [], NoFault).rows;
            var stopped := Owned(after, ref) && after[ref.message].stopped;
            && StoppedRows(after, refs + [ref]) == StoppedRows(w.rows, refs)
               + (if stopped then [after[ref.message]] else [])
            && (forall a :: LastStopped(after, refs + [ref], a)
                 == if stopped && a == ref.agent then Some(ref.message) else LastStopped(w.rows, refs, a))
  {
    var after := Finish(w.rows, ref, EndedByPerson, [], TextIn(w.buffers, ref));
    OneMoreFinished(was.rows, was.buffers, w.rows, refs, EndedByPerson, ref, TextIn(w.buffers, ref));
    FinishSparesEarlier(was.rows, was.buffers, w.rows, refs, ref, after);
    StoppedStays(w.rows, after, refs);
    OneMoreStopped(after, refs, ref);
  }

  // A sweep's step leaves what another stream has, and gives nothing back.
  lemma SweepOneSpares(w: World, members: map<Id, seq<Id>>, ref: Ref, fault: Fault, other: Ref)
    requires ref != other && Owned(w.rows, other)
    ensures var t := SweepOne(w, members, ref, fault);
            && Owned(t.rows, other) && t.rows[other.message] == w.rows[other.message]
            && (other in t.buffers ==> other in w.buffers) && (other in t.active ==> other in w.active)
  {
    assert ref.message == other.message ==> !Owned(w.rows, ref);
  }

  lemma FailedStepDropsText(w: World, members: map<Id, seq<Id>>, ref: Ref)
    ensures var t := SweepOne(w, members, ref, Before);
            t.rows == w.rows && ref !in t.buffers && ref !in t.active && t.outbox == w.outbox
  {
  }

  // A stream still being written whose finish meets an error loses its
  // buffer, and its row goes on as if nothing had happened.
  lemma {:induction false} FailedSweepDropsText(w: World, members: map<Id, seq<Id>>, refs: seq<Ref>,
                                                faults: seq<Fault>, i: nat)
    requires |refs| == |faults| && Distinct(refs) && i < |refs|
    requires Live(w.rows, refs[i]) && faults[i] == Before
    ensures var t := Sweep(w, members, refs, faults);
            && refs[i] !in t.buffers && refs[i] !in t.active
            && Live(t.rows, refs[i]) && t.rows[refs[i].message] == w.rows[refs[i].message]
    decreases |refs|
  {
    var n := |refs| - 1;
    var before := Sweep(w, members, refs[..n], faults[..n]);
    if i < n {
      FailedSweepDropsText(w, members, refs[..n], faults[..n], i);
      SweepOneSpares(before, members, refs[n], faults[n], refs[i]);
    } else {
      UnlistedStays(w, members, refs[..n], faults[..n], refs[n]);
      FailedStepDropsText(before, members, refs[n]);
    }
  }

  lemma {:induction false} UnlistedStays(w: World, members: map<Id, seq<Id>>, refs: seq<Ref>, faults: seq<Fault>,
                                         ref: Ref)
    requires |refs| == |faults| && ref !in refs && Owned(w.rows, ref)
    ensures var t := Sweep(w, members, refs, faults);
            Owned(t.rows, ref) && t.rows[ref.message] == w.rows[ref.message]
    decreases |refs|
  {
    if refs != [] {
      var n := |refs| - 1;
      UnlistedStays(w, members, refs[..n], faults[..n], ref);
      SweepOneSpares(Sweep(w, members, refs[..n], faults[..n]), members, refs[n], faults[n], ref);
    }
  }

  class Service {
    var rows: Rows
    var outbox: seq<(Id, Id)>
    var events: seq<StopRequested>
    // The agents in each message's conversation.
    var members: map<Id, seq<Id>>
    const streams: Store

    constructor (streams: Store)
      ensures rows == map[] && outbox == [] && events == [] && members == map[] && this.streams == streams
    {
      this.streams := streams;
      rows, outbox, events, members := map[], [], [], map[];
    }

    // Everything a finish may change.
    function Now(answered: nat): World
      reads this, streams
    {
      World(rows, streams.buffers, streams.active, outbox, answered)
    }

    // The fan-out of a finished message.
    method FanOut(ref: Ref)
      modifies this`outbox
      ensures outbox == old(outbox) + Told(members, ref)
      ensures forall m, a :: (m, a) in outbox[|old(outbox)|..] <==>
                m == ref.message && m in members && a in members[m] && a != ref.agent
      ensures ref.message in members && Distinct(members[ref.message]) ==> Distinct(outbox[|old(outbox)|..])
    {
      var agents := if ref.message in members then members[ref.message] else [];
      for i := 0 to |agents|
        invariant outbox == old(outbox) + ToldOf(ref, Others(agents[..i], ref.agent))
      {
        assert agents[..i + 1] == agents[..i] + [agents[i]];
        OthersMore(agents[..i], agents[i], ref.agent);
        if agents[i] != ref.agent {
          outbox := outbox + [(ref.message, agents[i])];
        }
      }
      assert agents[..|agents|] == agents;
      assert outbox[|old(outbox)|..] == Told(members, ref);
      ToldAre(members, ref);
    }

    // A live stream is finished, its agents told, and its buffer forgotten, if
    // no error comes first; otherwise nothing changes.
    method FinishStream(ref: Ref, end: Ending, buttons: seq<Id>, fault: Fault) returns (answer: Answer)
      modifies this`rows, this`outbox, streams
      ensures forall k: nat ::
                Now(k + if answer.Ended? then 1 else 0) == FinishOne(old(Now(k)), members, ref, end, buttons, fault)
      ensures answer.Ended? <==> fault == NoFault && Owned(rows, ref)
      ensures answer.Ended? ==> answer.row == rows[ref.message] && !answer.row.streaming
      ensures answer.NotOwn? <==> fault == NoFault && !Owned(rows, ref)
      ensures old(outbox) <= outbox && forall m, a :: (m, a) in outbox[|old(outbox)|..] <==>
                && fault != Before && old(Live(rows, ref))
                && m == ref.message && m in members && a in members[m] && a != ref.agent
      ensures ref.message in members && Distinct(members[ref.message]) ==> Distinct(outbox[|old(outbox)|..])
      ensures var over := if fault != Before && old(Live(rows, ref)) then {ref} else {};
              streams.buffers == old(streams.buffers) - over && streams.active == old(streams.active) - over
    {
      if fault == Before {
        return Failed;
      }
      var text, _ := streams.Text(ref);
      if Live(rows, ref) {
        var row := Finished(rows[ref.message], Call(ref.agent, end, buttons, Reading), text);
        rows := rows[ref.message := row];
        FanOut(ref);
        streams.Remove(ref);
        if fault == Afterwards {
          return Failed;
        }
        return Ended(row);
      }
      // What is not its to finish may be finished already.
      if fault == Afterwards {
        return Failed;
      }
      if Owned(rows, ref) {
        return Ended(rows[ref.message]);
      }
      return NotOwn;
    }

    // Finishes every listed stream, each with the error it meets, if any. The
    // listing is the idle streams and then the stuck rows, so it may name a
    // stream twice.
    method SweepStreams(refs: seq<Ref>, faults: seq<Fault>) returns (finished: nat)
      requires |refs| == |faults|
      modifies this`rows, this`outbox, streams
      ensures Now(finished) == Sweep(old(Now(0)), members, refs, faults)
    {
      finished := 0;
      for i := 0 to |refs|
        invariant Now(finished) == Sweep(old(Now(0)), members, refs[..i], faults[..i])
      {
        assert refs[..i + 1][..i] == refs[..i] && faults[..i + 1][..i] == faults[..i];
        var answer := FinishStream(refs[i], EndedByHub, [], faults[i]);
        if answer.Ended? {
          finished := finished + 1;
        } else {
          streams.Remove(refs[i]);
        }
      }
      assert refs[..|refs|] == refs && faults[..|faults|] == faults;
    }

    // Stop's first loop: ends every reply being written.
    method EndReplies(open: seq<Ref>) returns (ended: seq<Row>, byAgent: map<Id, Id>)
      modifies this`rows, this`outbox, streams
      ensures ended == StoppedRows(rows, open)
      ensures forall a :: (if a in byAgent then Some(byAgent[a]) else None) == LastStopped(rows, open, a)
      ensures EndedClean(old(Now(0)), members, open, Now(0))
    {
      ended, byAgent := [], map[];
      ghost var was := Now(0);
      for i := 0 to |open|
        invariant EndedClean(was, members, open[..i], Now(0))
        invariant ended == StoppedRows(rows, open[..i])
        invariant forall a :: (if a in byAgent then Some(byAgent[a]) else None) == LastStopped(rows, open[..i], a)
      {
        var ref := open[i];
        assert open[..i + 1] == open[..i] + [ref];
        ghost var before := Now(0);
        OneMoreEnded(was, before, members, open[..i], ref);
        OneMoreAnswer(was, before, members, open[..i], ref);
        var answer := FinishStream(ref, EndedByPerson, [], NoFault);
        assert Now(if answer.Ended? then 1 else 0) == FinishOne(before, members, ref, EndedByPerson, [], NoFault);
        if answer.Ended? && answer.row.stopped {
          ended := ended + [answer.row];
          byAgent := byAgent[ref.agent := ref.message];
        }
      }
      assert open[..|open|] == open;
    }

    // Ends every reply being written, and tells each agent, naming at most
    // one of its replies.
    method Stop(open: seq<Ref>, agents: seq<Id>) returns (ended: seq<Row>)
      modifies this, streams
      ensures EndedClean(old(Now(0)), members, open, Now(0)) && members == old(members)
      ensures ended == StoppedRows(rows, open)
      ensures |events| == |old(events)| + |agents| && old(events) <= events
      ensures forall k :: 0 <= k < |agents| ==>
                events[|old(events)| + k] == StopRequested(agents[k], LastStopped(rows, open, agents[k]))
    {
      var byAgent;
      ended, byAgent := EndReplies(open);
      ghost var told, ending := events, Now(0);
      for k := 0 to |agents|
        invariant Now(0) == ending && members == old(members)
        invariant |events| == |told| + k && told <= events
        invariant forall n :: 0 <= n < k ==>
                    events[|told| + n] == StopRequested(agents[n], LastStopped(rows, open, agents[n]))
      {
        var message := if agents[k] in byAgent then Some(byAgent[agents[k]]) else None;
        events := events + [StopRequested(agents[k], message)];
      }
    }
  }
}
