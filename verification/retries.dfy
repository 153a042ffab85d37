// Webhook deliveries and their retries (server/internal/delivery/schedule.go
// and worker.go, with the statements of store/queries/deliveries.sql they
// run). Times are milliseconds.
module Retries {
  import opened Wrappers

  type Id = nat

  const SECOND := 1000
  const RETRY_DELAYS := [1 * SECOND, 5 * SECOND, 30 * SECOND, 120 * SECOND, 600 * SECOND, 3600 * SECOND]
  const RETRY_FOR := 86_400 * SECOND
  // How long a claimed row is its worker's alone.
  const LEASE := 30 * SECOND

  function Delay(attempt: int): int {
    var n := if attempt < 1 then 1 else attempt;
    if n <= |RETRY_DELAYS| then RETRY_DELAYS[n - 1] else RETRY_DELAYS[|RETRY_DELAYS| - 1]
  }

  // When to try again after a failed attempt, unless the day has run out.
  function NextAttempt(attempt: int, created: int, now: int): (next: Option<int>)
    ensures next.Some? ==> now + SECOND <= next.value <= created + RETRY_FOR && next.value <= now + 3600 * SECOND
  {
    var next := now + Delay(attempt);
    if next > created + RETRY_FOR then None else Some(next)
  }

  lemma DelaysGrow(a: int, b: int)
    requires a <= b
    ensures Delay(a) <= Delay(b)
  {
  }

  datatype Status = Pending | Delivered | Failed
  datatype Row = Row(status: Status, attempts: nat, nextAt: int, created: int)

  datatype Outcome = NoBinding | OtherMode | Succeeded | Refused

  // One attempt's outcome written to its row. Every statement matches only a
  // row still pending.
  function Recorded(row: Row, attempt: nat, outcome: Outcome, now: int): Row {
    if !row.status.Pending? then row else
    match outcome
    case NoBinding => row.(status := Failed)
    case OtherMode => row
    case Succeeded => row.(status := Delivered)
    case Refused =>
      var next := NextAttempt(attempt, row.created, now);
      if next.None? then row.(status := Failed) else row.(nextAt := next.value)
  }

  // What an outcome says of a row still pending: a success delivers it, a lost
  // binding fails it, and a refusal sets a retry after one, five and thirty
  // seconds, two and ten minutes, and an hour from then on, exactly when that
  // is within a day of its creation. Of any other row it says nothing.
  lemma OutcomesSay(row: Row, attempt: nat, outcome: Outcome, now: int)
    ensures var after := Recorded(row, attempt, outcome, now);
            var wait := if attempt <= 1 then 1_000
                        else if attempt == 2 then 5_000
                        else if attempt == 3 then 30_000
                        else if attempt == 4 then 120_000
                        else if attempt == 5 then 600_000
                        else 3_600_000;
            && (row.status != Pending || outcome == OtherMode ==> after == row)
            && (row.status == Pending && outcome == Succeeded ==> after == row.(status := Delivered))
            && (row.status == Pending && outcome == NoBinding ==> after == row.(status := Failed))
            && (row.status == Pending && outcome == Refused ==>
                  after == if now + wait <= row.created + 86_400_000 then row.(nextAt := now + wait)
                           else row.(status := Failed))
  {
  }

  // ---- The pass ----------------------------------------------------------

  datatype Attempt = Attempt(id: Id, number: nat, created: int, outcome: Outcome, now: int)

  class Worker {
    var rows: map<Id, Row>

    constructor (rows: map<Id, Row>)
      ensures this.rows == rows
    {
      this.rows := rows;
    }

    method MarkFailed(id: Id)
      requires id in rows
      modifies this
      ensures old(rows)[id].status.Pending? ==> rows == old(rows)[id := old(rows)[id].(status := Failed)]
      ensures !old(rows)[id].status.Pending? ==> rows == old(rows)
    {
      if rows[id].status.Pending? { rows := rows[id := rows[id].(status := Failed)]; }
    }

    method Record(a: Attempt)
      requires a.id in rows && rows[a.id].created == a.created
      modifies this
      ensures rows == old(rows)[a.id := Recorded(old(rows)[a.id], a.number, a.outcome, a.now)]
    {
      match a.outcome
      case NoBinding => MarkFailed(a.id);
      case OtherMode =>
      case Succeeded =>
        if rows[a.id].status.Pending? { rows := rows[a.id := rows[a.id].(status := Delivered)]; }
      case Refused =>
        var next := NextAttempt(a.number, a.created, a.now);
        if next.None? {
          MarkFailed(a.id);
        } else if rows[a.id].status.Pending? {
          rows := rows[a.id := rows[a.id].(nextAt := next.value)];
        }
    }

    // The end of RunOnce: each attempt's outcome reaches its own row, and no
    // other row is touched.
    method RecordAll(attempts: seq<Attempt>)
      requires forall i :: 0 <= i < |attempts| ==>
                 attempts[i].id in rows && rows[attempts[i].id].created == attempts[i].created
      requires forall i, j :: 0 <= i < j < |attempts| ==> attempts[i].id != attempts[j].id
      modifies this
      ensures rows.Keys == old(rows).Keys
      ensures forall i :: 0 <= i < |attempts| ==>
                var a := attempts[i];
                rows[a.id] == Recorded(old(rows)[a.id], a.number, a.outcome, a.now)
      ensures forall id :: id in rows && (forall i :: 0 <= i < |attempts| ==> attempts[i].id != id) ==>
                rows[id] == old(rows)[id]
    {
      ghost var was := rows;
      for i := 0 to |attempts|
        invariant rows.Keys == was.Keys
        invariant forall k :: 0 <= k < i ==>
                    var a := attempts[k]; rows[a.id] == Recorded(was[a.id], a.number, a.outcome, a.now)
        invariant forall k :: i <= k < |attempts| ==> rows[attempts[k].id] == was[attempts[k].id]
        invariant forall id :: id in rows && (forall k :: 0 <= k < i ==> attempts[k].id != id) ==> rows[id] == was[id]
      {
        Record(attempts[i]);
      }
    }
  }

  // ---- Whole runs of one delivery ---------------------------------------

  // Claims not yet recorded, by attempt number, with when they were made; a
  // worker that dies leaves its claim here. `failures` is history: every
  // failed attempt recorded, with its number and when.
  datatype Failure = Failure(attempt: nat, at: int)
  datatype State = State(row: Row, claims: map<nat, int>, clock: int, failures: seq<Failure>)

  datatype Step =
    | Claim(now: int)
    | Record(attempt: nat, outcome: Outcome, now: int)
    | Expire(now: int)          // FailExpiredDeliveries

  function Start(created: int): State { State(Row(Pending, 0, created, created), map[], created, []) }

  function Next(s: State, step: Step): State {
    if step.now < s.clock then s else
    match step
    case Claim(now) =>
      if s.row.status.Pending? && s.row.nextAt <= now then
        s.(row := s.row.(attempts := s.row.attempts + 1, nextAt := now + LEASE),
           claims := s.claims[s.row.attempts + 1 := now], clock := now)
      else s
    case Record(attempt, outcome, now) =>
      if attempt in s.claims then
        s.(row := Recorded(s.row, attempt, outcome, now), claims := s.claims - {attempt}, clock := now,
           failures := if outcome.Refused? then s.failures + [Failure(attempt, now)] else s.failures)
      else s
    case Expire(now) =>
      if s.row.status.Pending? && s.row.created < now - RETRY_FOR
      then s.(row := s.row.(status := Failed), clock := now) else s
  }

  function Run(s: State, steps: seq<Step>): State
    decreases |steps|
  {
    if steps == [] then s else Run(Next(s, steps[0]), steps[1..])
  }

  // An outcome recorded less than so long after its claim.
  predicate InTime(s: State, step: Step, late: int) {
    step.Record? && step.attempt in s.claims ==> step.now < s.claims[step.attempt] + late
  }

  predicate AllInTime(s: State, steps: seq<Step>, late: int)
    decreases |steps|
  {
    steps == [] || (InTime(s, steps[0], late) && AllInTime(Next(s, steps[0]), steps[1..], late))
  }

  // The least time from creation to the n-th failure.
  function Soonest(n: nat): nat {
    if n <= 1 then 0 else Soonest(n - 1) + Delay(n - 1)
  }

  lemma {:induction false} SoonestIs(n: nat)
    requires n >= 6
    ensures Soonest(n) == (756 + 3600 * (n - 6)) * SECOND
  {
    if n == 6 {
      assert Soonest(2) == 1000 && Soonest(3) == 6000 && Soonest(4) == 36000 && Soonest(5) == 156000;
    } else {
      SoonestIs(n - 1);
    }
  }

  // Failures are recorded in the order of their attempts, each once.
  ghost predicate InOrder(s: State) {
    var n := |s.failures|;
    && (forall i :: 0 <= i < n ==> s.failures[i].attempt <= s.row.attempts && i < s.failures[i].attempt)
    && (forall i, j :: 0 <= i < j < n ==> s.failures[i].attempt < s.failures[j].attempt)
    && (forall i :: 0 <= i < n ==> s.failures[i].attempt !in s.claims)
  }

  ghost predicate Inv(s: State) {
    var n := |s.failures|;
    && s.row.created <= s.clock
    && InOrder(s)
    // A claim that can still be recorded in its lease is the latest one.
    && (forall a :: a in s.claims ==> 0 < a <= s.row.attempts && s.claims[a] <= s.clock)
    && (forall a :: a in s.claims && a < s.row.attempts ==> s.claims[a] + LEASE <= s.clock)
    && (s.row.attempts in s.claims && s.row.status.Pending? ==> s.row.nextAt == s.claims[s.row.attempts] + LEASE)
    && (s.row.attempts in s.claims ==>
          n <= 28 && s.claims[s.row.attempts] >= s.row.created + Soonest(n + 1)
          && (forall i :: 0 <= i < n ==> s.failures[i].attempt < s.row.attempts))
    && (s.row.status.Pending? ==> n <= 28 && s.row.nextAt >= s.row.created + Soonest(n + 1))
    && n <= 29
  }

  lemma ClaimKeepsInv(s: State, now: int)
    requires Inv(s)
    ensures Inv(Next(s, Claim(now)))
  {
  }

  lemma ExpireKeepsInv(s: State, now: int)
    requires Inv(s)
    ensures Inv(Next(s, Expire(now)))
  {
  }

  // The next failure comes no sooner than its turn, and past the 28th no
  // retry is set.
  lemma FailureBounds(row: Row, n: nat, attempt: nat, now: int)
    requires attempt >= n + 1 && n <= 28 && row.status.Pending? && now >= row.created + Soonest(n + 1)
    ensures var after := Recorded(row, attempt, Refused, now);
            after.status.Pending? ==> n + 1 <= 28 && after.nextAt >= row.created + Soonest(n + 2)
  {
    DelaysGrow(n + 1, attempt);
    if n == 28 { SoonestIs(30); }
  }

  lemma RefusalKeepsOrder(s: State, attempt: nat, now: int)
    requires InOrder(s) && attempt in s.claims && attempt == s.row.attempts && now >= s.clock
    requires forall i :: 0 <= i < |s.failures| ==> s.failures[i].attempt < attempt
    requires |s.failures| < attempt
    ensures InOrder(Next(s, Record(attempt, Refused, now)))
  {
  }

  lemma RefusalKeepsInv(s: State, attempt: nat, now: int)
    requires Inv(s) && InTime(s, Record(attempt, Refused, now), LEASE) && now >= s.clock && attempt in s.claims
    ensures Inv(Next(s, Record(attempt, Refused, now)))
  {
    var t := Next(s, Record(attempt, Refused, now));
    assert attempt == s.row.attempts && attempt !in t.claims;
    var n := |s.failures|;
    if n > 0 { assert n - 1 < s.failures[n - 1].attempt < attempt; }
    RefusalKeepsOrder(s, attempt, now);
    if s.row.status.Pending? { FailureBounds(s.row, n, attempt, now); }
  }

  lemma OutcomeKeepsInv(s: State, attempt: nat, outcome: Outcome, now: int)
    requires Inv(s) && !outcome.Refused? && now >= s.clock && attempt in s.claims
    ensures Inv(Next(s, Record(attempt, outcome, now)))
  {
    var t := Next(s, Record(attempt, outcome, now));
    assert t.failures == s.failures && t.claims == s.claims - {attempt};
  }

  lemma RecordKeepsInv(s: State, attempt: nat, outcome: Outcome, now: int)
    requires Inv(s) && InTime(s, Record(attempt, outcome, now), LEASE)
    ensures Inv(Next(s, Record(attempt, outcome, now)))
  {
    if now >= s.clock && attempt in s.claims {
      if outcome.Refused? {
        RefusalKeepsInv(s, attempt, now);
      } else {
        OutcomeKeepsInv(s, attempt, outcome, now);
      }
    }
  }

  lemma {:induction false} RunKeepsInv(s: State, steps: seq<Step>)
    requires Inv(s) && AllInTime(s, steps, LEASE)
    ensures Inv(Run(s, steps))
    decreases |steps|
  {
    if steps != [] {
      match steps[0] {
        case Claim(now) => ClaimKeepsInv(s, now);
        case Record(attempt, outcome, now) => RecordKeepsInv(s, attempt, outcome, now);
        case Expire(now) => ExpireKeepsInv(s, now);
      }
      RunKeepsInv(Next(s, steps[0]), steps[1..]);
    }
  }

  // The delay after each recorded failure is at least the one before.
  ghost predicate NeverShrinks(s: State) {
    forall i, j :: 0 <= i < j < |s.failures| ==> Delay(s.failures[i].attempt) <= Delay(s.failures[j].attempt)
  }

  // In every run in which outcomes are recorded within their leases, however
  // many leases are lost: the delays never shrink, and at most 29 failures
  // are recorded.
  lemma RetriesAreBounded(created: int, steps: seq<Step>)
    requires AllInTime(Start(created), steps, 30_000)
    ensures var s := Run(Start(created), steps);
            && |s.failures| <= 29
            && (s.row.status.Pending? ==> |s.failures| <= 28)
            && NeverShrinks(s)
  {
    RunKeepsInv(Start(created), steps);
    var s := Run(Start(created), steps);
    forall i, j | 0 <= i < j < |s.failures|
      ensures Delay(s.failures[i].attempt) <= Delay(s.failures[j].attempt)
    {
      DelaysGrow(s.failures[i].attempt, s.failures[j].attempt);
    }
  }

  // A retry is never set later than a day after creation, nor sooner than its
  // delay; and what is delivered or failed stays so. True of every step.
  lemma RetryWithinTheDay(s: State, step: Step)
    ensures var t := Next(s, step);
            && (!s.row.status.Pending? ==> t.row == s.row)
            && (step.Record? && t.row.nextAt != s.row.nextAt ==>
                  step.now + Delay(step.attempt) == t.row.nextAt <= t.row.created + RETRY_FOR)
  {
  }

  // A row is claimed exactly when it is pending and its time has come, for
  // thirty seconds at most; and is given up without an attempt exactly when it
  // is pending a day after its creation.
  lemma ClaimedWhenDue(s: State, now: int)
    requires now >= s.clock
    ensures var claimed, expired := Next(s, Claim(now)), Next(s, Expire(now));
            && (if s.row.status == Pending && s.row.nextAt <= now
                then && claimed.row == s.row.(attempts := s.row.attempts + 1, nextAt := now + 30_000)
                     && claimed.claims == s.claims[claimed.row.attempts := now]
                else claimed.row == s.row && claimed.claims == s.claims)
            && expired.row == (if s.row.status == Pending && now - s.row.created > 86_400_000
                               then s.row.(status := Failed) else s.row)
  {
  }

  // ---- Outcomes recorded late -------------------------------------------

  lemma {:induction false} Stricter(s: State, steps: seq<Step>, late: int, later: int)
    requires AllInTime(s, steps, late) && late <= later
    ensures AllInTime(s, steps, later)
    decreases |steps|
  {
    if steps != [] {
      Stricter(Next(s, steps[0]), steps[1..], late, later);
    }
  }

  lemma {:induction false} InTimeConcat(s: State, a: seq<Step>, b: seq<Step>, late: int)
    requires AllInTime(s, a, late) && AllInTime(Run(s, a), b, late)
    ensures AllInTime(s, a + b, late)
    decreases |a|
  {
    if a == [] {
      assert a + b == b;
    } else {
      assert (a + b)[1..] == a[1..] + b && (a + b)[0] == a[0];
      InTimeConcat(Next(s, a[0]), a[1..], b, late);
    }
  }

  // A worker that records an outcome just as its lease ends can set a shorter
  // delay than the worker after it.
  function Overtaken(created: int): seq<Step> {
    [Claim(created), Claim(created + LEASE), Record(2, Refused, created + LEASE), Record(1, Refused, created + LEASE)]
  }

  lemma LateRecordShrinksDelay(created: int, late: int)
    requires late > LEASE
    ensures AllInTime(Start(created), Overtaken(created), late)
    ensures var s := Run(Start(created), Overtaken(created));
            !NeverShrinks(s) && s.row.nextAt == created + LEASE + Delay(1)
  {
    var steps := Overtaken(created);
    var s1 := Next(Start(created), steps[0]);
    var s2 := Next(s1, steps[1]);
    assert s2.claims == map[1 := created, 2 := created + LEASE];
    var s3 := Next(s2, steps[2]);
    var s4 := Next(s3, steps[3]);
    assert s4.failures == [Failure(2, created + LEASE), Failure(1, created + LEASE)];
    FourSteps(Start(created), steps, late);
    assert Delay(s4.failures[0].attempt) > Delay(s4.failures[1].attempt);
  }

  lemma FourSteps(s: State, steps: seq<Step>, late: int)
    requires |steps| == 4
    ensures var s1 := Next(s, steps[0]);
            var s2 := Next(s1, steps[1]);
            var s3 := Next(s2, steps[2]);
            && Run(s, steps) == Next(s3, steps[3])
            && (AllInTime(s, steps, late) <==>
                  && InTime(s, steps[0], late) && InTime(s1, steps[1], late)
                  && InTime(s2, steps[2], late) && InTime(s3, steps[3], late))
  {
    var b := steps[1..];
    var c := b[1..];
    var d := c[1..];
    assert b[0] == steps[1] && c[0] == steps[2] && d[0] == steps[3] && d[1..] == [];
    var s1 := Next(s, steps[0]);
    var s2 := Next(s1, b[0]);
    var s3 := Next(s2, c[0]);
    OneStep(s, steps, late);
    OneStep(s1, b, late);
    OneStep(s2, c, late);
    OneStep(s3, d, late);
  }

  lemma OneStep(s: State, steps: seq<Step>, late: int)
    requires steps != []
    ensures Run(s, steps) == Run(Next(s, steps[0]), steps[1..])
    ensures AllInTime(s, steps, late) <==> InTime(s, steps[0], late) && AllInTime(Next(s, steps[0]), steps[1..], late)
    ensures |steps| == 1 ==> Run(s, steps) == Next(s, steps[0])
    ensures |steps| == 1 ==> (AllInTime(s, steps, late) <==> InTime(s, steps[0], late))
  {
    if |steps| == 1 {
      assert steps[1..] == [];
    }
  }

  // Two workers a lease apart, both recording as the first one's lease ends:
  // twice the failures.
  function LateRound(s: State): seq<Step> {
    var now := s.row.nextAt;
    var n := s.row.attempts;
    [Claim(now), Claim(now + LEASE), Record(n + 1, Refused, now + LEASE), Record(n + 2, Refused, now + LEASE)]
  }

  const ROUND: int := LEASE + 3600 * SECOND

  ghost predicate ReadyForRound(s: State) {
    s.row.status.Pending? && s.row.attempts >= 6 && s.clock <= s.row.nextAt
    && (forall a :: a in s.claims ==> a <= s.row.attempts)
    && s.row.nextAt + ROUND <= s.row.created + RETRY_FOR
  }

  lemma LateRoundFails(s: State, late: int)
    requires ReadyForRound(s) && late > LEASE
    ensures AllInTime(s, LateRound(s), late)
    ensures var t := Run(s, LateRound(s));
            && t.row == Row(Pending, s.row.attempts + 2, s.row.nextAt + ROUND, s.row.created)
            && |t.failures| == |s.failures| + 2 && t.clock == s.row.nextAt + LEASE
            && (forall a :: a in t.claims ==> a <= s.row.attempts)
  {
    var steps := LateRound(s);
    var n := s.row.attempts;
    var now := s.row.nextAt;
    var s1 := Next(s, steps[0]);
    assert s1 == s.(row := s.row.(attempts := n + 1, nextAt := now + LEASE),
                    claims := s.claims[n + 1 := now], clock := now);
    var s2 := Next(s1, steps[1]);
    assert s2.row == s.row.(attempts := n + 2, nextAt := now + 2 * LEASE);
    assert s2.claims == s.claims[n + 1 := now][n + 2 := now + LEASE];
    assert Delay(n + 1) == Delay(n + 2) == 3600 * SECOND;
    FourSteps(s, steps, late);
  }

  lemma {:induction false} RunConcat(s: State, a: seq<Step>, b: seq<Step>)
    ensures Run(s, a + b) == Run(Run(s, a), b)
    decreases |a|
  {
    if a == [] {
      assert a + b == b;
    } else {
      assert (a + b)[1..] == a[1..] + b && (a + b)[0] == a[0];
      RunConcat(Next(s, a[0]), a[1..], b);
    }
  }

  lemma {:induction false} LateRounds(s: State, k: nat, late: int) returns (steps: seq<Step>)
    requires s.row.status.Pending? && s.row.attempts >= 6 && s.clock <= s.row.nextAt && late > LEASE
    requires forall a :: a in s.claims ==> a <= s.row.attempts
    requires s.row.nextAt + k * ROUND <= s.row.created + RETRY_FOR
    ensures AllInTime(s, steps, late) && |Run(s, steps).failures| == |s.failures| + 2 * k
    decreases k
  {
    steps := [];
    if k > 0 {
      LateRoundFails(s, late);
      var rest := LateRounds(Run(s, LateRound(s)), k - 1, late);
      steps := LateRound(s) + rest;
      RunConcat(s, LateRound(s), rest);
      InTimeConcat(s, LateRound(s), rest, late);
    }
  }

  lemma {:induction false} LostLeases(created: int, k: nat, late: int) returns (steps: seq<Step>)
    ensures AllInTime(Start(created), steps, late)
    ensures var s := Run(Start(created), steps);
            && s.row == Row(Pending, k, created + k * LEASE, created) && s.failures == [] && s.clock <= s.row.nextAt
            && (forall a :: a in s.claims ==> a <= k)
    decreases k
  {
    steps := [];
    if k > 0 {
      var before := LostLeases(created, k - 1, late);
      var s := Run(Start(created), before);
      var claim := [Claim(s.row.nextAt)];
      RunConcat(Start(created), before, claim);
      InTimeConcat(Start(created), before, claim, late);
      steps := before + claim;
      assert Run(s, claim) == Next(s, Claim(s.row.nextAt));
    }
  }

  // Recorded late, more than 29 failures are possible: here 46.
  lemma LateRecordsExceedTheBound(created: int, late: int) returns (steps: seq<Step>)
    requires late > LEASE
    ensures AllInTime(Start(created), steps, late) && |Run(Start(created), steps).failures| == 46
  {
    var lost := LostLeases(created, 6, late);
    var rounds := LateRounds(Run(Start(created), lost), 23, late);
    RunConcat(Start(created), lost, rounds);
    InTimeConcat(Start(created), lost, rounds, late);
    steps := lost + rounds;
  }

  // What is promised of a run.
  ghost predicate Bounded(created: int, steps: seq<Step>) {
    |Run(Start(created), steps).failures| <= 29
  }

  ghost predicate Growing(created: int, steps: seq<Step>) {
    NeverShrinks(Run(Start(created), steps))
  }

  // So the bound holds of every run of workers that record less than so long
  // after claiming, exactly when that is no longer than a lease;
  lemma BoundHoldsExactly(created: int, late: int)
    ensures (forall steps :: AllInTime(Start(created), steps, late) ==> Bounded(created, steps)) <==> late <= 30_000
  {
    if late <= LEASE {
      forall steps | AllInTime(Start(created), steps, late) ensures Bounded(created, steps) {
        Stricter(Start(created), steps, late, LEASE);
        RetriesAreBounded(created, steps);
      }
    } else {
      var steps := LateRecordsExceedTheBound(created, late);
      assert !Bounded(created, steps);
    }
  }

  // and so do delays that never shrink.
  lemma DelaysGrowExactly(created: int, late: int)
    ensures (forall steps :: AllInTime(Start(created), steps, late) ==> Growing(created, steps)) <==> late <= 30_000
  {
    if late <= LEASE {
      forall steps | AllInTime(Start(created), steps, late) ensures Growing(created, steps) {
        Stricter(Start(created), steps, late, LEASE);
        RetriesAreBounded(created, steps);
      }
    } else {
      LateRecordShrinksDelay(created, late);
      assert !Growing(created, Overtaken(created));
    }
  }
}
