// The token bucket every limit of the hub is kept in
// (server/internal/ratelimit/ratelimit.go). The script's numbers are reals
// here; times are the caller's clock, in milliseconds.
module RateLimit {
  import opened Wrappers

  // A full bucket holds `burst` tokens, and `rate` more come every second.
  datatype Policy = Policy(rate: real, burst: int)
  datatype Bucket = Bucket(tokens: real, ts: int)
  datatype Answer = Answer(allowed: bool, retryMs: int)

  predicate Usable(p: Policy) { p.rate > 0.0 }

  function Ceil(x: real): (n: int)
    ensures (n - 1) as real < x <= n as real
  {
    -((-x).Floor)
  }

  function Min(a: real, b: real): real { if a < b then a else b }

  // The tokens a span of the clock brings; none for a clock gone back.
  function Gain(p: Policy, ms: int): real {
    if ms <= 0 then 0.0 else ms as real / 1000.0 * p.rate
  }

  // The bucket's tokens as the script sees them at `now`, before it spends.
  function Level(p: Policy, b: Option<Bucket>, now: int): real {
    match b
    case None => p.burst as real
    case Some(b) => Min(p.burst as real, b.tokens + Gain(p, now - b.ts))
  }

  // The script: what it answers, and the bucket it writes back. The cost is
  // always one token.
  function Script(p: Policy, b: Option<Bucket>, now: int): (Answer, Bucket)
    requires Usable(p)
  {
    var tokens := Level(p, b, now);
    if tokens >= 1.0 then (Answer(true, 0), Bucket(tokens - 1.0, now))
    else (Answer(false, Ceil((1.0 - tokens) / p.rate * 1000.0)), Bucket(tokens, now))
  }

  // How long the key lives after a call.
  function TimeToLive(p: Policy): int
    requires Usable(p)
  {
    Ceil(p.burst as real / p.rate * 1000.0) + 1000
  }

  ghost predicate Good(p: Policy, b: Option<Bucket>) {
    b.Some? ==> 0.0 <= b.value.tokens <= p.burst as real
  }

  // ---- Arithmetic of a span ---------------------------------------------

  lemma GainSums(p: Policy, a: int, b: int)
    requires Usable(p) && a >= 0 && b >= 0
    ensures Gain(p, a + b) == Gain(p, a) + Gain(p, b) && Gain(p, a) >= 0.0
  {
    assert (a as real + b as real) / 1000.0 * p.rate == a as real / 1000.0 * p.rate + b as real / 1000.0 * p.rate;
    assert a as real / 1000.0 * p.rate >= 0.0;
  }

  // A span brings x tokens exactly when it is x / rate seconds or more.
  lemma GainReaches(p: Policy, ms: int, x: real)
    requires Usable(p) && ms >= 0 && x > 0.0
    ensures Gain(p, ms) >= x <==> ms >= Ceil(x / p.rate * 1000.0)
  {
    var need := x / p.rate * 1000.0;
    var have := ms as real;
    assert need * p.rate == x * 1000.0;
    if have >= need {
      assert have * p.rate >= need * p.rate;
      assert have / 1000.0 * p.rate >= x;
    } else {
      assert have * p.rate < need * p.rate;
      assert have / 1000.0 * p.rate < x;
    }
    if ms >= Ceil(need) { assert have >= Ceil(need) as real; } else { assert ms <= Ceil(need) - 1; }
  }

  // ---- One call ----------------------------------------------------------

  // Stored tokens stay within 0 and Burst, and the wait a caller is given is
  // zero exactly when it may go ahead.
  lemma CallKeepsGood(p: Policy, b: Option<Bucket>, now: int)
    requires Usable(p) && p.burst >= 0 && Good(p, b)
    ensures var (answer, after) := Script(p, b, now);
            Good(p, Some(after)) && after.ts == now && (answer.retryMs == 0 <==> answer.allowed) && answer.retryMs >= 0
  {
    var tokens := Level(p, b, now);
    if b.Some? && now - b.value.ts > 0 { GainSums(p, now - b.value.ts, 0); }
    if tokens < 1.0 {
      var x := (1.0 - tokens) / p.rate * 1000.0;
      assert (1.0 - tokens) / p.rate > 0.0;
      assert x > 0.0;
    }
  }

  // A refusal names the wait exactly: a call after it is admitted, a call a
  // millisecond or more before it is not.
  lemma RetryIsExact(p: Policy, b: Option<Bucket>, now: int, wait: nat)
    requires Usable(p) && p.burst >= 1 && Good(p, b)
    requires !Script(p, b, now).0.allowed
    ensures var (answer, after) := Script(p, b, now);
            Script(p, Some(after), now + wait).0.allowed <==> wait >= answer.retryMs
  {
    var tokens := Level(p, b, now);
    GainReaches(p, wait, 1.0 - tokens);
    if wait > 0 { GainSums(p, wait, 0); }
  }

  // A bucket of no burst admits nothing, ever.
  lemma NoBurst(p: Policy, b: Option<Bucket>, now: int)
    requires Usable(p) && p.burst < 1
    ensures !Script(p, b, now).0.allowed
  {
  }

  // ---- Sequences of calls on one key ------------------------------------

  function Answers(p: Policy, b: Option<Bucket>, times: seq<int>): seq<Answer>
    requires Usable(p)
    decreases |times|
  {
    if times == [] then [] else
    var (answer, after) := Script(p, b, times[0]);
    [answer] + Answers(p, Some(after), times[1..])
  }

  function After(p: Policy, b: Option<Bucket>, times: seq<int>): Option<Bucket>
    requires Usable(p)
    decreases |times|
  {
    if times == [] then b else After(p, Some(Script(p, b, times[0]).1), times[1..])
  }

  function Admitted(answers: seq<Answer>): nat {
    if answers == [] then 0 else (if answers[0].allowed then 1 else 0) + Admitted(answers[1..])
  }

  // How far the clock moved forward, all told.
  function Climb(from: int, times: seq<int>): nat
    decreases |times|
  {
    if times == [] then 0 else (if times[0] > from then times[0] - from else 0) + Climb(times[0], times[1..])
  }

  predicate Rising(from: int, times: seq<int>)
    decreases |times|
  {
    times == [] || (from <= times[0] && Rising(times[0], times[1..]))
  }

  lemma {:induction false} SpentIsEarned(p: Policy, b: Bucket, times: seq<int>)
    requires Usable(p) && p.burst >= 0 && Good(p, Some(b))
    ensures Admitted(Answers(p, Some(b), times)) as real <= b.tokens + Gain(p, Climb(b.ts, times))
    decreases |times|
  {
    if times != [] {
      var now := times[0];
      var (answer, after) := Script(p, Some(b), now);
      CallKeepsGood(p, Some(b), now);
      SpentIsEarned(p, after, times[1..]);
      var up := if now > b.ts then now - b.ts else 0;
      GainSums(p, up, Climb(now, times[1..]));
      assert Answers(p, Some(b), times)[1..] == Answers(p, Some(after), times[1..]);
    }
  }

  // Whatever the clock does, the calls admitted over a stretch number at most
  // Burst, plus Rate for every second the clock moved forward.
  lemma AdmittedAtMost(p: Policy, b: Option<Bucket>, times: seq<int>)
    requires Usable(p) && p.burst >= 0 && Good(p, b) && times != []
    ensures Admitted(Answers(p, b, times)) as real <= p.burst as real + Gain(p, Climb(times[0], times))
  {
    var (answer, after) := Script(p, b, times[0]);
    CallKeepsGood(p, b, times[0]);
    SpentIsEarned(p, after, times[1..]);
    assert Answers(p, b, times)[1..] == Answers(p, Some(after), times[1..]);
  }

  lemma {:induction false} RisingClimb(from: int, times: seq<int>)
    requires Rising(from, times)
    ensures Climb(from, times) == if times == [] then 0 else times[|times| - 1] - from
    ensures forall i :: 0 <= i < |times| ==> from <= times[i]
    decreases |times|
  {
    if times != [] {
      RisingClimb(times[0], times[1..]);
      if |times| > 1 { assert times[1..][|times| - 2] == times[|times| - 1]; }
      forall i | 0 <= i < |times| ensures from <= times[i] {
        if i > 0 { assert times[i] == times[1..][i - 1]; }
      }
    }
  }

  lemma {:induction false} AfterKeepsGood(p: Policy, b: Option<Bucket>, times: seq<int>)
    requires Usable(p) && p.burst >= 0 && Good(p, b)
    ensures Good(p, After(p, b, times))
    decreases |times|
  {
    if times != [] {
      CallKeepsGood(p, b, times[0]);
      AfterKeepsGood(p, Some(Script(p, b, times[0]).1), times[1..]);
    }
  }

  lemma RisingGain(p: Policy, times: seq<int>, n: nat)
    requires times != [] && Rising(times[0], times)
    requires n as real <= p.burst as real + Gain(p, Climb(times[0], times))
    ensures times[|times| - 1] >= times[0]
    ensures n as real <= p.burst as real + Gain(p, times[|times| - 1] - times[0])
  {
    RisingClimb(times[0], times);
  }

  // The limit itself: of any calls on a key, those admitted from one call to
  // a later one, by a clock that does not go back, number at most Burst plus
  // Rate for each second between the two.
  lemma AdmittedBetween(p: Policy, before: seq<int>, times: seq<int>)
    requires Usable(p) && p.burst >= 0 && times != [] && Rising(times[0], times)
    ensures times[|times| - 1] >= times[0]
    ensures Admitted(Answers(p, After(p, None, before), times)) as real
            <= p.burst as real + Gain(p, times[|times| - 1] - times[0])
  {
    AfterKeepsGood(p, None, before);
    AdmittedAtMost(p, After(p, None, before), times);
    RisingGain(p, times, Admitted(Answers(p, After(p, None, before), times)));
  }

  // A clock that goes back is paid for twice: two calls admitted at one
  // instant by a bucket of one token a second and no more.
  lemma BackwardClock()
    ensures Answers(Policy(1.0, 1), None, [0, -1000, 0])
            == [Answer(true, 0), Answer(false, 1000), Answer(true, 0)]
  {
    var p := Policy(1.0, 1);
    var s1 := Script(p, None, 0);
    assert s1 == (Answer(true, 0), Bucket(0.0, 0));
    var s2 := Script(p, Some(s1.1), -1000);
    assert s2 == (Answer(false, 1000), Bucket(0.0, -1000));
    var s3 := Script(p, Some(s2.1), 0);
    assert s3.0 == Answer(true, 0);
    var times := [0, -1000, 0];
    assert times[1..] == [-1000, 0] && times[1..][1..] == [0] && times[1..][1..][1..] == [];
    assert Answers(p, Some(s3.1), []) == [];
    assert Answers(p, Some(s2.1), [0]) == [s3.0];
    assert Answers(p, Some(s1.1), [-1000, 0]) == [s2.0] + [s3.0];
  }

  // What the limit promises of calls at these times, after any others.
  ghost predicate Within(p: Policy, before: seq<int>, times: seq<int>)
    requires Usable(p) && times != []
  {
    Admitted(Answers(p, After(p, None, before), times)) as real
    <= p.burst as real + Gain(p, times[|times| - 1] - times[0])
  }

  // A bucket that gains a whole token over a stretch admits some call of it.
  lemma {:induction false} SomeAdmitted(p: Policy, b: Bucket, times: seq<int>)
    requires Usable(p) && p.burst == 1 && 0.0 <= b.tokens < 1.0
    requires b.tokens + Gain(p, Climb(b.ts, times)) >= 1.0
    ensures Admitted(Answers(p, Some(b), times)) >= 1
    decreases |times|
  {
    if times != [] {
      var now := times[0];
      var up := if now > b.ts then now - b.ts else 0;
      var rest := Climb(now, times[1..]);
      GainSums(p, up, rest);
      var (answer, after) := Script(p, Some(b), now);
      assert Answers(p, Some(b), times) == [answer] + Answers(p, Some(after), times[1..]);
      if !answer.allowed {
        assert after.tokens == b.tokens + Gain(p, up);
        SomeAdmitted(p, after, times[1..]);
      }
    }
  }

  // One token for every stretch the clock climbs, and no more at a time.
  function OneAClimb(climb: nat): Policy
    requires climb > 0
  {
    Policy(1000.0 / climb as real, 1)
  }

  lemma OneAClimbGains(climb: nat, ms: int)
    requires climb > 0
    ensures Usable(OneAClimb(climb)) && Gain(OneAClimb(climb), climb) == 1.0
    ensures ms < climb ==> Gain(OneAClimb(climb), ms) < 1.0
  {
    var c := climb as real;
    assert c / 1000.0 * (1000.0 / c) == 1.0;
    if 0 < ms < climb {
      assert ms as real / 1000.0 * (1000.0 / c) < c / 1000.0 * (1000.0 / c);
    }
  }

  lemma GainGrows(p: Policy, a: int, b: int)
    requires Usable(p) && (a <= b || a <= 0)
    ensures Gain(p, a) <= Gain(p, b)
  {
    if 0 < a { GainSums(p, a, b - a); } else if 0 < b { GainSums(p, b, 0); }
  }

  // The calls for which every policy keeps to its limit are exactly those
  // over which the clock moves forward no further, all told, than from the
  // first of them to the last.
  lemma LimitHoldsExactly(times: seq<int>)
    requires times != []
    ensures (forall p: Policy, before: seq<int> :: Usable(p) && p.burst >= 0 ==> Within(p, before, times)) <==>
            (var elapsed := times[|times| - 1] - times[0];
             Climb(times[0], times) <= if elapsed > 0 then elapsed else 0)
  {
    var elapsed, climb := times[|times| - 1] - times[0], Climb(times[0], times);
    if climb <= if elapsed > 0 then elapsed else 0 {
      forall p: Policy, before: seq<int> | Usable(p) && p.burst >= 0 ensures Within(p, before, times) {
        AfterKeepsGood(p, None, before);
        AdmittedAtMost(p, After(p, None, before), times);
        GainGrows(p, climb, elapsed);
      }
    } else {
      LimitBroken(times);
      assert !Within(OneAClimb(climb), [], times);
    }
  }

  lemma {:induction false} LimitBroken(times: seq<int>)
    requires times != [] && Climb(times[0], times) > 0
    requires Climb(times[0], times) > times[|times| - 1] - times[0]
    ensures Usable(OneAClimb(Climb(times[0], times))) && !Within(OneAClimb(Climb(times[0], times)), [], times)
  {
    var climb := Climb(times[0], times);
    var p := OneAClimb(climb);
    OneAClimbGains(climb, times[|times| - 1] - times[0]);
    var (answer, after) := Script(p, None, times[0]);
    assert answer.allowed && after == Bucket(0.0, times[0]);
    assert Answers(p, None, times) == [answer] + Answers(p, Some(after), times[1..]);
    SomeAdmitted(p, after, times[1..]);
    assert Admitted(Answers(p, None, times)) >= 2;
    assert After(p, None, []) == None;
  }

  // ---- Neither more nor less --------------------------------------------

  lemma {:induction false} OneMoreCall(p: Policy, b: Option<Bucket>, times: seq<int>, now: int)
    requires Usable(p)
    ensures var here := After(p, b, times);
            && Answers(p, b, times + [now]) == Answers(p, b, times) + [Script(p, here, now).0]
            && After(p, b, times + [now]) == Some(Script(p, here, now).1)
            && |Answers(p, b, times)| == |times|
    decreases |times|
  {
    if times == [] {
      assert ([] + [now])[1..] == [] && Answers(p, Some(Script(p, b, now).1), []) == [];
    } else {
      assert (times + [now])[1..] == times[1..] + [now];
      OneMoreCall(p, Some(Script(p, b, times[0]).1), times[1..], now);
    }
  }

  lemma {:induction false} OneMoreAdmitted(answers: seq<Answer>, answer: Answer)
    ensures Admitted(answers + [answer]) == Admitted(answers) + if answer.allowed then 1 else 0
  {
    if answers == [] {
      assert [answer][1..] == [];
    } else {
      assert (answers + [answer])[1..] == answers[1..] + [answer];
      OneMoreAdmitted(answers[1..], answer);
    }
  }

  lemma {:induction false} RisingStart(from: int, times: seq<int>, now: int)
    requires Rising(from, times + [now])
    ensures Rising(from, times) && from <= now && forall t <- times :: t <= now
    decreases |times|
  {
    if times != [] {
      assert (times + [now])[1..] == times[1..] + [now];
      RisingStart(times[0], times[1..], now);
      assert times == [times[0]] + times[1..];
    }
  }

  // What Burst and Rate leave of a stretch: the calls since one of them set
  // against what it brought.
  function Spare(p: Policy, times: seq<int>, answers: seq<Answer>, i: nat, now: int): real
    requires |answers| == |times| && i < |times|
  {
    p.burst as real - Admitted(answers[i..]) as real + Gain(p, now - times[i])
  }

  ghost predicate SpareEverywhere(p: Policy, times: seq<int>, answers: seq<Answer>, now: int, x: real)
    requires |answers| == |times|
  {
    p.burst as real >= x && forall i | 0 <= i < |times| :: Spare(p, times, answers, i, now) >= x
  }

  // One more call, at `t`: the same, allowing for it.
  lemma OneMoreSpare(p: Policy, times: seq<int>, answers: seq<Answer>, t: int, answer: Answer, now: int, x: real)
    requires Usable(p) && |answers| == |times| && t <= now && forall u <- times :: u <= t
    ensures var spent := if answer.allowed then 1.0 else 0.0;
            SpareEverywhere(p, times + [t], answers + [answer], now, x) <==>
            p.burst as real >= x && SpareEverywhere(p, times, answers, t, x + spent - Gain(p, now - t))
  {
    var spent := if answer.allowed then 1.0 else 0.0;
    var n := |times|;
    forall i | 0 <= i < n
      ensures Spare(p, times + [t], answers + [answer], i, now)
              == Spare(p, times, answers, i, t) - spent + Gain(p, now - t)
    {
      assert (answers + [answer])[i..] == answers[i..] + [answer];
      OneMoreAdmitted(answers[i..], answer);
      assert times[i] in times;
      GainSums(p, t - times[i], now - t);
    }
    assert (answers + [answer])[n..] == [] + [answer];
    OneMoreAdmitted([], answer);
    assert Spare(p, times + [t], answers + [answer], n, now) == p.burst as real - spent + Gain(p, now - t);
    assert forall i | 0 <= i <= n ::
             Spare(p, times + [t], answers + [answer], i, now) == p.burst as real - spent + Gain(p, now - t) || i < n;
  }

  lemma {:induction false} LevelIsSpare(p: Policy, times: seq<int>, now: int, x: real)
    requires Usable(p) && (times != [] ==> Rising(times[0], times + [now]))
    ensures |Answers(p, None, times)| == |times|
    ensures Level(p, After(p, None, times), now) >= x <==> SpareEverywhere(p, times, Answers(p, None, times), now, x)
    decreases |times|
  {
    if times == [] {
      assert Answers(p, None, times) == [];
    } else {
      var n := |times| - 1;
      var before, t := times[..n], times[n];
      assert times == before + [t];
      RisingStart(times[0], times, now);
      assert t in times;
      var held := After(p, None, before);
      var answer := Script(p, held, t).0;
      OneMoreCall(p, None, before, t);
      if before != [] {
        RisingStart(before[0], before, t);
      }
      LevelIsSpare(p, before, t, x + (if answer.allowed then 1.0 else 0.0) - Gain(p, now - t));
      OneMoreSpare(p, before, Answers(p, None, before), t, answer, now, x);
    }
  }

  // By a clock that does not go back, a call is admitted exactly when the
  // calls admitted since any earlier one, and it, are still within Burst plus
  // Rate for each second since: the limiter lets through all the limit allows.
  lemma AdmittedExactlyWhen(p: Policy, times: seq<int>, now: int)
    requires Usable(p) && p.burst >= 1 && (times != [] ==> Rising(times[0], times + [now]))
    ensures var answers := Answers(p, None, times);
            && |answers| == |times|
            && (Script(p, After(p, None, times), now).0.allowed <==>
                forall i | 0 <= i < |times| ::
                  Admitted(answers[i..]) as real + 1.0 <= p.burst as real + Gain(p, now - times[i]))
  {
    LevelIsSpare(p, times, now, 1.0);
    var answers := Answers(p, None, times);
    assert forall i | 0 <= i < |times| ::
             Spare(p, times, answers, i, now) >= 1.0 <==>
             Admitted(answers[i..]) as real + 1.0 <= p.burst as real + Gain(p, now - times[i]);
  }

  // ---- A refused call delays nobody -------------------------------------

  lemma RefusalKeepsLevel(p: Policy, b: Option<Bucket>, now: int, later: int)
    requires Usable(p) && Good(p, b) && now <= later && (b.Some? ==> b.value.ts <= now)
    requires !Script(p, b, now).0.allowed
    ensures Level(p, Some(Script(p, b, now).1), later) == Level(p, b, later)
  {
    GainSums(p, later - now, 0);
    if b.Some? { GainSums(p, now - b.value.ts, later - now); }
  }

  // Every later call is answered as if the refused one had not been made.
  lemma RefusalDelaysNobody(p: Policy, b: Option<Bucket>, now: int, times: seq<int>)
    requires Usable(p) && Good(p, b) && Rising(now, times) && (b.Some? ==> b.value.ts <= now)
    requires !Script(p, b, now).0.allowed
    ensures Answers(p, b, [now] + times) == [Script(p, b, now).0] + Answers(p, b, times)
    ensures times != [] ==> After(p, b, [now] + times) == After(p, b, times)
  {
    var refused := Script(p, b, now).1;
    assert ([now] + times)[1..] == times && ([now] + times)[0] == now;
    assert Answers(p, b, [now] + times) == [Script(p, b, now).0] + Answers(p, Some(refused), times);
    assert After(p, b, [now] + times) == After(p, Some(refused), times);
    if times != [] {
      RefusalKeepsLevel(p, b, now, times[0]);
      SameLevel(p, Some(refused), b, times);
    }
  }

  lemma SameLevel(p: Policy, a: Option<Bucket>, b: Option<Bucket>, times: seq<int>)
    requires Usable(p) && times != [] && Level(p, a, times[0]) == Level(p, b, times[0])
    ensures Answers(p, a, times) == Answers(p, b, times) && After(p, a, times) == After(p, b, times)
  {
    assert Script(p, a, times[0]) == Script(p, b, times[0]);
  }

  // ---- Forgetting --------------------------------------------------------

  // Losing a bucket goes unnoticed exactly when it would be full.
  lemma ForgettingExactly(p: Policy, b: Bucket, now: int)
    requires Usable(p)
    ensures Script(p, None, now) == Script(p, Some(b), now) <==> b.tokens + Gain(p, now - b.ts) >= p.burst as real
  {
  }

  datatype Call = Call(now: int, forgotten: bool)

  // The key may be gone once its time is up, counted even a whole second
  // short: that much the two clocks may differ by.
  predicate MayBeGone(p: Policy, b: Option<Bucket>, now: int)
    requires Usable(p)
  {
    b.None? || now - b.value.ts >= TimeToLive(p) - 1000
  }

  // The bucket as Redis keeps it: forgotten at some of the calls it may be.
  function Forgetful(p: Policy, b: Option<Bucket>, calls: seq<Call>): seq<Answer>
    requires Usable(p)
    decreases |calls|
  {
    if calls == [] then [] else
    var held := if calls[0].forgotten && MayBeGone(p, b, calls[0].now) then None else b;
    var (answer, after) := Script(p, held, calls[0].now);
    [answer] + Forgetful(p, Some(after), calls[1..])
  }

  function TimesOf(calls: seq<Call>): seq<int> {
    if calls == [] then [] else [calls[0].now] + TimesOf(calls[1..])
  }

  // Expiry is unobservable: every sequence of calls is answered exactly as by
  // a bucket that never forgets.
  lemma {:induction false} ExpiryUnobservable(p: Policy, b: Option<Bucket>, calls: seq<Call>)
    requires Usable(p) && p.burst >= 0 && Good(p, b)
    ensures Forgetful(p, b, calls) == Answers(p, b, TimesOf(calls))
    decreases |calls|
  {
    if calls != [] {
      var now := calls[0].now;
      if calls[0].forgotten && MayBeGone(p, b, now) && b.Some? {
        if p.burst > 0 { GainReaches(p, now - b.value.ts, p.burst as real); }
        ForgettingExactly(p, b.value, now);
      }
      CallKeepsGood(p, b, now);
      ExpiryUnobservable(p, Some(Script(p, b, now).1), calls[1..]);
      assert TimesOf(calls)[1..] == TimesOf(calls[1..]);
    }
  }

  // ---- The limiter -------------------------------------------------------

  type Key = string

  datatype Entry = Entry(bucket: Bucket, expires: int)

  class Redis {
    var entries: map<Key, Entry>

    function Held(key: Key): Option<Bucket>
      reads this
    {
      if key in entries then Some(entries[key].bucket) else None
    }

    constructor ()
      ensures entries == map[]
    {
      entries := map[];
    }

    // The server dropping what has expired.
    method Expire(now: int)
      modifies this
      ensures forall k :: k in entries <==> k in old(entries) && now < old(entries)[k].expires
      ensures forall k :: k in entries ==> entries[k] == old(entries)[k]
    {
      entries := map k | k in entries && now < entries[k].expires :: entries[k];
    }

    // Spends one token if there is one. Zero means go ahead; anything else is
    // how many milliseconds to wait. Only this key's bucket changes.
    method Allow(key: Key, p: Policy, now: int) returns (wait: int)
      requires Usable(p) && p.burst >= 0 && Good(p, Held(key))
      modifies this
      ensures wait == 0 <==> Script(p, old(Held(key)), now).0.allowed
      ensures wait == Script(p, old(Held(key)), now).0.retryMs
      ensures entries == old(entries)[key := Entry(Script(p, old(Held(key)), now).1, now + TimeToLive(p))]
      ensures Good(p, Held(key))
    {
      var tokens, ts := p.burst as real, now;
      if key in entries {
        tokens, ts := entries[key].bucket.tokens, entries[key].bucket.ts;
      }
      CallKeepsGood(p, Held(key), now);
      var elapsed := if now > ts then (now - ts) as real / 1000.0 else 0.0;
      tokens := Min(p.burst as real, tokens + elapsed * p.rate);
      assert tokens == Level(p, Held(key), now);
      wait := 0;
      if tokens >= 1.0 {
        tokens := tokens - 1.0;
      } else {
        wait := Ceil((1.0 - tokens) / p.rate * 1000.0);
      }
      entries := entries[key := Entry(Bucket(tokens, now), now + TimeToLive(p))];
    }
  }
}
