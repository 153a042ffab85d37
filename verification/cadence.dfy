// What a cadence is written in: clock times, and the names of days as Go and
// the person's phone may spell them.
module Clock {
  import opened Wrappers

  const WEEKDAYS: seq<string> := ["sun", "mon", "tue", "wed", "thu", "fri", "sat"]

  predicate IsDigit(c: char) {
    '0' <= c <= '9'
  }

  function Value(c: char): nat
    requires IsDigit(c)
  {
    c as int - '0' as int
  }

  // The minute of the day a clock time names, when it is one: two digits, a
  // colon and two digits, from 00:00 to 23:59.
  function ClockOf(time: string): (clock: Option<nat>)
    ensures clock.Some? ==> clock.value < 1440
  {
    if |time| == 5 && time[2] == ':' && forall i | 0 <= i < 5 :: i == 2 || IsDigit(time[i]) then
      var hour, minute := 10 * Value(time[0]) + Value(time[1]), 10 * Value(time[3]) + Value(time[4]);
      if hour < 24 && minute < 60 then Some(60 * hour + minute) else None
    else None
  }

  // How a minute of the day is written.
  function TwoDigits(n: nat): string
    requires n < 100
  {
    [(n / 10 + '0' as int) as char, (n % 10 + '0' as int) as char]
  }

  // Every minute of the day is read from its own writing, and from no other.
  lemma ClockReads(time: string, clock: nat)
    requires clock < 1440
    ensures ClockOf(time) == Some(clock) <==> time == TwoDigits(clock / 60) + ":" + TwoDigits(clock % 60)
  {
    var shown := TwoDigits(clock / 60) + ":" + TwoDigits(clock % 60);
    if ClockOf(time) == Some(clock) {
      var hour, minute := 10 * Value(time[0]) + Value(time[1]), 10 * Value(time[3]) + Value(time[4]);
      assert clock / 60 == hour && clock % 60 == minute;
      assert forall i | 0 <= i < 5 :: time[i] == shown[i];
    }
  }

  predicate IsSpace(c: char) {
    || '\t' <= c <= '\r' || c == ' ' || c == '\U{85}' || c == '\U{A0}' || c == '\U{1680}'
    || '\U{2000}' <= c <= '\U{200A}' || c in {'\U{2028}', '\U{2029}', '\U{202F}', '\U{205F}', '\U{3000}'}
  }

  function TrimLeft(s: string): string {
    if s != "" && IsSpace(s[0]) then TrimLeft(s[1..]) else s
  }

  function TrimRight(s: string): string {
    if s != "" && IsSpace(s[|s| - 1]) then TrimRight(s[..|s| - 1]) else s
  }

  function Trim(s: string): string {
    TrimRight(TrimLeft(s))
  }

  // Lower case, of the letters that can meet a day's name: the Latin ones,
  // and the dotted capital I of Turkish, which becomes a plain i.
  function LowerChar(c: char): char {
    if 'A' <= c <= 'Z' then (c as int + 32) as char
    else if c == '\U{130}' then 'i' else c
  }

  // Folding, which compares without regard to case: the long s is an s, and
  // the dotted capital I is only itself.
  function FoldChar(c: char): char {
    if 'A' <= c <= 'Z' then (c as int + 32) as char
    else if c == '\U{17F}' then 's' else c
  }

  function Lower(s: string): string {
    seq(|s|, i requires 0 <= i < |s| => LowerChar(s[i]))
  }

  function Fold(s: string): string {
    seq(|s|, i requires 0 <= i < |s| => FoldChar(s[i]))
  }

  // Spelled with none of the two odd letters.
  predicate Plain(s: string) {
    '\U{130}' !in s && '\U{17F}' !in s
  }

  lemma PlainFolds(s: string)
    requires Plain(s)
    ensures Lower(s) == Fold(s)
  {
    forall i | 0 <= i < |s| ensures LowerChar(s[i]) == FoldChar(s[i]) {
      assert s[i] in s;
    }
  }

  lemma TrimKeepsPlain(s: string)
    requires Plain(s)
    ensures Plain(Trim(s))
  {
    TrimLeftIn(s);
    TrimRightIn(TrimLeft(s));
  }

  lemma {:induction false} TrimLeftIn(s: string)
    ensures forall c <- TrimLeft(s) :: c in s
  {
    if s != "" && IsSpace(s[0]) {
      TrimLeftIn(s[1..]);
    }
  }

  lemma {:induction false} TrimRightIn(s: string)
    ensures forall c <- TrimRight(s) :: c in s
  {
    if s != "" && IsSpace(s[|s| - 1]) {
      TrimRightIn(s[..|s| - 1]);
    }
  }
}

// When a schedule runs (server/internal/conversations/cadence.go), and what
// the app says of it (schedules.go). Instants are nanoseconds.
module Cadences {
  import opened Wrappers
  import opened Clock

  const MINUTE: int := 60_000_000_000
  const DAY: int := 1440 * MINUTE
  const MISS_GRACE: int := 10 * MINUTE

  datatype Cadence = Cadence(repeat: string, time: string, days: seq<string>, date: string, timezone: string)

  // ----- Zones -----

  // A time zone: the local day an instant falls on, days counted from the
  // first of January 1970; and the instant a clock shows a minute of a day.
  datatype Zone = Zone(dayOf: int -> int, at: (int, int) -> int)

  // What the search for one clock time relies on: on every day it falls on
  // that day, and the local date never goes back.
  ghost predicate ZoneOk(z: Zone, clock: nat) {
    && (forall d :: z.dayOf(z.at(d, clock)) == d)
    && (forall t, u :: t <= u ==> z.dayOf(t) <= z.dayOf(u))
  }

  lemma DivisionOf(d: int, rest: int)
    requires 0 <= rest < DAY
    ensures (d * DAY + rest) / DAY == d
  {
  }

  // A zone whose offset changes is fine for every clock time that it shows on
  // every day, whatever other times it skips, if no change takes the date
  // back.
  lemma ChangingZoneOk(z: Zone, offset: int -> int, clock: nat)
    requires clock < 1440
    requires forall t :: z.dayOf(t) == (t + offset(t)) / DAY
    requires forall d :: z.at(d, clock) + offset(z.at(d, clock)) == d * DAY + clock * MINUTE
    requires forall t, u :: t <= u ==> z.dayOf(t) <= z.dayOf(u)
    ensures ZoneOk(z, clock)
  {
    forall d ensures z.dayOf(z.at(d, clock)) == d {
      DivisionOf(d, clock * MINUTE);
    }
  }

  // A zone with one offset up to an instant and another from it on. A clock
  // time is read by the first as long as that gives an instant before the
  // change, and by the second otherwise; so a time the clocks skip comes out
  // earlier by what they skip.
  function ShiftedOffset(first: int, second: int, change: int, t: int): int {
    if t < change then first else second
  }

  function ShiftedAt(first: int, second: int, change: int, local: int): int {
    if local - first < change then local - first else local - second
  }

  function ShiftedZone(first: int, second: int, change: int): Zone {
    Zone(t => (t + ShiftedOffset(first, second, change, t)) / DAY,
         (d, clock) => ShiftedAt(first, second, change, d * DAY + clock * MINUTE))
  }

  lemma SameDayOf(x: int, y: int)
    requires x <= y
    ensures x / DAY <= y / DAY
  {
  }

  // A day's clock time is skipped when the clocks go forward over it.
  predicate Skipped(first: int, second: int, change: int, clock: nat, d: int) {
    change + first <= d * DAY + clock * MINUTE < change + second
  }

  // Clocks that go forward: the search may be relied on for a clock time
  // exactly when it is skipped on no day, or lies so far into the day that
  // what it comes out as is still of that day.
  lemma ForwardZoneOk(first: int, second: int, change: int, clock: nat)
    requires first <= second <= first + DAY && clock < 1440
    ensures ZoneOk(ShiftedZone(first, second, change), clock) <==>
            (forall d :: !Skipped(first, second, change, clock, d)) || clock * MINUTE >= second - first
  {
    var z := ShiftedZone(first, second, change);
    forall t, u | t <= u ensures z.dayOf(t) <= z.dayOf(u) {
      SameDayOf(t + ShiftedOffset(first, second, change, t), u + ShiftedOffset(first, second, change, u));
    }
    forall d ensures z.dayOf(z.at(d, clock)) == d <==>
                     !Skipped(first, second, change, clock, d) || clock * MINUTE >= second - first
    {
      ForwardDay(first, second, change, clock, d);
    }
  }

  lemma ForwardDay(first: int, second: int, change: int, clock: nat, d: int)
    requires first <= second <= first + DAY && clock < 1440
    ensures var z := ShiftedZone(first, second, change);
            z.dayOf(z.at(d, clock)) == d <==>
            !Skipped(first, second, change, clock, d) || clock * MINUTE >= second - first
  {
    var z := ShiftedZone(first, second, change);
    var local := d * DAY + clock * MINUTE;
    DivisionOf(d, clock * MINUTE);
    if Skipped(first, second, change, clock, d) {
      assert z.dayOf(z.at(d, clock)) == (local - second + first) / DAY;
      if clock * MINUTE >= second - first {
        DivisionOf(d, clock * MINUTE - (second - first));
      } else {
        DivisionOf(d - 1, DAY + clock * MINUTE - (second - first));
      }
    } else {
      assert z.dayOf(z.at(d, clock)) == local / DAY;
    }
  }

  // Clocks that go back show every time, so it is fine for every clock time
  // exactly when the change does not take the date back.
  lemma BackZoneOk(first: int, second: int, change: int, clock: nat)
    requires second <= first && clock < 1440
    ensures ZoneOk(ShiftedZone(first, second, change), clock) <==>
            (change - 1 + first) / DAY <= (change + second) / DAY
  {
    var z := ShiftedZone(first, second, change);
    forall d ensures z.dayOf(z.at(d, clock)) == d {
      DivisionOf(d, clock * MINUTE);
    }
    assert z.dayOf(change - 1) == (change - 1 + first) / DAY && z.dayOf(change) == (change + second) / DAY;
    if z.dayOf(change - 1) <= z.dayOf(change) {
      forall t, u | t <= u ensures z.dayOf(t) <= z.dayOf(u) {
        if t < change <= u {
          SameDayOf(t + first, change - 1 + first);
          SameDayOf(change + second, u + second);
        } else {
          SameDayOf(t + ShiftedOffset(first, second, change, t), u + ShiftedOffset(first, second, change, u));
        }
      }
    }
  }

  // So a zone of one offset is fine for every clock time.
  lemma FixedZoneOk(offset: int, clock: nat)
    requires clock < 1440
    ensures ZoneOk(ShiftedZone(offset, offset, 0), clock)
  {
    ForwardZoneOk(offset, offset, 0, clock);
  }

  // The zones and the calendar dates that can be read; what neither the
  // zone's file nor the date parser knows is None.
  datatype World = World(zones: string -> Option<Zone>, dates: string -> Option<int>)

  // ----- Normalising -----

  // The day of the week, Sunday first, that a day falls on: 1970 began on a
  // Thursday.
  function Weekday(d: int): nat {
    (d + 4) % 7
  }

  // So weeks of seven days go on either way from the first of January 1970.
  lemma WeekFromThursday(k: int, i: nat)
    requires i < 7
    ensures WEEKDAYS[Weekday(7 * k + i)] == ["thu", "fri", "sat", "sun", "mon", "tue", "wed"][i]
  {
    assert 7 * k + i + 4 == 7 * k + (i + 4);
    assert (7 * k + (i + 4)) % 7 == (i + 4) % 7;
  }

  // A day of the week is named, up to case and surrounding space.
  predicate Names(given: seq<string>, day: string) {
    exists name <- given :: Fold(Trim(name)) == day
  }

  function DaysFrom(given: seq<string>, i: nat): seq<string>
    requires i <= 7
    decreases 7 - i
  {
    if i == 7 then []
    else (if Names(given, WEEKDAYS[i]) then [WEEKDAYS[i]] else []) + DaysFrom(given, i + 1)
  }

  // The days named, in week order, each once.
  function WeekDays(given: seq<string>): seq<string> {
    DaysFrom(given, 0)
  }

  function Lowered(days: seq<string>): set<string> {
    set name | name in days :: Lower(Trim(name))
  }

  lemma LoweredAppend(days: seq<string>, name: string)
    ensures Lowered(days + [name]) == Lowered(days) + {Lower(Trim(name))}
  {
    forall x | x in Lowered(days) + {Lower(Trim(name))} ensures x in Lowered(days + [name]) {
      if x in Lowered(days) {
        var d :| d in days && x == Lower(Trim(d));
        assert d in days + [name];
      } else {
        assert name in days + [name];
      }
    }
  }

  lemma NamesAppend(given: seq<string>, name: string, day: string)
    ensures Names(given + [name], day) <==> Names(given, day) || Fold(Trim(name)) == day
  {
    if Names(given, day) {
      var x :| x in given && Fold(Trim(x)) == day;
      assert x in given + [name];
    }
    assert name in given + [name];
  }

  lemma WeekdaysDistinct()
    ensures Distinct(WEEKDAYS)
  {
  }

  method UniqueLower(days: seq<string>) returns (names: seq<string>)
    ensures Distinct(names) && (set name | name in names) == Lowered(days)
  {
    names := [];
    for i := 0 to |days|
      invariant Distinct(names) && (set name | name in names) == Lowered(days[..i])
    {
      var name := Lower(Trim(days[i]));
      assert days[..i + 1] == days[..i] + [days[i]];
      LoweredAppend(days[..i], days[i]);
      ghost var before := set n | n in names;
      assert name in before <==> name in names;
      if name !in names {
        names := names + [name];
        assert (set n | n in names) == before + {name};
      }
    }
    assert days[..|days|] == days;
  }

  lemma OneMoreDay(before: seq<string>, given: seq<string>, i: nat)
    requires i < 7
    ensures (before + if Names(given, WEEKDAYS[i]) then [WEEKDAYS[i]] else []) + DaysFrom(given, i + 1)
            == before + DaysFrom(given, i)
  {
    var day := if Names(given, WEEKDAYS[i]) then [WEEKDAYS[i]] else [];
    assert DaysFrom(given, i) == day + DaysFrom(given, i + 1);
    Regroup(before, day, DaysFrom(given, i + 1));
  }

  lemma Regroup<T>(a: seq<T>, b: seq<T>, c: seq<T>)
    ensures (a + b) + c == a + (b + c)
  {
  }

  method DaysInOrder(given: seq<string>) returns (days: seq<string>)
    ensures days == WeekDays(given)
  {
    days := [];
    WeekdaysDistinct();
    for i := 0 to 7
      invariant days + DaysFrom(given, i) == WeekDays(given)
      invariant forall j | i <= j < 7 :: WEEKDAYS[j] !in days
    {
      ghost var before := days;
      days := AddIfNamed(days, given, WEEKDAYS[i]);
      OneMoreDay(before, given, i);
    }
  }

  // The inner loop: a day goes on the end if any name given is its.
  method AddIfNamed(before: seq<string>, given: seq<string>, d: string) returns (days: seq<string>)
    requires d !in before
    ensures days == before + if Names(given, d) then [d] else []
  {
    days := before;
    for k := 0 to |given|
      invariant days == before + if Names(given[..k], d) then [d] else []
    {
      assert given[..k + 1] == given[..k] + [given[k]];
      NamesAppend(given[..k], given[k], d);
      if Fold(Trim(given[k])) == d && d !in days {
        days := days + [d];
      }
    }
    assert given[..|given|] == given;
  }

  // A cadence as it is kept, or nothing for one that is refused.
  method Normalized(w: World, c: Cadence) returns (out: Option<Cadence>)
    ensures out.Some? <==> Acceptable(w, c)
    ensures out.Some? <==>
              && c.repeat in {"once", "daily", "weekdays", "weekly"}
              && ClockOf(c.time).Some? && c.timezone != "" && w.zones(c.timezone).Some?
              && (c.repeat == "once" ==> w.dates(c.date).Some?) && (c.repeat != "once" ==> c.date == "")
              && (c.repeat == "weekly" ==> WeekDays(c.days) != [] && |WeekDays(c.days)| == |Lowered(c.days)|)
              && (c.repeat != "weekly" ==> c.days == [])
    ensures out.Some? ==> out.value == c.(days := WeekDays(c.days))
  {
    if c.repeat !in {"once", "daily", "weekdays", "weekly"} {
      return None;
    }
    if ClockOf(c.time).None? || c.timezone == "" || w.zones(c.timezone).None? {
      return None;
    }
    var days: seq<string> := [];
    if c.repeat == "weekly" {
      days := DaysInOrder(c.days);
      var names := UniqueLower(c.days);
      DistinctSize(names);
      if |days| == 0 || |days| != |names| {
        return None;
      }
    } else if |c.days| > 0 {
      return None;
    }
    if c.repeat == "once" {
      if w.dates(c.date).None? {
        return None;
      }
    } else if c.date != "" {
      return None;
    }
    return Some(c.(days := days));
  }

  predicate Acceptable(w: World, c: Cadence) {
    && c.repeat in {"once", "daily", "weekdays", "weekly"}
    && ClockOf(c.time).Some? && c.timezone != "" && w.zones(c.timezone).Some?
    && (if c.repeat == "weekly"
        then WeekDays(c.days) != [] && |WeekDays(c.days)| == |Lowered(c.days)|
        else c.days == [])
    && (if c.repeat == "once" then w.dates(c.date).Some? else c.date == "")
  }

  predicate IsDay(name: string) {
    Fold(Trim(name)) in WEEKDAYS
  }

  lemma {:induction false} DaysFromMeaning(given: seq<string>, i: nat)
    requires i <= 7
    ensures forall day :: day in DaysFrom(given, i) <==> day in WEEKDAYS[i..] && Names(given, day)
    ensures Distinct(DaysFrom(given, i))
    decreases 7 - i
  {
    if i < 7 {
      DaysFromMeaning(given, i + 1);
      assert WEEKDAYS[i..] == [WEEKDAYS[i]] + WEEKDAYS[i + 1..];
      assert WEEKDAYS[i] !in WEEKDAYS[i + 1..];
    }
  }

  // The day a name stands for when the names are counted: what it comes to
  // lower-cased first and folded after.
  function Counted(name: string): string {
    Fold(Lower(Trim(name)))
  }

  // Lower-casing first makes no difference to a name that folds to a day: of
  // the two odd letters it can hold only the long s, which stays.
  lemma DayCounted(name: string)
    requires IsDay(name)
    ensures Counted(name) == Fold(Trim(name))
  {
    var t := Trim(name);
    var i :| 0 <= i < 7 && WEEKDAYS[i] == Fold(t);
    forall k | 0 <= k < |t| ensures FoldChar(LowerChar(t[k])) == FoldChar(t[k]) {
      assert Fold(t)[k] == FoldChar(t[k]) == WEEKDAYS[i][k];
      NoOddInDays(i, k);
    }
    assert Counted(name) == Fold(t);
  }

  lemma NoOddInDays(i: nat, k: nat)
    requires i < 7 && k < |WEEKDAYS[i]|
    ensures WEEKDAYS[i][k] != '\U{130}'
  {
    assert |WEEKDAYS[i]| == 3;
  }

  // One spelling of each day, and each a day somebody outright named.
  predicate OneSpellingEach(given: seq<string>) {
    && (forall name <- given :: Counted(name) in WEEKDAYS && Names(given, Counted(name)))
    && (forall a, b | a in given && b in given ::
          Counted(a) == Counted(b) ==> Lower(Trim(a)) == Lower(Trim(b)))
  }

  function Folded(names: set<string>): set<string> {
    set name | name in names :: Fold(name)
  }

  predicate ToldApart(names: set<string>) {
    forall a, b | a in names && b in names :: Fold(a) == Fold(b) ==> a == b
  }

  // Folding leaves as many names exactly when no two fold to one.
  lemma {:induction false} FoldedSize(names: set<string>)
    ensures |Folded(names)| <= |names|
    ensures |Folded(names)| == |names| <==> ToldApart(names)
    decreases names
  {
    if x :| x in names {
      var rest := names - {x};
      FoldedSize(rest);
      OneMoreFolded(rest, x);
      assert names == rest + {x};
    }
  }

  lemma OneMoreFolded(rest: set<string>, x: string)
    requires x !in rest
    ensures Folded(rest + {x}) == Folded(rest) + {Fold(x)}
    ensures ToldApart(rest + {x}) <==> ToldApart(rest) && Fold(x) !in Folded(rest)
  {
    assert x in rest + {x};
    if Fold(x) in Folded(rest) {
      var y :| y in rest && Fold(y) == Fold(x);
      assert y in rest + {x};
    }
    assert forall y <- rest :: Fold(y) in Folded(rest) && y in rest + {x};
  }

  // The days named, as a set.
  function DaySet(given: seq<string>): set<string> {
    set day | day in WEEKDAYS && Names(given, day)
  }

  lemma DaySetSize(given: seq<string>)
    ensures |DaySet(given)| == |WeekDays(given)|
  {
    DaysFromMeaning(given, 0);
    DistinctSize(WeekDays(given));
    assert DaySet(given) == set day | day in WeekDays(given);
  }

  lemma DaysAreCounted(given: seq<string>)
    ensures DaySet(given) <= Folded(Lowered(given))
  {
    forall day | day in DaySet(given) ensures day in Folded(Lowered(given)) {
      var name :| name in given && Fold(Trim(name)) == day;
      DayCounted(name);
      assert Lower(Trim(name)) in Lowered(given);
    }
  }

  lemma CountedAreDays(given: seq<string>)
    ensures Folded(Lowered(given)) <= DaySet(given) <==> forall name <- given :: Counted(name) in DaySet(given)
  {
    forall name | name in given ensures Counted(name) in Folded(Lowered(given)) {
      assert Lower(Trim(name)) in Lowered(given);
    }
    forall day | day in Folded(Lowered(given)) ensures exists name <- given :: Counted(name) == day {
      var l :| l in Lowered(given) && Fold(l) == day;
      var name :| name in given && Lower(Trim(name)) == l;
      assert Counted(name) == day;
    }
  }

  lemma ToldApartMeans(given: seq<string>)
    ensures ToldApart(Lowered(given)) <==>
            forall a, b | a in given && b in given :: Counted(a) == Counted(b) ==> Lower(Trim(a)) == Lower(Trim(b))
  {
    forall name | name in given ensures Lower(Trim(name)) in Lowered(given) {
    }
    forall l | l in Lowered(given) ensures exists name <- given :: Lower(Trim(name)) == l {
    }
  }

  lemma SpellingIs(given: seq<string>)
    ensures OneSpellingEach(given) <==> Folded(Lowered(given)) <= DaySet(given) && ToldApart(Lowered(given))
    ensures given != [] && OneSpellingEach(given) ==> DaySet(given) != {}
  {
    CountedAreDays(given);
    ToldApartMeans(given);
    if given != [] && OneSpellingEach(given) {
      assert given[0] in given;
      assert Counted(given[0]) in DaySet(given);
    }
  }

  lemma SizeIs(given: seq<string>)
    ensures |WeekDays(given)| == |Lowered(given)| <==>
            Folded(Lowered(given)) <= DaySet(given) && ToldApart(Lowered(given))
    ensures WeekDays(given) == [] <==> DaySet(given) == {}
  {
    DaySetSize(given);
    FoldedSize(Lowered(given));
    DaysAreCounted(given);
    SubsetSize(DaySet(given), Folded(Lowered(given)));
  }

  // A weekly cadence's days are accepted, for every spelling there is,
  // exactly when there is one, each counts as a day that is named, and none
  // is spelled in two ways that lower-casing tells apart.
  lemma WeeklyAcceptedWhen(given: seq<string>)
    ensures (WeekDays(given) != [] && |WeekDays(given)| == |Lowered(given)|) <==>
            given != [] && OneSpellingEach(given)
  {
    SizeIs(given);
    SpellingIs(given);
    if given == [] {
      NoneNamed(0);
    }
  }

  // With neither odd letter among them, that is to say that each names a day.
  lemma PlainAcceptedWhen(given: seq<string>)
    requires forall name <- given :: Plain(name)
    ensures (WeekDays(given) != [] && |WeekDays(given)| == |Lowered(given)|) <==>
            given != [] && forall name <- given :: IsDay(name)
  {
    WeeklyAcceptedWhen(given);
    forall name | name in given
      ensures Lower(Trim(name)) == Fold(Trim(name))
      ensures IsDay(name) ==> Counted(name) == Fold(Trim(name)) && Names(given, Counted(name))
      ensures Counted(name) in WEEKDAYS && Names(given, Counted(name)) ==> IsDay(name)
    {
      TrimKeepsPlain(name);
      PlainFolds(Trim(name));
      FoldOnce(Trim(name));
      if IsDay(name) { DayCounted(name); }
    }
  }

  lemma FoldOnce(s: string)
    ensures Fold(Fold(s)) == Fold(s)
  {
  }

  // Not so for the two odd letters: a name that is no day's may ride along
  // with one it lower-cases to,
  lemma NoDayAccepted()
    ensures !IsDay("fr\U{130}")
    ensures WeekDays(["fri", "fr\U{130}"]) == ["fri"] && |Lowered(["fri", "fr\U{130}"])| == 1
  {
    var given := ["fri", "fr\U{130}"];
    Spelled("fr\U{130}", "fri", "fr\U{130}");
    Spelled("fri", "fri", "fri");
    NotADay("fr\U{130}");
    assert "fri" in given && Names(given, "fri");
    OnlyNamed(given, 5);
    assert Lowered(given) == {"fri"};
  }

  lemma NotADay(name: string)
    requires |name| == 3 && name[2] == '\U{130}'
    ensures name !in WEEKDAYS
  {
    assert forall i | 0 <= i < 7 :: WEEKDAYS[i][2] != '\U{130}';
  }

  lemma OnlyNamed(given: seq<string>, k: nat)
    requires k < 7 && Names(given, WEEKDAYS[k])
    requires forall name <- given :: Fold(Trim(name)) in WEEKDAYS ==> Fold(Trim(name)) == WEEKDAYS[k]
    ensures WeekDays(given) == [WEEKDAYS[k]]
  {
    WeekdaysDistinct();
    OneDay(given, k);
  }

  // and two spellings of one day are refused.
  lemma TwoSpellingsRefused()
    ensures IsDay("sun") && IsDay("\U{17F}un")
    ensures WeekDays(["sun", "\U{17F}un"]) == ["sun"] && |Lowered(["sun", "\U{17F}un"])| == 2
  {
    var given := ["sun", "\U{17F}un"];
    Spelled("\U{17F}un", "\U{17F}un", "sun");
    Spelled("sun", "sun", "sun");
    assert "sun" in given && Names(given, "sun");
    OnlyNamed(given, 0);
    TwoNames(given);
  }

  lemma TwoNames(given: seq<string>)
    requires |given| == 2 && Lower(Trim(given[0])) == "sun" && Lower(Trim(given[1])) == "\U{17F}un"
    ensures |Lowered(given)| == 2
  {
    assert given[0] in given && given[1] in given;
    assert Lowered(given) == {"sun", "\U{17F}un"};
    assert "sun"[0] != "\U{17F}un"[0];
  }

  lemma Spelled(name: string, lower: string, fold: string)
    requires |name| == |lower| == |fold| == 3 && forall i | 0 <= i < 3 :: !IsSpace(name[i])
    requires forall i | 0 <= i < 3 :: LowerChar(name[i]) == lower[i] && FoldChar(name[i]) == fold[i]
    ensures Trim(name) == name && Lower(name) == lower && Fold(name) == fold
  {
  }

  lemma OneDay(given: seq<string>, k: nat)
    requires k < 7 && Names(given, WEEKDAYS[k]) && forall j | 0 <= j < 7 :: j != k ==> !Names(given, WEEKDAYS[j])
    ensures WeekDays(given) == [WEEKDAYS[k]]
  {
    DaysFromMeaning(given, 0);
    var days := WeekDays(given);
    forall day | day in days ensures day == WEEKDAYS[k] {
      var j :| 0 <= j < 7 && WEEKDAYS[j] == day;
    }
    OnlyOne(days, WEEKDAYS[k]);
  }

  lemma OnlyOne<T>(s: seq<T>, x: T)
    requires Distinct(s) && x in s && forall y <- s :: y == x
    ensures s == [x]
  {
    assert s[0] in s && s[|s| - 1] in s;
    assert |s| == 1;
  }

  // ----- What runs when -----

  predicate Allows(c: Cadence, weekday: nat)
    requires weekday < 7
  {
    if c.repeat == "weekdays" then 1 <= weekday <= 5
    else if c.repeat == "weekly" then WEEKDAYS[weekday] in c.days
    else true
  }

  lemma DayNamesTheirOwn(i: nat)
    requires i < 7
    ensures Trim(WEEKDAYS[i]) == WEEKDAYS[i] && Fold(WEEKDAYS[i]) == WEEKDAYS[i] && Lower(WEEKDAYS[i]) == WEEKDAYS[i]
  {
    Spelled(WEEKDAYS[i], WEEKDAYS[i], WEEKDAYS[i]);
  }

  // Normalising a weekly cadence keeps the days it runs on,
  lemma NormalizedKeepsTheDays(given: seq<string>, i: nat)
    requires i < 7
    ensures WEEKDAYS[i] in WeekDays(given) <==> Names(given, WEEKDAYS[i])
  {
    DaysFromMeaning(given, 0);
  }

  // and is done once and for all.
  lemma NormalizedOnce(given: seq<string>)
    ensures WeekDays(WeekDays(given)) == WeekDays(given)
  {
    DaysFromMeaning(given, 0);
    var days := WeekDays(given);
    forall i | 0 <= i < 7 ensures Names(days, WEEKDAYS[i]) <==> Names(given, WEEKDAYS[i]) {
      NamedAgain(days, i);
    }
    SameDays(days, given, 0);
  }

  lemma {:induction false} NoneNamed(i: nat)
    requires i <= 7
    ensures DaysFrom([], i) == []
    decreases 7 - i
  {
    if i < 7 {
      NoneNamed(i + 1);
    }
  }

  // Names in their own form are counted once each.
  lemma OwnNamesCounted(days: seq<string>)
    requires Distinct(days) && forall day <- days :: day in WEEKDAYS
    ensures |Lowered(days)| == |days|
  {
    forall name | name in days ensures Lower(Trim(name)) == name {
      var i :| 0 <= i < 7 && WEEKDAYS[i] == name;
      DayNamesTheirOwn(i);
    }
    assert Lowered(days) == set day | day in days;
    DistinctSize(days);
  }

  // So what was accepted is accepted again.
  lemma AcceptedAgain(w: World, c: Cadence)
    requires Acceptable(w, c)
    ensures Acceptable(w, c.(days := WeekDays(c.days)))
  {
    if c.repeat == "weekly" {
      NormalizedOnce(c.days);
      DaysFromMeaning(c.days, 0);
      OwnNamesCounted(WeekDays(c.days));
    } else {
      NoneNamed(0);
    }
  }

  lemma NamedAgain(days: seq<string>, i: nat)
    requires i < 7 && forall day <- days :: day in WEEKDAYS
    ensures Names(days, WEEKDAYS[i]) <==> WEEKDAYS[i] in days
  {
    DayNamesTheirOwn(i);
    if Names(days, WEEKDAYS[i]) {
      var name :| name in days && Fold(Trim(name)) == WEEKDAYS[i];
      var j :| 0 <= j < 7 && WEEKDAYS[j] == name;
      DayNamesTheirOwn(j);
    }
  }

  lemma {:induction false} SameDays(a: seq<string>, b: seq<string>, i: nat)
    requires i <= 7 && forall j | 0 <= j < 7 :: Names(a, WEEKDAYS[j]) <==> Names(b, WEEKDAYS[j])
    ensures DaysFrom(a, i) == DaysFrom(b, i)
    decreases 7 - i
  {
    if i < 7 {
      SameDays(a, b, i + 1);
    }
  }

  // The clock a cadence runs at; a time that is not one reads as midnight.
  function ClockIn(c: Cadence): nat
    ensures ClockIn(c) < 1440
  {
    if ClockOf(c.time).Some? then ClockOf(c.time).value else 0
  }

  // What it means to be one of a repeating cadence's runs.
  predicate RunsOn(c: Cadence, z: Zone, d: int) {
    Allows(c, Weekday(z.dayOf(z.at(d, ClockIn(c)))))
  }

  ghost predicate IsRun(c: Cadence, z: Zone, run: int) {
    exists d :: RunsOn(c, z, d) && run == z.at(d, ClockIn(c))
  }

  // A daily cadence runs on every day, one for weekdays on all but Saturdays
  // and Sundays, and a weekly one on the days it names.
  lemma RunsOnItsDays(c: Cadence, z: Zone, d: int)
    requires ZoneOk(z, ClockIn(c))
    ensures c.repeat == "daily" ==> RunsOn(c, z, d)
    ensures c.repeat == "weekdays" ==> (RunsOn(c, z, d) <==> WEEKDAYS[Weekday(d)] !in {"sat", "sun"})
    ensures c.repeat == "weekly" ==> (RunsOn(c, z, d) <==> WEEKDAYS[Weekday(d)] in c.days)
  {
    assert z.dayOf(z.at(d, ClockIn(c))) == d;
    assert Weekday(d) in {0, 1, 2, 3, 4, 5, 6};
  }

  // A cadence that runs on some day of the week.
  predicate Lives(c: Cadence) {
    exists weekday: nat | weekday < 7 :: Allows(c, weekday)
  }

  function FirstAfter(c: Cadence, z: Zone, t: int, d: int, last: int): Option<int>
    decreases last - d
  {
    if d > last then None
    else if z.at(d, ClockIn(c)) > t && RunsOn(c, z, d) then Some(z.at(d, ClockIn(c)))
    else FirstAfter(c, z, t, d + 1, last)
  }

  function LastBy(c: Cadence, z: Zone, t: int, d: int, first: int): Option<int>
    decreases d - first
  {
    if d < first then None
    else if z.at(d, ClockIn(c)) <= t && RunsOn(c, z, d) then Some(z.at(d, ClockIn(c)))
    else LastBy(c, z, t, d - 1, first)
  }

  function Once(w: World, c: Cadence, z: Zone): Option<int> {
    if w.dates(c.date).Some? then Some(z.at(w.dates(c.date).value, ClockIn(c))) else None
  }

  // The first run after t, and the last at or before it.
  function NextOf(w: World, c: Cadence, t: int): Option<int> {
    var zone := w.zones(c.timezone);
    if zone.None? then None
    else if c.repeat == "once" then
      var once := Once(w, c, zone.value);
      if once.Some? && once.value > t then once else None
    else FirstAfter(c, zone.value, t, zone.value.dayOf(t), zone.value.dayOf(t) + 8)
  }

  function PreviousOf(w: World, c: Cadence, t: int): Option<int> {
    var zone := w.zones(c.timezone);
    if zone.None? then None
    else if c.repeat == "once" then
      var once := Once(w, c, zone.value);
      if once.Some? && once.value <= t then once else None
    else LastBy(c, zone.value, t, zone.value.dayOf(t), zone.value.dayOf(t) - 8)
  }

  method Next(w: World, c: Cadence, t: int) returns (run: int, ok: bool)
    ensures ok <==> NextOf(w, c, t).Some?
    ensures ok ==> run == NextOf(w, c, t).value
  {
    var zone := w.zones(c.timezone);
    if zone.None? {
      return 0, false;
    }
    if c.repeat == "once" {
      var once := Once(w, c, zone.value);
      if once.None? {
        return 0, false;
      }
      return once.value, once.value > t;
    }
    var today := zone.value.dayOf(t);
    for days := 0 to 9
      invariant NextOf(w, c, t) == FirstAfter(c, zone.value, t, today + days, today + 8)
    {
      run := zone.value.at(today + days, ClockIn(c));
      if run > t && Allows(c, Weekday(zone.value.dayOf(run))) {
        return run, true;
      }
    }
    return 0, false;
  }

  method Previous(w: World, c: Cadence, t: int) returns (run: int, ok: bool)
    ensures ok <==> PreviousOf(w, c, t).Some?
    ensures ok ==> run == PreviousOf(w, c, t).value
  {
    var zone := w.zones(c.timezone);
    if zone.None? {
      return 0, false;
    }
    if c.repeat == "once" {
      var once := Once(w, c, zone.value);
      if once.None? {
        return 0, false;
      }
      return once.value, once.value <= t;
    }
    var today := zone.value.dayOf(t);
    for days := 0 to 9
      invariant PreviousOf(w, c, t) == LastBy(c, zone.value, t, today - days, today - 8)
    {
      run := zone.value.at(today - days, ClockIn(c));
      if run <= t && Allows(c, Weekday(zone.value.dayOf(run))) {
        return run, true;
      }
    }
    return 0, false;
  }

  // ----- The search is right -----

  lemma DaysGoForward(z: Zone, c: Cadence, d: int, e: int)
    requires ZoneOk(z, ClockIn(c)) && d < e
    ensures z.at(d, ClockIn(c)) < z.at(e, ClockIn(c))
  {
    assert z.dayOf(z.at(d, ClockIn(c))) == d && z.dayOf(z.at(e, ClockIn(c))) == e;
  }

  lemma AroundToday(z: Zone, c: Cadence, t: int, d: int)
    requires ZoneOk(z, ClockIn(c))
    ensures d < z.dayOf(t) ==> z.at(d, ClockIn(c)) < t
    ensures d > z.dayOf(t) ==> z.at(d, ClockIn(c)) > t
  {
    assert z.dayOf(z.at(d, ClockIn(c))) == d;
  }

  // A run found is the first after t on or past the day searched from; none
  // found means none on any day searched.
  lemma {:induction false} FirstAfterMeaning(c: Cadence, z: Zone, t: int, d: int, last: int)
    requires ZoneOk(z, ClockIn(c))
    ensures var found := FirstAfter(c, z, t, d, last);
            && (found.Some? ==> IsRun(c, z, found.value) && found.value > t)
            && (forall e :: d <= e && RunsOn(c, z, e) && z.at(e, ClockIn(c)) > t && (found.Some? || e <= last) ==>
                  found.Some? && found.value <= z.at(e, ClockIn(c)))
    decreases last - d
  {
    if d <= last {
      FirstAfterMeaning(c, z, t, d + 1, last);
      if z.at(d, ClockIn(c)) > t && RunsOn(c, z, d) {
        forall e | d < e ensures z.at(d, ClockIn(c)) < z.at(e, ClockIn(c)) {
          DaysGoForward(z, c, d, e);
        }
      }
    }
  }

  lemma {:induction false} LastByMeaning(c: Cadence, z: Zone, t: int, d: int, first: int)
    requires ZoneOk(z, ClockIn(c))
    ensures var found := LastBy(c, z, t, d, first);
            && (found.Some? ==> IsRun(c, z, found.value) && found.value <= t)
            && (forall e :: e <= d && RunsOn(c, z, e) && z.at(e, ClockIn(c)) <= t && (found.Some? || e >= first) ==>
                  found.Some? && z.at(e, ClockIn(c)) <= found.value)
    decreases d - first
  {
    if d >= first {
      LastByMeaning(c, z, t, d - 1, first);
      if z.at(d, ClockIn(c)) <= t && RunsOn(c, z, d) {
        forall e | e < d ensures z.at(e, ClockIn(c)) < z.at(d, ClockIn(c)) {
          DaysGoForward(z, c, e, d);
        }
      }
    }
  }

  // Any seven days in a row have every day of the week among them.
  lemma SomeDayOf(weekday: nat, from: int) returns (d: int)
    requires weekday < 7
    ensures from <= d < from + 7 && Weekday(d) == weekday
  {
    d := from + (weekday - from - 4) % 7;
  }

  // For every repeating cadence that runs on some day of the week, and every
  // instant, the search forward finds the first run of all after it.
  lemma NextIsTheFirst(w: World, c: Cadence, z: Zone, t: int)
    requires w.zones(c.timezone) == Some(z) && ZoneOk(z, ClockIn(c)) && c.repeat != "once"
    ensures NextOf(w, c, t).Some? <==> Lives(c)
    ensures NextOf(w, c, t).Some? ==> IsRun(c, z, NextOf(w, c, t).value) && NextOf(w, c, t).value > t
    ensures forall run :: IsRun(c, z, run) && run > t ==> NextOf(w, c, t).Some? && NextOf(w, c, t).value <= run
  {
    var today := z.dayOf(t);
    FirstAfterMeaning(c, z, t, today, today + 8);
    if Lives(c) {
      var weekday: nat :| weekday < 7 && Allows(c, weekday);
      var d := SomeDayOf(weekday, today + 1);
      AroundToday(z, c, t, d);
      assert RunsOn(c, z, d);
    }
    forall run | IsRun(c, z, run) && run > t ensures NextOf(w, c, t).Some? && NextOf(w, c, t).value <= run {
      var d :| RunsOn(c, z, d) && run == z.at(d, ClockIn(c));
      AroundToday(z, c, t, d);
      assert Lives(c) by { assert Allows(c, Weekday(d)); }
    }
  }

  lemma PreviousIsTheLast(w: World, c: Cadence, z: Zone, t: int)
    requires w.zones(c.timezone) == Some(z) && ZoneOk(z, ClockIn(c)) && c.repeat != "once"
    ensures PreviousOf(w, c, t).Some? <==> Lives(c)
    ensures PreviousOf(w, c, t).Some? ==> IsRun(c, z, PreviousOf(w, c, t).value) && PreviousOf(w, c, t).value <= t
    ensures forall run :: IsRun(c, z, run) && run <= t ==> PreviousOf(w, c, t).Some? && run <= PreviousOf(w, c, t).value
  {
    var today := z.dayOf(t);
    LastByMeaning(c, z, t, today, today - 8);
    if Lives(c) {
      var weekday: nat :| weekday < 7 && Allows(c, weekday);
      var d := SomeDayOf(weekday, today - 7);
      AroundToday(z, c, t, d);
      assert RunsOn(c, z, d);
    }
    forall run | IsRun(c, z, run) && run <= t ensures PreviousOf(w, c, t).Some? && run <= PreviousOf(w, c, t).value {
      var d :| RunsOn(c, z, d) && run == z.at(d, ClockIn(c));
      AroundToday(z, c, t, d);
      assert Lives(c) by { assert Allows(c, Weekday(d)); }
    }
  }

  // Every acceptable repeating cadence runs on some day.
  lemma AcceptedLive(w: World, c: Cadence)
    requires Acceptable(w, c)
    ensures Lives(c.(days := WeekDays(c.days)))
  {
    var out := c.(days := WeekDays(c.days));
    if c.repeat == "weekly" {
      DaysFromMeaning(c.days, 0);
      assert out.days[0] in out.days;
      var i :| 0 <= i < 7 && WEEKDAYS[i] == out.days[0];
      assert Allows(out, i);
    } else {
      assert Allows(out, 1);
    }
  }

  lemma NextIsRun(w: World, c: Cadence, z: Zone, t: int)
    requires w.zones(c.timezone) == Some(z) && ZoneOk(z, ClockIn(c)) && c.repeat != "once" && Lives(c)
    ensures NextOf(w, c, t).Some? && IsRun(c, z, NextOf(w, c, t).value) && t < NextOf(w, c, t).value
    ensures PreviousOf(w, c, t).Some? && IsRun(c, z, PreviousOf(w, c, t).value) && PreviousOf(w, c, t).value <= t
  {
    NextIsTheFirst(w, c, z, t);
    PreviousIsTheLast(w, c, z, t);
  }

  // A run bounds both searches, from its own side.
  lemma RunBounds(w: World, c: Cadence, z: Zone, t: int, run: int)
    requires w.zones(c.timezone) == Some(z) && ZoneOk(z, ClockIn(c)) && c.repeat != "once" && Lives(c)
    requires IsRun(c, z, run)
    ensures NextOf(w, c, t).Some? && PreviousOf(w, c, t).Some?
    ensures run > t ==> NextOf(w, c, t).value <= run
    ensures run <= t ==> run <= PreviousOf(w, c, t).value
  {
    NextIsTheFirst(w, c, z, t);
    PreviousIsTheLast(w, c, z, t);
  }

  // No run lies strictly between the two searches' answers.
  lemma NothingBetween(w: World, c: Cadence, z: Zone, t: int)
    requires w.zones(c.timezone) == Some(z) && ZoneOk(z, ClockIn(c)) && c.repeat != "once" && Lives(c)
    ensures NextOf(w, c, t).Some? && PreviousOf(w, c, t).Some?
    ensures PreviousOf(w, c, t).value <= t < NextOf(w, c, t).value
    ensures forall run :: IsRun(c, z, run) ==> run <= PreviousOf(w, c, t).value || NextOf(w, c, t).value <= run
  {
    NextIsRun(w, c, z, t);
    forall run | IsRun(c, z, run) ensures run <= PreviousOf(w, c, t).value || NextOf(w, c, t).value <= run {
      RunBounds(w, c, z, t, run);
    }
  }

  lemma NextFromPrevious(w: World, c: Cadence, z: Zone, t: int)
    requires w.zones(c.timezone) == Some(z) && ZoneOk(z, ClockIn(c)) && c.repeat != "once" && Lives(c)
    ensures PreviousOf(w, c, t).Some? && NextOf(w, c, PreviousOf(w, c, t).value) == NextOf(w, c, t)
  {
    NextIsRun(w, c, z, t);
    var next, previous := NextOf(w, c, t).value, PreviousOf(w, c, t).value;
    NextIsRun(w, c, z, previous);
    RunBounds(w, c, z, previous, next);
    RunBounds(w, c, z, t, NextOf(w, c, previous).value);
  }

  lemma PreviousFromNext(w: World, c: Cadence, z: Zone, t: int)
    requires w.zones(c.timezone) == Some(z) && ZoneOk(z, ClockIn(c)) && c.repeat != "once" && Lives(c)
    ensures NextOf(w, c, t).Some? && PreviousOf(w, c, NextOf(w, c, t).value - 1) == PreviousOf(w, c, t)
    ensures PreviousOf(w, c, NextOf(w, c, t).value) == NextOf(w, c, t)
  {
    NextIsRun(w, c, z, t);
    var next, previous := NextOf(w, c, t).value, PreviousOf(w, c, t).value;
    NextIsRun(w, c, z, next - 1);
    NextIsRun(w, c, z, next);
    RunBounds(w, c, z, next - 1, previous);
    RunBounds(w, c, z, t, PreviousOf(w, c, next - 1).value);
    RunBounds(w, c, z, next, next);
  }

  // So each search leads back from the other's answer.
  lemma ThereAndBack(w: World, c: Cadence, z: Zone, t: int)
    requires w.zones(c.timezone) == Some(z) && ZoneOk(z, ClockIn(c)) && c.repeat != "once" && Lives(c)
    ensures NextOf(w, c, t).Some? && PreviousOf(w, c, t).Some?
    ensures NextOf(w, c, PreviousOf(w, c, t).value) == NextOf(w, c, t)
    ensures PreviousOf(w, c, NextOf(w, c, t).value - 1) == PreviousOf(w, c, t)
    ensures PreviousOf(w, c, NextOf(w, c, t).value) == NextOf(w, c, t)
  {
    NextFromPrevious(w, c, z, t);
    PreviousFromNext(w, c, z, t);
  }

  // ----- What the app shows of a schedule -----

  datatype Schedule = Schedule(cadence: Cadence, status: string, deleted: bool, created: int, lastRun: Option<int>)

  function NextRun(w: World, s: Schedule, now: int): Option<int> {
    if s.status == "paused" || s.deleted then None else NextOf(w, s.cadence, now)
  }

  // What the app shows as the next run: the first of all after now, and
  // nothing for a schedule paused or deleted.
  lemma NextRunShown(w: World, s: Schedule, z: Zone, now: int)
    requires w.zones(s.cadence.timezone) == Some(z) && ZoneOk(z, ClockIn(s.cadence))
    requires s.cadence.repeat != "once" && Lives(s.cadence)
    ensures NextRun(w, s, now).Some? <==> s.status != "paused" && !s.deleted
    ensures NextRun(w, s, now).Some? ==>
              && IsRun(s.cadence, z, NextRun(w, s, now).value) && NextRun(w, s, now).value > now
              && forall run :: IsRun(s.cadence, z, run) && run > now ==> NextRun(w, s, now).value <= run
  {
    NextIsTheFirst(w, s.cadence, z, now);
  }

  // A one-off runs at its one instant, if its zone and date can be read: that
  // is its next run before it and its previous one from then on.
  lemma OnceRuns(w: World, s: Schedule, t: int)
    requires s.cadence.repeat == "once"
    ensures var c := s.cadence;
            if w.zones(c.timezone).None? || w.dates(c.date).None? then
              NextOf(w, c, t) == None && PreviousOf(w, c, t) == None && NextRun(w, s, t) == None
            else
              var due := w.zones(c.timezone).value.at(w.dates(c.date).value, ClockIn(c));
              && NextOf(w, c, t) == (if due > t then Some(due) else None)
              && PreviousOf(w, c, t) == (if due <= t then Some(due) else None)
              && NextRun(w, s, t) == if due > t && s.status != "paused" && !s.deleted then Some(due) else None
  {
  }

  // A cadence a schedule may be given: one accepted that will run again.
  function FutureCadence(w: World, c: Cadence, now: int): Option<Cadence> {
    var out := c.(days := WeekDays(c.days));
    if Acceptable(w, c) && NextOf(w, out, now).Some? then Some(out) else None
  }

  // Only a one-off can come too late.
  lemma FutureExactly(w: World, c: Cadence, z: Zone, now: int)
    requires w.zones(c.timezone) == Some(z) && ZoneOk(z, ClockIn(c))
    ensures var kept := FutureCadence(w, c, now);
            && (kept.Some? ==> kept.value.(days := c.days) == c && Lives(kept.value))
            && (kept.Some? <==>
                  Acceptable(w, c) && (c.repeat == "once" ==> z.at(w.dates(c.date).value, ClockIn(c)) > now))
  {
    if Acceptable(w, c) {
      AcceptedLive(w, c);
      if c.repeat != "once" {
        NextIsTheFirst(w, c.(days := WeekDays(c.days)), z, now);
      }
    }
  }

  // The missed run the app mentions: due ten minutes ago or more, and neither
  // older than the schedule nor answered by a run of it.
  function MissedAt(w: World, s: Schedule, now: int): Option<int> {
    if s.status != "active" || s.deleted then None
    else
      var due := PreviousOf(w, s.cadence, now - MISS_GRACE);
      if due.None? || due.value < s.created then None
      else if s.lastRun.Some? && s.lastRun.value >= due.value - MINUTE then None
      else due
  }

  // A miss is told for an active repeating schedule from exactly ten minutes
  // past the first due time later than a minute after its last run, and then
  // names the latest due time at least ten minutes old. One that never ran
  // counts from when it was made.
  lemma MissedExactly(w: World, s: Schedule, z: Zone, now: int)
    requires w.zones(s.cadence.timezone) == Some(z) && ZoneOk(z, ClockIn(s.cadence))
    requires s.cadence.repeat != "once" && Lives(s.cadence)
    requires s.lastRun.Some? ==> s.created <= s.lastRun.value
    ensures var minute := 60_000_000_000;
            var from := if s.lastRun.Some? then s.lastRun.value + minute else s.created - 1;
            && NextOf(w, s.cadence, from).Some?
            && (MissedAt(w, s, now).Some? <==>
                  s.status == "active" && !s.deleted && now >= NextOf(w, s.cadence, from).value + 10 * minute)
            && (MissedAt(w, s, now).Some? ==>
                  && MissedAt(w, s, now) == PreviousOf(w, s.cadence, now - 10 * minute)
                  && IsRun(s.cadence, z, MissedAt(w, s, now).value) && MissedAt(w, s, now).value > from)
  {
    var from := if s.lastRun.Some? then s.lastRun.value + MINUTE else s.created - 1;
    NextIsRun(w, s.cadence, z, from);
    NextIsRun(w, s.cadence, z, now - MISS_GRACE);
    RunBounds(w, s.cadence, z, from, PreviousOf(w, s.cadence, now - MISS_GRACE).value);
    RunBounds(w, s.cadence, z, now - MISS_GRACE, NextOf(w, s.cadence, from).value);
  }

  // An active one-off is missed from ten minutes past its time, unless it ran within
  // the minute before it or later, or was made after it.
  lemma OnceMissed(w: World, s: Schedule, now: int)
    requires s.cadence.repeat == "once"
    ensures var minute := 60_000_000_000;
            var zone, date := w.zones(s.cadence.timezone), w.dates(s.cadence.date);
            MissedAt(w, s, now).Some? <==>
            && s.status == "active" && !s.deleted && zone.Some? && date.Some?
            && var due := zone.value.at(date.value, ClockIn(s.cadence));
               s.created <= due <= now - 10 * minute && (s.lastRun.Some? ==> s.lastRun.value < due - minute)
  {
  }
}
