// Strings cut and joined at a separator, and numbers written in decimal.
module Text {
  import opened Clock

  function Split(s: string, sep: char): (parts: seq<string>)
    ensures parts != []
  {
    if s == "" then [""]
    else
      var rest := Split(s[1..], sep);
      if s[0] == sep then [""] + rest else [[s[0]] + rest[0]] + rest[1..]
  }

  function Join(parts: seq<string>, sep: char): string
    requires parts != []
  {
    if |parts| == 1 then parts[0] else parts[0] + [sep] + Join(parts[1..], sep)
  }

  lemma {:induction false} SplitWhole(p: string, sep: char)
    requires sep !in p
    ensures Split(p, sep) == [p]
  {
    if p != "" {
      assert forall c <- p[1..] :: c in p;
      SplitWhole(p[1..], sep);
      assert p == [p[0]] + p[1..];
    }
  }

  lemma {:induction false} SplitFirst(p: string, rest: string, sep: char)
    requires sep !in p
    ensures Split(p + [sep] + rest, sep) == [p] + Split(rest, sep)
  {
    var s := p + [sep] + rest;
    if p == "" {
      assert s[1..] == rest;
    } else {
      assert forall c <- p[1..] :: c in p;
      SplitFirst(p[1..], rest, sep);
      assert s[1..] == p[1..] + [sep] + rest;
      assert p == [p[0]] + p[1..];
    }
  }

  // Cutting undoes joining.
  lemma {:induction false} SplitJoin(parts: seq<string>, sep: char)
    requires parts != [] && forall p <- parts :: sep !in p
    ensures Split(Join(parts, sep), sep) == parts
  {
    if |parts| == 1 {
      SplitWhole(parts[0], sep);
    } else {
      SplitJoin(parts[1..], sep);
      SplitFirst(parts[0], Join(parts[1..], sep), sep);
      assert parts == [parts[0]] + parts[1..];
    }
  }

  predicate IsNumber(s: string) {
    s != "" && forall c <- s :: IsDigit(c)
  }

  function NumberOf(s: string): nat
    requires forall c <- s :: IsDigit(c)
  {
    if s == "" then 0 else 10 * NumberOf(s[..|s| - 1]) + Value(s[|s| - 1])
  }

  function Digit(n: nat): (c: char)
    requires n < 10
    ensures IsDigit(c) && Value(c) == n
  {
    ('0' as int + n) as char
  }

  // A number below a hundred, printed.
  function Decimal(n: nat): string
    requires n < 100
  {
    if n < 10 then [Digit(n)] else [Digit(n / 10), Digit(n % 10)]
  }

  lemma NumberOfTwo(s: string)
    requires IsNumber(s) && |s| <= 2
    ensures NumberOf(s) == if |s| == 1 then Value(s[0]) else 10 * Value(s[0]) + Value(s[1])
    ensures NumberOf(s) < 100
  {
    assert NumberOf(s[..0]) == 0;
    assert IsDigit(s[0]);
    if |s| == 2 {
      assert s[..1][..0] == "";
      assert IsDigit(s[1]);
      assert NumberOf(s[..1]) == Value(s[0]);
    }
  }

  lemma DecimalReads(n: nat)
    requires n < 100
    ensures IsNumber(Decimal(n)) && |Decimal(n)| <= 2 && NumberOf(Decimal(n)) == n
  {
    NumberOfTwo(Decimal(n));
  }
}

// The translation of a cadence to a cron line and back (runtime/src/cadence.ts),
// against the usual meaning of a five-field cron line.
module Cron {
  import opened Wrappers
  import opened Clock
  import opened Text
  import opened Cadences

  // ----- What a cron line means -----

  predicate ItemAllows(item: string, v: nat) {
    if item == "*" then true
    else if IsNumber(item) then NumberOf(item) == v
    else
      var ends := Split(item, '-');
      |ends| == 2 && IsNumber(ends[0]) && IsNumber(ends[1]) && NumberOf(ends[0]) <= v <= NumberOf(ends[1])
  }

  predicate FieldAllows(field: string, v: nat) {
    exists item <- Split(field, ',') :: ItemAllows(item, v)
  }

  // Sunday is 0, and 7 too.
  predicate WeekdayAllows(field: string, weekday: nat) {
    FieldAllows(field, weekday) || (weekday == 0 && FieldAllows(field, 7))
  }

  // A local minute: of the hour, the hour, the day of the month, the month
  // and the day of the week.
  datatype Moment = Moment(minute: nat, hour: nat, day: nat, month: nat, weekday: nat)

  predicate MomentOk(m: Moment) {
    m.minute < 60 && m.hour < 24 && m.weekday < 7
  }

  // When both the day of the month and of the week are restricted, either
  // will do.
  predicate Fires(line: string, m: Moment) {
    FieldsFire(Split(line, ' '), m)
  }

  predicate FieldsFire(f: seq<string>, m: Moment) {
    && |f| == 5
    && FieldAllows(f[0], m.minute) && FieldAllows(f[1], m.hour) && FieldAllows(f[3], m.month)
    && (if f[2] != "*" && f[4] != "*"
        then FieldAllows(f[2], m.day) || WeekdayAllows(f[4], m.weekday)
        else FieldAllows(f[2], m.day) && WeekdayAllows(f[4], m.weekday))
  }

  // ----- The translation -----

  predicate ValidDate(date: string) {
    && |date| == 10 && date[4] == '-' && date[7] == '-'
    && forall i | 0 <= i < 10 :: i == 4 || i == 7 || IsDigit(date[i])
  }

  // Whether a cadence is one the runtime can hold.
  predicate ValidCadence(c: Cadence) {
    && ClockOf(c.time).Some?
    && (if c.repeat == "weekly" then c.days != [] && forall d <- c.days :: d in WEEKDAYS
        else if c.repeat == "once" then ValidDate(c.date)
        else c.repeat == "daily" || c.repeat == "weekdays")
  }

  function DayIndex(name: string): (i: nat)
    requires name in WEEKDAYS
    ensures i < 7 && WEEKDAYS[i] == name
  {
    if name == WEEKDAYS[0] then 0 else if name == WEEKDAYS[1] then 1 else if name == WEEKDAYS[2] then 2
    else if name == WEEKDAYS[3] then 3 else if name == WEEKDAYS[4] then 4 else if name == WEEKDAYS[5] then 5 else 6
  }

  function DayNumbers(days: seq<string>): (numbers: seq<string>)
    requires forall d <- days :: d in WEEKDAYS
    ensures |numbers| == |days| && forall i | 0 <= i < |days| :: numbers[i] == Decimal(DayIndex(days[i]))
  {
    seq(|days|, i requires 0 <= i < |days| => Decimal(DayIndex(days[i])))
  }

  // The fields for the day of the month, the month and the day of the week.
  function DayFields(c: Cadence): seq<string>
    requires ValidCadence(c)
  {
    if c.repeat == "daily" then ["*", "*", "*"]
    else if c.repeat == "weekdays" then ["*", "*", "1-5"]
    else if c.repeat == "weekly" then ["*", "*", Join(DayNumbers(c.days), ',')]
    else
      var (month, day) := (10 * Value(c.date[5]) + Value(c.date[6]), 10 * Value(c.date[8]) + Value(c.date[9]));
      [Decimal(day), Decimal(month), "*"]
  }

  function CronOf(c: Cadence): string
    requires ValidCadence(c)
  {
    var clock := ClockOf(c.time).value;
    var days := DayFields(c);
    Decimal(clock % 60) + " " + (Decimal(clock / 60) + " " + (days[0] + " " + (days[1] + " " + days[2])))
  }

  predicate IsJsSpace(c: char) {
    (IsSpace(c) && c != '\U{85}') || c == '\U{FEFF}'
  }

  function TrimJs(s: string): string {
    if s != "" && IsJsSpace(s[0]) then TrimJs(s[1..])
    else if s != "" && IsJsSpace(s[|s| - 1]) then TrimJs(s[..|s| - 1])
    else s
  }

  predicate OneOrTwoDigits(s: string) {
    IsNumber(s) && |s| <= 2
  }

  // A list of single days, 0 to 6.
  predicate DayList(s: string) {
    forall item <- Split(s, ',') :: |item| == 1 && '0' <= item[0] <= '6'
  }

  // What the pattern a line must match comes to.
  predicate Shown(f: seq<string>) {
    && |f| == 5 && OneOrTwoDigits(f[0]) && OneOrTwoDigits(f[1]) && f[2] == "*" && f[3] == "*"
    && (f[4] == "*" || f[4] == "1-5" || DayList(f[4]))
  }

  function PadStart(s: string): string {
    if |s| == 1 then "0" + s else s
  }

  // The days of a list, each once, where it first comes.
  function Once<T(==)>(s: seq<T>): seq<T> {
    if s == [] then []
    else
      var before := Once(s[..|s| - 1]);
      if s[|s| - 1] in before then before else before + [s[|s| - 1]]
  }

  function DaysOf(list: string): (days: seq<string>)
    requires DayList(list)
    ensures |days| == |Split(list, ',')|
    ensures forall i | 0 <= i < |days| :: days[i] == WEEKDAYS[Value(Split(list, ',')[i][0])]
  {
    var items := Split(list, ',');
    seq(|items|, i requires 0 <= i < |items| => WEEKDAYS[Value(items[i][0])])
  }

  function CadenceOf(cron: string, timezone: string): Option<Cadence> {
    Read(Split(TrimJs(cron), ' '), timezone)
  }

  function Read(f: seq<string>, timezone: string): Option<Cadence> {
    if !Shown(f) || NumberOf(f[1]) > 23 || NumberOf(f[0]) > 59 then None
    else
      var time := PadStart(f[1]) + ":" + PadStart(f[0]);
      if f[4] == "*" then Some(Cadence("daily", time, [], "", timezone))
      else if f[4] == "1-5" then Some(Cadence("weekdays", time, [], "", timezone))
      else Some(Cadence("weekly", time, Once(DaysOf(f[4])), "", timezone))
  }

  // ----- Fields -----

  lemma NumberField(s: string, v: nat)
    requires IsNumber(s)
    ensures FieldAllows(s, v) <==> NumberOf(s) == v
  {
    assert !IsDigit(',');
    SplitWhole(s, ',');
    assert '*' in "*" && !IsDigit('*');
    assert s in [s];
  }

  lemma StarField(v: nat)
    ensures FieldAllows("*", v)
  {
    SplitWhole("*", ',');
    assert "*" in ["*"] && ItemAllows("*", v);
  }

  lemma WeekdaysField(v: nat)
    ensures FieldAllows("1-5", v) <==> 1 <= v <= 5
  {
    SplitWhole("1-5", ',');
    SplitFirst("1", "5", '-');
    assert "1-5" == "1" + ['-'] + "5";
    SplitWhole("5", '-');
    NumberOfTwo("1");
    NumberOfTwo("5");
    assert !IsNumber("1-5") by { assert '-' in "1-5" && !IsDigit('-'); }
    assert "1-5" in ["1-5"];
  }

  // A list of days allows exactly the days it lists, and never 7.
  lemma ListField(s: string, v: nat)
    requires DayList(s)
    ensures FieldAllows(s, v) <==> exists item <- Split(s, ',') :: Value(item[0]) == v
    ensures FieldAllows(s, v) ==> v < 7
  {
    forall item | item in Split(s, ',') ensures ItemAllows(item, v) <==> Value(item[0]) == v {
      NumberOfTwo(item);
    }
  }

  lemma ListNames(s: string, v: nat)
    requires DayList(s) && v < 7
    ensures FieldAllows(s, v) <==> WEEKDAYS[v] in DaysOf(s)
  {
    ListField(s, v);
    WeekdaysDistinct();
    var items, days := Split(s, ','), DaysOf(s);
    if WEEKDAYS[v] in days {
      var i :| 0 <= i < |days| && days[i] == WEEKDAYS[v];
      assert items[i] in items;
    }
    if FieldAllows(s, v) {
      var item :| item in items && Value(item[0]) == v;
      var i :| 0 <= i < |items| && items[i] == item;
      assert days[i] == WEEKDAYS[v];
    }
  }

  // The weekday field of a cadence that repeats, by its kind.
  lemma WeekdayField(c: Cadence, field: string, weekday: nat)
    requires weekday < 7
    requires c.repeat == "daily" ==> field == "*"
    requires c.repeat == "weekdays" ==> field == "1-5"
    requires c.repeat == "weekly" ==> DayList(field) && forall d :: d in c.days <==> d in DaysOf(field)
    requires c.repeat in {"daily", "weekdays", "weekly"}
    ensures WeekdayAllows(field, weekday) <==> Allows(c, weekday)
  {
    if c.repeat == "daily" {
      StarField(weekday);
    } else if c.repeat == "weekdays" {
      WeekdaysField(weekday);
      WeekdaysField(7);
    } else {
      ListNames(field, weekday);
      ListField(field, 7);
    }
  }

  // ----- The line made from a cadence -----

  lemma NoSeparator(s: string, sep: char)
    requires IsNumber(s) && sep in {' ', ',', '-'}
    ensures sep !in s
  {
    assert !IsDigit(sep);
  }

  lemma {:induction false} JoinAvoids(parts: seq<string>, sep: char, other: char)
    requires parts != [] && other != sep && forall p <- parts :: other !in p
    ensures other !in Join(parts, sep)
  {
    if |parts| > 1 {
      JoinAvoids(parts[1..], sep, other);
    }
  }

  // The list printed for a weekly cadence is one, of its own days in order.
  lemma PrintedList(days: seq<string>)
    requires days != [] && forall d <- days :: d in WEEKDAYS
    ensures var list := Join(DayNumbers(days), ','); DayList(list) && DaysOf(list) == days && ' ' !in list
  {
    var numbers := DayNumbers(days);
    forall n | n in numbers ensures ',' !in n && ' ' !in n && |n| == 1 && '0' <= n[0] <= '6' {
      var i :| 0 <= i < |numbers| && numbers[i] == n;
      assert n == [Digit(DayIndex(days[i]))];
    }
    SplitJoin(numbers, ',');
    JoinAvoids(numbers, ',', ' ');
    var list := Join(numbers, ',');
    forall i | 0 <= i < |days| ensures DaysOf(list)[i] == days[i] {
      assert numbers[i] == [Digit(DayIndex(days[i]))];
    }
  }

  lemma DayFieldsClean(c: Cadence)
    requires ValidCadence(c)
    ensures |DayFields(c)| == 3 && forall f <- DayFields(c) :: ' ' !in f
  {
    if c.repeat == "weekly" {
      PrintedList(c.days);
    }
  }

  lemma CronFields(c: Cadence)
    requires ValidCadence(c)
    ensures var clock := ClockOf(c.time).value;
            Split(CronOf(c), ' ') == [Decimal(clock % 60), Decimal(clock / 60)] + DayFields(c)
  {
    var clock := ClockOf(c.time).value;
    DayFieldsClean(c);
    DecimalReads(clock % 60);
    DecimalReads(clock / 60);
    NoSeparator(Decimal(clock % 60), ' ');
    NoSeparator(Decimal(clock / 60), ' ');
    var d := DayFields(c);
    SplitFive(Decimal(clock % 60), Decimal(clock / 60), d[0], d[1], d[2]);
  }

  lemma SplitFive(a: string, b: string, c: string, d: string, e: string)
    requires ' ' !in a && ' ' !in b && ' ' !in c && ' ' !in d && ' ' !in e
    ensures Split(a + " " + (b + " " + (c + " " + (d + " " + e))), ' ') == [a, b, c, d, e]
  {
    SplitWhole(e, ' ');
    SplitFirst(d, e, ' ');
    SplitFirst(c, d + " " + e, ' ');
    SplitFirst(b, c + " " + (d + " " + e), ' ');
    SplitFirst(a, b + " " + (c + " " + (d + " " + e)), ' ');
  }

  // A line is written as cron has it: minute, hour, day of the month, month,
  // day of the week; the two numbers without leading zeros.
  lemma PrintedLine(c: Cadence, hour: nat, minute: nat)
    requires ValidCadence(c) && hour < 24 && minute < 60 && c.time == TwoDigits(hour) + ":" + TwoDigits(minute)
    ensures var at := Decimal(minute) + " " + Decimal(hour);
            && (c.repeat == "daily" ==> CronOf(c) == at + " * * *")
            && (c.repeat == "weekdays" ==> CronOf(c) == at + " * * 1-5")
            && (c.repeat == "weekly" ==> CronOf(c) == at + " * * " + Join(DayNumbers(c.days), ','))
  {
    var clock := 60 * hour + minute;
    assert clock / 60 == hour && clock % 60 == minute;
    ClockReads(c.time, clock);
    var days := DayFields(c);
    assert days[0] == "*" || c.repeat == "once";
    Spaced(Decimal(minute), Decimal(hour), days[2]);
  }

  lemma Spaced(a: string, b: string, e: string)
    ensures a + " " + (b + " " + ("*" + " " + ("*" + " " + e))) == a + " " + b + " * * " + e
  {
    assert "*" + " " + ("*" + " " + e) == "* * " + e;
    assert b + " " + ("* * " + e) == b + " * * " + e;
  }

  lemma PrintedDate(c: Cadence, hour: nat, minute: nat, month: nat, day: nat)
    requires ValidCadence(c) && hour < 24 && minute < 60 && c.time == TwoDigits(hour) + ":" + TwoDigits(minute)
    requires c.repeat == "once" && month < 100 && day < 100 && |c.date| == 10
    requires c.date[4..] == "-" + TwoDigits(month) + "-" + TwoDigits(day)
    ensures CronOf(c) == Decimal(minute) + " " + Decimal(hour) + " " + Decimal(day) + " " + Decimal(month) + " *"
  {
    var clock := 60 * hour + minute;
    assert clock / 60 == hour && clock % 60 == minute;
    ClockReads(c.time, clock);
    assert c.date[5..7] == c.date[4..][1..3] == TwoDigits(month);
    assert c.date[8..10] == c.date[4..][4..6] == TwoDigits(day);
    assert c.date[5] == c.date[5..7][0] && c.date[6] == c.date[5..7][1];
    assert c.date[8] == c.date[8..10][0] && c.date[9] == c.date[8..10][1];
    assert DayFields(c) == [Decimal(day), Decimal(month), "*"];
  }

  // The line made from a daily, weekdays or weekly cadence fires at exactly
  // the local times, on exactly the days, that the hub itself runs it.
  lemma CronMeansTheCadence(c: Cadence, m: Moment)
    requires ValidCadence(c) && c.repeat != "once" && MomentOk(m)
    ensures Fires(CronOf(c), m) <==> Allows(c, m.weekday) && 60 * m.hour + m.minute == ClockIn(c)
  {
    var clock := ClockOf(c.time).value;
    CronFields(c);
    var f := Split(CronOf(c), ' ');
    DecimalReads(clock % 60);
    DecimalReads(clock / 60);
    NumberField(f[0], m.minute);
    NumberField(f[1], m.hour);
    StarField(m.month);
    StarField(m.day);
    if c.repeat == "weekly" {
      PrintedList(c.days);
    }
    WeekdayField(c, f[4], m.weekday);
  }

  // A one-off's line fires on its day and month, in every year.
  lemma OneOffMeaning(c: Cadence, m: Moment)
    requires ValidCadence(c) && c.repeat == "once" && MomentOk(m)
    ensures Fires(CronOf(c), m) <==>
            && 60 * m.hour + m.minute == ClockIn(c)
            && m.month == 10 * Value(c.date[5]) + Value(c.date[6])
            && m.day == 10 * Value(c.date[8]) + Value(c.date[9])
  {
    var clock := ClockOf(c.time).value;
    CronFields(c);
    var f := Split(CronOf(c), ' ');
    forall n: nat | n < 100 ensures IsNumber(Decimal(n)) && NumberOf(Decimal(n)) == n {
      DecimalReads(n);
    }
    NumberField(f[0], m.minute);
    NumberField(f[1], m.hour);
    NumberField(f[2], m.day);
    NumberField(f[3], m.month);
    StarField(m.weekday);
  }

  // ----- And back -----

  lemma {:induction false} OnceMeaning<T>(s: seq<T>)
    ensures Distinct(Once(s)) && (forall x :: x in Once(s) <==> x in s)
    ensures Once(s) == s <==> Distinct(s)
    ensures |Once(s)| <= |s|
  {
    if s != [] {
      var front, last := s[..|s| - 1], s[|s| - 1];
      OnceMeaning(front);
      assert s == front + [last];
      if last !in Once(front) && Once(s) == s {
        assert Once(front) == s[..|s| - 1];
      }
      if Distinct(s) {
        assert Distinct(front);
        assert last !in front;
      }
    }
  }

  lemma TrimmedAlready(s: string)
    requires s != "" && !IsJsSpace(s[0]) && !IsJsSpace(s[|s| - 1])
    ensures TrimJs(s) == s
  {
  }

  // A clock time printed and padded is itself again.
  lemma ClockPrinted(time: string)
    requires ClockOf(time).Some?
    ensures var clock := ClockOf(time).value;
            PadStart(Decimal(clock / 60)) + ":" + PadStart(Decimal(clock % 60)) == time
  {
    var clock := ClockOf(time).value;
    var hour, minute := 10 * Value(time[0]) + Value(time[1]), 10 * Value(time[3]) + Value(time[4]);
    assert clock / 60 == hour && clock % 60 == minute;
    PaddedTwo(time[0], time[1]);
    PaddedTwo(time[3], time[4]);
  }

  lemma PaddedTwo(a: char, b: char)
    requires IsDigit(a) && IsDigit(b)
    ensures PadStart(Decimal(10 * Value(a) + Value(b))) == [a, b]
  {
  }

  lemma LineEnds(c: Cadence)
    requires ValidCadence(c) && c.repeat != "once"
    ensures TrimJs(CronOf(c)) == CronOf(c)
  {
    var clock := ClockOf(c.time).value;
    var line, last := CronOf(c), DayFields(c)[2];
    assert line[0] == Decimal(clock % 60)[0];
    LastField(c);
    assert line[|line| - 1] == last[|last| - 1];
    TrimmedAlready(line);
  }

  lemma LastField(c: Cadence)
    requires ValidCadence(c) && c.repeat != "once"
    ensures var last := DayFields(c)[2]; last != "" && !IsJsSpace(last[|last| - 1])
  {
    if c.repeat == "weekly" {
      JoinLast(DayNumbers(c.days), ',');
      var numbers := DayNumbers(c.days);
      assert numbers[|numbers| - 1] == [Digit(DayIndex(c.days[|numbers| - 1]))];
    }
  }

  lemma {:induction false} JoinLast(parts: seq<string>, sep: char)
    requires parts != [] && parts[|parts| - 1] != ""
    ensures var j, last := Join(parts, sep), parts[|parts| - 1]; j != "" && j[|j| - 1] == last[|last| - 1]
  {
    if |parts| > 1 {
      JoinLast(parts[1..], sep);
    }
  }

  lemma NotALists()
    ensures !DayList("*") && !DayList("1-5")
  {
    SplitWhole("*", ',');
    assert "*" in ["*"];
    SplitWhole("1-5", ',');
    assert "1-5" in ["1-5"];
  }

  // What comes back from a cadence's own line: the cadence, with each day
  // kept once, and nothing that its kind does not use.
  lemma BackFromCron(c: Cadence)
    requires ValidCadence(c) && c.repeat != "once"
    ensures CadenceOf(CronOf(c), c.timezone) ==
            Some(Cadence(c.repeat, c.time, if c.repeat == "weekly" then Once(c.days) else [], "", c.timezone))
  {
    LineEnds(c);
    CronFields(c);
    ReadBack(c, Split(CronOf(c), ' '));
  }

  lemma ReadBack(c: Cadence, f: seq<string>)
    requires ValidCadence(c) && c.repeat != "once"
    requires var clock := ClockOf(c.time).value; f == [Decimal(clock % 60), Decimal(clock / 60)] + DayFields(c)
    ensures Read(f, c.timezone) ==
            Some(Cadence(c.repeat, c.time, if c.repeat == "weekly" then Once(c.days) else [], "", c.timezone))
  {
    var clock := ClockOf(c.time).value;
    DecimalReads(clock % 60);
    DecimalReads(clock / 60);
    ClockPrinted(c.time);
    if c.repeat == "weekly" {
      PrintedList(c.days);
      ReadList(f, c.timezone);
    } else {
      ReadKind(f, c.timezone);
    }
  }

  lemma ReadList(f: seq<string>, timezone: string)
    requires |f| == 5 && OneOrTwoDigits(f[0]) && OneOrTwoDigits(f[1]) && f[2] == "*" && f[3] == "*" && DayList(f[4])
    requires NumberOf(f[1]) <= 23 && NumberOf(f[0]) <= 59
    ensures Read(f, timezone) ==
            Some(Cadence("weekly", PadStart(f[1]) + ":" + PadStart(f[0]), Once(DaysOf(f[4])), "", timezone))
  {
    NotALists();
  }

  lemma ReadKind(f: seq<string>, timezone: string)
    requires |f| == 5 && OneOrTwoDigits(f[0]) && OneOrTwoDigits(f[1]) && f[2] == "*" && f[3] == "*"
    requires f[4] in {"*", "1-5"}
    requires NumberOf(f[1]) <= 23 && NumberOf(f[0]) <= 59
    ensures Read(f, timezone) ==
            Some(Cadence(if f[4] == "*" then "daily" else "weekdays",
                         PadStart(f[1]) + ":" + PadStart(f[0]), [], "", timezone))
  {
  }

  // So a cadence in the form the hub sends survives the round trip exactly
  // when its days are distinct.
  lemma RoundTrip(c: Cadence)
    requires ValidCadence(c) && c.repeat != "once"
    requires c.date == "" && (c.repeat != "weekly" ==> c.days == [])
    ensures CadenceOf(CronOf(c), c.timezone) == Some(c) <==> Distinct(c.days)
  {
    BackFromCron(c);
    OnceMeaning(c.days);
  }

  lemma PaddedClock(hour: string, minute: string)
    requires OneOrTwoDigits(hour) && OneOrTwoDigits(minute) && NumberOf(hour) <= 23 && NumberOf(minute) <= 59
    ensures ClockOf(PadStart(hour) + ":" + PadStart(minute)) == Some(60 * NumberOf(hour) + NumberOf(minute))
  {
    NumberOfTwo(hour);
    NumberOfTwo(minute);
  }

  lemma ReadIsValid(f: seq<string>, timezone: string)
    requires Read(f, timezone).Some?
    ensures var c := Read(f, timezone).value;
            && ValidCadence(c) && c.repeat in {"daily", "weekdays", "weekly"}
            && ClockIn(c) == 60 * NumberOf(f[1]) + NumberOf(f[0])
            && (c.repeat == "daily" ==> f[4] == "*") && (c.repeat == "weekdays" ==> f[4] == "1-5")
            && (c.repeat == "weekly" ==> DayList(f[4]) && forall d :: d in c.days <==> d in DaysOf(f[4]))
  {
    PaddedClock(f[1], f[0]);
    if f[4] == "*" || f[4] == "1-5" {
      ReadKind(f, timezone);
    } else {
      ReadList(f, timezone);
      ListIsValid(f[4]);
    }
  }

  lemma ListIsValid(list: string)
    requires DayList(list)
    ensures Once(DaysOf(list)) != [] && forall d :: d in Once(DaysOf(list)) <==> d in DaysOf(list)
    ensures forall d <- Once(DaysOf(list)) :: d in WEEKDAYS
  {
    OnceMeaning(DaysOf(list));
    assert DaysOf(list)[0] in Once(DaysOf(list));
  }

  // A line the app can show means what its cadence means to the hub.
  lemma ShownMeansTheCadence(cron: string, timezone: string, m: Moment)
    requires CadenceOf(cron, timezone).Some? && MomentOk(m)
    ensures var c := CadenceOf(cron, timezone).value;
            && ValidCadence(c) && c.repeat != "once"
            && (Fires(TrimJs(cron), m) <==> Allows(c, m.weekday) && 60 * m.hour + m.minute == ClockIn(c))
  {
    var f := Split(TrimJs(cron), ' ');
    ReadIsValid(f, timezone);
    NumberField(f[0], m.minute);
    NumberField(f[1], m.hour);
    StarField(m.month);
    StarField(m.day);
    WeekdayField(CadenceOf(cron, timezone).value, f[4], m.weekday);
  }

  // Printing again a line the app can show keeps every time it fires.
  lemma ReprintingKeepsTheRuns(cron: string, timezone: string, m: Moment)
    requires CadenceOf(cron, timezone).Some? && MomentOk(m)
    ensures ValidCadence(CadenceOf(cron, timezone).value)
    ensures Fires(CronOf(CadenceOf(cron, timezone).value), m) <==> Fires(TrimJs(cron), m)
  {
    ShownMeansTheCadence(cron, timezone, m);
    CronMeansTheCadence(CadenceOf(cron, timezone).value, m);
  }
}
