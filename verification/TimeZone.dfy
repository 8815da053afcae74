/** muduo/base/TimeZone.cc: broken-down UTC and local time. */
module TimeZones {
  import opened Calendar

  const SECONDS_PER_DAY: int := 24 * 60 * 60

  /** kJulianDayOf1970_01_01. */
  const EPOCH_DAY: int := 2440588

  /** The constant is the day number the code computes for 1 January 1970. */
  lemma EpochDay()
    ensures JulianDayNumber(YearMonthDay(1970, 1, 1)) == EPOCH_DAY
  {
    DivOfNat(13, 12);
    DivOfNat(153 * 10 + 2, 5);
    DivOfNat(6769, 4);
    DivOfNat(6769, 100);
    DivOfNat(6769, 400);
  }

  // ---- UTC ----

  /** The fields of struct tm that toUtcTime sets. */
  datatype Tm = Tm(tmYear: int, tmMon: int, tmMday: int, tmHour: int, tmMin: int, tmSec: int, tmWday: int)

  datatype Hms = Hms(hour: int, minute: int, second: int)

  function FillHms(seconds: nat): Hms {
    Hms(seconds / 60 / 60, seconds / 60 % 60, seconds % 60)
  }

  function SecondsInDay(t: Hms): int {
    t.hour * 3600 + t.minute * 60 + t.second
  }

  predicate ValidHms(t: Hms) {
    0 <= t.hour < 24 && 0 <= t.minute < 60 && 0 <= t.second < 60
  }

  /** The quotient and remainder of the code: truncating division, corrected when negative. */
  function DaysAndSeconds(t: int): (r: (int, int))
    ensures t == r.0 * SECONDS_PER_DAY + r.1 && 0 <= r.1 < SECONDS_PER_DAY
  {
    DivTruncates(t, SECONDS_PER_DAY);
    var seconds := Mod(t, SECONDS_PER_DAY);
    var days := Div(t, SECONDS_PER_DAY);
    if seconds < 0 then (days - 1, seconds + SECONDS_PER_DAY) else (days, seconds)
  }

  function ToUtcTime(t: int): Tm {
    var (days, seconds) := DaysAndSeconds(t);
    var hms := FillHms(seconds);
    var ymd := DateOf(days + EPOCH_DAY);
    Tm(ymd.year - 1900, ymd.month - 1, ymd.day, hms.hour, hms.minute, hms.second, WeekDay(days + EPOCH_DAY))
  }

  function DateOfTm(tm: Tm): YearMonthDay {
    YearMonthDay(tm.tmYear + 1900, tm.tmMon + 1, tm.tmMday)
  }

  function FromUtcTime(tm: Tm): int {
    var days := JulianDayNumber(DateOfTm(tm)) - EPOCH_DAY;
    days * SECONDS_PER_DAY + SecondsInDay(Hms(tm.tmHour, tm.tmMin, tm.tmSec))
  }

  /** Midnight of 1 March -4800. */
  const FIRST_SECOND: int := (FIRST_DAY - EPOCH_DAY) * SECONDS_PER_DAY

  lemma FillHmsReadBack(seconds: nat)
    requires seconds < SECONDS_PER_DAY
    ensures ValidHms(FillHms(seconds)) && SecondsInDay(FillHms(seconds)) == seconds
  {
  }

  lemma HmsReadBack(t: Hms)
    requires ValidHms(t)
    ensures 0 <= SecondsInDay(t) < SECONDS_PER_DAY && FillHms(SecondsInDay(t)) == t
  {
    var minutes := t.hour * 60 + t.minute;
    assert SecondsInDay(t) == minutes * 60 + t.second;
    assert SecondsInDay(t) / 60 == minutes;
  }

  lemma SplitUnique(t: int, days: int, seconds: int)
    requires t == days * SECONDS_PER_DAY + seconds && 0 <= seconds < SECONDS_PER_DAY
    ensures DaysAndSeconds(t) == (days, seconds)
  {
    var r := DaysAndSeconds(t);
    assert (r.0 - days) * SECONDS_PER_DAY == seconds - r.1;
  }

  lemma UtcDateTrip(tm: Tm, days: int, hms: Hms)
    requires days + EPOCH_DAY >= FIRST_DAY
    requires DateOfTm(tm) == DateOf(days + EPOCH_DAY) && hms == Hms(tm.tmHour, tm.tmMin, tm.tmSec)
    ensures Valid(DateOfTm(tm)) && FromUtcTime(tm) == days * SECONDS_PER_DAY + SecondsInDay(hms)
  {
    DayDateDay(days + EPOCH_DAY);
  }

  /** Every second from 1 March -4800 on, before or after the epoch, survives the round trip,
      and its broken-down form is a valid date and time. */
  lemma UtcRoundTrip(t: int)
    requires t >= FIRST_SECOND
    ensures var tm := ToUtcTime(t);
            && FromUtcTime(tm) == t
            && Valid(DateOfTm(tm)) && ValidHms(Hms(tm.tmHour, tm.tmMin, tm.tmSec))
  {
    var (days, seconds) := DaysAndSeconds(t);
    FillHmsReadBack(seconds);
    UtcDateTrip(ToUtcTime(t), days, FillHms(seconds));
  }

  lemma SplitRoundsDown(t: int)
    ensures DaysAndSeconds(t) == (t / 86400, t % 86400)
  {
    SplitUnique(t, t / 86400, t % 86400);
  }

  /** The date is as many days after 1 January 1970, day number 2440588, as whole days have passed, rounded
      down, and the time of day is the rest. */
  lemma UtcCountsFromEpoch(t: int)
    requires t >= FIRST_SECOND
    ensures var tm := ToUtcTime(t);
            && JulianDayNumber(DateOfTm(tm)) == t / 86400 + 2440588
            && SecondsInDay(Hms(tm.tmHour, tm.tmMin, tm.tmSec)) == t % 86400
  {
    var days, seconds := t / 86400, t % 86400;
    SplitRoundsDown(t);
    FillHmsReadBack(seconds);
    DayDateDay(days + EPOCH_DAY);
    BrokenDown(t, days, seconds, FillHms(seconds), DateOf(days + EPOCH_DAY));
  }

  /** The epoch was a Thursday, and days of the week follow each other, also before it. */
  lemma UtcWeekDay(t: int)
    requires t >= (-1 - EPOCH_DAY) * SECONDS_PER_DAY
    ensures ToUtcTime(t).tmWday == (t / SECONDS_PER_DAY + 4) % 7
  {
    var days := DaysAndSeconds(t).0;
    assert days == t / SECONDS_PER_DAY;
    DivTruncates(days + EPOCH_DAY + 1, 7);
  }

  /** The broken-down form is a valid date exactly from 1 March -4800 on. */
  lemma UtcValidIff(t: int)
    ensures Valid(DateOfTm(ToUtcTime(t))) <==> t >= FIRST_SECOND
  {
    DateOfValidIff(DaysAndSeconds(t).0 + EPOCH_DAY);
  }

  /** Every valid date and time from 1 March -4800 on is the broken-down form of its own second. */
  lemma UtcRoundTripBack(tm: Tm)
    requires Valid(DateOfTm(tm)) && FromFirstDay(DateOfTm(tm)) && ValidHms(Hms(tm.tmHour, tm.tmMin, tm.tmSec))
    ensures ToUtcTime(FromUtcTime(tm)).(tmWday := tm.tmWday) == tm
  {
    var hms := Hms(tm.tmHour, tm.tmMin, tm.tmSec);
    HmsReadBack(hms);
    var j := JulianDayNumber(DateOfTm(tm));
    SplitUnique(FromUtcTime(tm), j - EPOCH_DAY, SecondsInDay(hms));
    DateDayDate(DateOfTm(tm));
    BrokenDown(FromUtcTime(tm), j - EPOCH_DAY, SecondsInDay(hms), hms, DateOfTm(tm));
  }

  lemma BrokenDown(t: int, days: int, seconds: int, hms: Hms, d: YearMonthDay)
    requires DaysAndSeconds(t) == (days, seconds) && 0 <= seconds && FillHms(seconds) == hms
    requires DateOf(days + EPOCH_DAY) == d
    ensures ToUtcTime(t) == Tm(d.year - 1900, d.month - 1, d.day, hms.hour, hms.minute, hms.second, WeekDay(days + EPOCH_DAY))
  {
  }

  // ---- Local time ----

  datatype Transition = Transition(gmt: int, local: int, index: nat)
  datatype Localtime = Localtime(gmtOffset: int, isDst: bool)

  /** A loaded zone table. */
  datatype Zone = Zone(transitions: seq<Transition>, localtimes: seq<Localtime>) {
    /** What reading the file guarantees. */
    predicate WellFormed() {
      && localtimes != []
      && forall i :: 0 <= i < |transitions| ==>
           && transitions[i].index < |localtimes|
           && transitions[i].local == transitions[i].gmt + localtimes[transitions[i].index].gmtOffset
    }
  }

  /** Broken-down local time. The date is kept as the day number since the epoch, to which the
      calendar dates correspond one to one, and the time of day as seconds since midnight. */
  datatype LocalTm = LocalTm(day: int, clock: nat, isDst: bool) {
    function Hour(): int { FillHms(clock).hour }
    function Minute(): int { FillHms(clock).minute }
  }

  /** gmtime_r and timegm of the C library. */
  function GmTime(t: int, isDst: bool): LocalTm {
    var (days, seconds) := DaysAndSeconds(t);
    LocalTm(days, seconds, isDst)
  }

  function TimeGm(tm: LocalTm): int {
    tm.day * SECONDS_PER_DAY + tm.clock
  }

  function Key(tr: Transition, byGmt: bool): int {
    if byGmt then tr.gmt else tr.local
  }

  /** std::lower_bound: the first transition, from position `from` on, whose key is not below x. */
  function LowerBound(trs: seq<Transition>, from: nat, x: int, byGmt: bool): (i: nat)
    requires from <= |trs|
    ensures from <= i <= |trs|
    ensures forall k :: from <= k < i ==> Key(trs[k], byGmt) < x
    ensures i < |trs| ==> Key(trs[i], byGmt) >= x
    decreases |trs| - from
  {
    if from == |trs| || Key(trs[from], byGmt) >= x then from else LowerBound(trs, from + 1, x, byGmt)
  }

  function FindLocaltime(z: Zone, x: int, byGmt: bool): Localtime
    requires z.WellFormed()
  {
    if z.transitions == [] || x < Key(z.transitions[0], byGmt) then z.localtimes[0]
    else
      var i := LowerBound(z.transitions, 0, x, byGmt);
      if i == |z.transitions| then z.localtimes[z.transitions[i - 1].index]
      else if Key(z.transitions[i], byGmt) == x then z.localtimes[z.transitions[i].index]
      else z.localtimes[z.transitions[i - 1].index]
  }

  function ToLocalTime(z: Zone, t: int): LocalTm
    requires z.WellFormed()
  {
    var local := FindLocaltime(z, t, true);
    GmTime(t + local.gmtOffset, local.isDst)
  }

  function FromLocalTime(z: Zone, tm: LocalTm): int
    requires z.WellFormed()
  {
    var seconds := TimeGm(tm);
    var local := FindLocaltime(z, seconds, false);
    if tm.isDst then
      var tryTm := ToLocalTime(z, seconds - local.gmtOffset);
      if !tryTm.isDst && tryTm.Hour() == tm.Hour() && tryTm.Minute() == tm.Minute() then
        seconds - 3600 - local.gmtOffset
      else seconds - local.gmtOffset
    else seconds - local.gmtOffset
  }

  ghost predicate Ascending(trs: seq<Transition>, byGmt: bool) {
    forall i, j :: 0 <= i < j < |trs| ==> Key(trs[i], byGmt) < Key(trs[j], byGmt)
  }

  /** x lies in the period that transition k begins; period -1 is the time before all transitions. */
  ghost predicate InPeriod(trs: seq<Transition>, k: int, x: int, byGmt: bool) {
    && -1 <= k < |trs|
    && (k >= 0 ==> Key(trs[k], byGmt) <= x)
    && (k + 1 < |trs| ==> x < Key(trs[k + 1], byGmt))
  }

  /** findLocaltime finds the period. */
  lemma FindLocaltimeMeaning(z: Zone, k: int, x: int, byGmt: bool)
    requires z.WellFormed() && Ascending(z.transitions, byGmt) && InPeriod(z.transitions, k, x, byGmt)
    ensures FindLocaltime(z, x, byGmt)
         == if k < 0 then z.localtimes[0] else z.localtimes[z.transitions[k].index]
  {
    var trs := z.transitions;
    if k >= 0 {
      assert Key(trs[0], byGmt) <= Key(trs[k], byGmt);
      var i := LowerBound(trs, 0, x, byGmt);
      assert i == k || i == k + 1;
    }
  }

  /** Local time is the second plus the offset of the period it lies in, with that period's daylight flag. */
  lemma LocalIsOffsetOfPeriod(z: Zone, k: int, t: int)
    requires z.WellFormed() && Ascending(z.transitions, true) && InPeriod(z.transitions, k, t, true)
    ensures var tm := ToLocalTime(z, t);
            var here := if k < 0 then z.localtimes[0] else z.localtimes[z.transitions[k].index];
            TimeGm(tm) == t + here.gmtOffset && tm.clock < SECONDS_PER_DAY && tm.isDst == here.isDst
  {
    FindLocaltimeMeaning(z, k, t, true);
  }

  /** Period k has daylight time `shift` ahead of standard time when k is even, standard time when odd. */
  ghost predicate AlternatesAt(z: Zone, s: int, shift: int, k: int)
    requires z.WellFormed()
  {
    0 <= k < |z.transitions| ==> z.localtimes[z.transitions[k].index] == PeriodType(s, shift, k)
  }

  ghost predicate Apart(z: Zone, shift: int, i: int, j: int) {
    0 <= i < j < |z.transitions| ==> z.transitions[i].gmt + shift < z.transitions[j].gmt
  }

  /** A table that alternates between standard time at offset `s` and daylight time `shift`
      later, beginning with standard time; periods are longer than the shift. */
  ghost predicate Alternating(z: Zone, s: int, shift: int) {
    && z.WellFormed() && shift > 0
    && z.localtimes[0] == Localtime(s, false)
    && (forall k :: AlternatesAt(z, s, shift, k))
    && (forall i, j :: Apart(z, shift, i, j))
  }

  function PeriodType(s: int, shift: int, k: int): Localtime {
    if k % 2 == 0 then Localtime(s + shift, true) else Localtime(s, false)
  }

  lemma AlternatingAscends(z: Zone, s: int, shift: int)
    requires Alternating(z, s, shift)
    ensures Ascending(z.transitions, true) && Ascending(z.transitions, false)
  {
    forall i, j | 0 <= i < j < |z.transitions|
      ensures Key(z.transitions[i], true) < Key(z.transitions[j], true)
      ensures Key(z.transitions[i], false) < Key(z.transitions[j], false)
    {
      assert Apart(z, shift, i, j) && AlternatesAt(z, s, shift, i) && AlternatesAt(z, s, shift, j);
    }
  }

  lemma PeriodOf(trs: seq<Transition>, t: int) returns (k: int)
    requires Ascending(trs, true)
    ensures InPeriod(trs, k, t, true)
  {
    var i := LowerBound(trs, 0, t, true);
    k := if i < |trs| && trs[i].gmt == t then i else i - 1;
    if i + 1 < |trs| {
      assert Key(trs[i], true) < Key(trs[i + 1], true);
    }
  }

  /** The cases of fromLocalTime on a broken-down time at `l` seconds of local clock. */
  lemma FromLocalTimeCases(z: Zone, tm: LocalTm, l: int, local: Localtime, again: Localtime)
    requires z.WellFormed() && tm == GmTime(l, tm.isDst)
    requires local == FindLocaltime(z, l, false) && again == FindLocaltime(z, l - local.gmtOffset, true)
    ensures !tm.isDst || again.isDst ==> FromLocalTime(z, tm) == l - local.gmtOffset
    ensures tm.isDst && again == Localtime(local.gmtOffset, false) ==> FromLocalTime(z, tm) == l - 3600 - local.gmtOffset
  {
    assert TimeGm(tm) == l;
    ToLocalTimeIs(z, l - local.gmtOffset, again);
    assert tm.clock == GmTime(l, false).clock;
  }

  lemma ToLocalTimeIs(z: Zone, t: int, here: Localtime)
    requires z.WellFormed() && here == FindLocaltime(z, t, true)
    ensures ToLocalTime(z, t) == GmTime(t + here.gmtOffset, here.isDst)
  {
  }

  /** t is in daylight time less than one shift before transition k sets the clocks back: the
      first pass through the local times that occur twice. */
  ghost predicate FirstPassAt(z: Zone, shift: int, t: int, k: nat) {
    && 0 < k < |z.transitions| && k % 2 == 1
    && z.transitions[k].gmt - shift <= t < z.transitions[k].gmt
  }

  ghost predicate FirstPass(z: Zone, shift: int, t: int) {
    exists k :: FirstPassAt(z, shift, t, k)
  }

  function TypeIn(s: int, shift: int, k: int): Localtime {
    if k < 0 then Localtime(s, false) else PeriodType(s, shift, k)
  }

  lemma AlternatingPeriod(z: Zone, s: int, shift: int, k: int, x: int, byGmt: bool)
    requires Alternating(z, s, shift) && InPeriod(z.transitions, k, x, byGmt)
    ensures FindLocaltime(z, x, byGmt) == TypeIn(s, shift, k)
  {
    AlternatingAscends(z, s, shift);
    FindLocaltimeMeaning(z, k, x, byGmt);
    assert AlternatesAt(z, s, shift, k);
  }

  lemma FirstPassPeriods(z: Zone, s: int, shift: int, t: int, k: nat)
    requires Alternating(z, s, shift) && FirstPassAt(z, shift, t, k)
    ensures InPeriod(z.transitions, k - 1, t, true)
    ensures InPeriod(z.transitions, k, t + s + shift, false)
    ensures InPeriod(z.transitions, k, t + shift, true)
  {
    var trs := z.transitions;
    assert Apart(z, shift, k - 1, k) && Apart(z, shift, k, k + 1);
    assert AlternatesAt(z, s, shift, k) && AlternatesAt(z, s, shift, k + 1);
  }

  lemma OtherPeriods(z: Zone, s: int, shift: int, t: int, k: int)
    requires Alternating(z, s, shift) && InPeriod(z.transitions, k, t, true)
    requires k + 1 < |z.transitions| ==> !FirstPassAt(z, shift, t, k + 1)
    ensures InPeriod(z.transitions, k, t + TypeIn(s, shift, k).gmtOffset, false)
  {
    var trs := z.transitions;
    assert AlternatesAt(z, s, shift, k) && AlternatesAt(z, s, shift, k + 1);
  }

  /** The round trip in terms of the three lookups it makes. */
  lemma TripCases(z: Zone, t: int, here: Localtime, local: Localtime, again: Localtime)
    requires z.WellFormed()
    requires here == FindLocaltime(z, t, true)
    requires local == FindLocaltime(z, t + here.gmtOffset, false)
    requires again == FindLocaltime(z, t + here.gmtOffset - local.gmtOffset, true)
    ensures var r := FromLocalTime(z, ToLocalTime(z, t));
            && (here == local == again ==> r == t)
            && (here.isDst && again == local == Localtime(local.gmtOffset, false) ==>
                  r == t + here.gmtOffset - local.gmtOffset - 3600)
  {
    var tm := ToLocalTime(z, t);
    ToLocalTimeIs(z, t, here);
    FromLocalTimeCases(z, tm, t + here.gmtOffset, local, again);
  }

  lemma FirstPassLookups(z: Zone, s: int, shift: int, t: int, k: nat)
    requires Alternating(z, s, shift) && FirstPassAt(z, shift, t, k)
    ensures FindLocaltime(z, t, true) == Localtime(s + shift, true)
    ensures FindLocaltime(z, t + (s + shift), false) == Localtime(s, false)
    ensures FindLocaltime(z, t + (s + shift) - s, true) == Localtime(s, false)
  {
    FirstPassPeriods(z, s, shift, t, k);
    AlternatingPeriod(z, s, shift, k - 1, t, true);
    AlternatingPeriod(z, s, shift, k, t + s + shift, false);
    AlternatingPeriod(z, s, shift, k, t + shift, true);
  }

  lemma FirstPassTrip(z: Zone, s: int, shift: int, t: int, k: nat)
    requires Alternating(z, s, shift) && FirstPassAt(z, shift, t, k)
    ensures FromLocalTime(z, ToLocalTime(z, t)) == t + shift - 3600
  {
    FirstPassLookups(z, s, shift, t, k);
    TripCases(z, t, Localtime(s + shift, true), Localtime(s, false), Localtime(s, false));
  }

  lemma OtherTrip(z: Zone, s: int, shift: int, t: int, k: int)
    requires Alternating(z, s, shift) && InPeriod(z.transitions, k, t, true)
    requires k + 1 < |z.transitions| ==> !FirstPassAt(z, shift, t, k + 1)
    ensures FromLocalTime(z, ToLocalTime(z, t)) == t
  {
    var here := TypeIn(s, shift, k);
    OtherPeriods(z, s, shift, t, k);
    AlternatingPeriod(z, s, shift, k, t, true);
    AlternatingPeriod(z, s, shift, k, t + here.gmtOffset, false);
    TripCases(z, t, here, here, here);
  }

  /** What the round trip gives, for every second. */
  lemma LocalTripValue(z: Zone, s: int, shift: int, t: int)
    requires Alternating(z, s, shift)
    ensures FromLocalTime(z, ToLocalTime(z, t)) == if FirstPass(z, shift, t) then t + shift - 3600 else t
  {
    if FirstPass(z, shift, t) {
      var k :| FirstPassAt(z, shift, t, k);
      FirstPassTrip(z, s, shift, t, k);
    } else {
      AlternatingAscends(z, s, shift);
      var k := PeriodOf(z.transitions, t);
      OtherTrip(z, s, shift, t, k);
    }
  }

  /** fromLocalTime undoes toLocalTime at every second if and only if daylight time is one hour
      ahead, or the clocks never go back. */
  lemma LocalRoundTripIff(z: Zone, s: int, shift: int)
    requires Alternating(z, s, shift)
    ensures (forall t :: FromLocalTime(z, ToLocalTime(z, t)) == t) <==> shift == 3600 || |z.transitions| < 2
  {
    forall t ensures FromLocalTime(z, ToLocalTime(z, t)) == if FirstPass(z, shift, t) then t + shift - 3600 else t {
      LocalTripValue(z, s, shift, t);
    }
    if |z.transitions| >= 2 {
      var t := z.transitions[1].gmt - 1;
      assert FirstPassAt(z, shift, t, 1);
      LocalTripValue(z, s, shift, t);
    }
  }

  /** A half-hour daylight shift is a table on which the law fails. */
  lemma HalfHourShiftFails()
    ensures var z := Zone([Transition(0, 1800, 1), Transition(10000, 10000, 0)],
                          [Localtime(0, false), Localtime(1800, true)]);
            z.WellFormed() && FromLocalTime(z, ToLocalTime(z, 9999)) == 9999 - 1800
  {
    var z := Zone([Transition(0, 1800, 1), Transition(10000, 10000, 0)],
                  [Localtime(0, false), Localtime(1800, true)]);
    forall i, j ensures Apart(z, 1800, i, j) {
    }
    assert Alternating(z, 0, 1800);
    assert FirstPassAt(z, 1800, 9999, 1);
    LocalTripValue(z, 0, 1800, 9999);
  }
}
