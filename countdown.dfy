/// The countdown page: once a second it rebuilds a map from each special
/// date's title to the days, hours, minutes and seconds left, leaving out the
/// dates that have arrived. The clock (`new Date().getTime()`) is the
/// parameter `now`, in milliseconds since the epoch.
module Countdown {

  datatype SpecialDate = SpecialDate(title: string, time: int, description: string)

  datatype TimeLeft = TimeLeft(days: nat, hours: nat, minutes: nat, seconds: nat)

  const MsPerDay := 86_400_000

  /** The four dates, at local midnight in 2024 (`new Date(2024, 3, d)`, month 3 being
      April). `utcOffsetMs` is local time minus UTC, taken as the same on all four days. */
  function SpecialDates(utcOffsetMs: int): (dates: seq<SpecialDate>)
    ensures |dates| == 4
  {
    [
      SpecialDate("Rupal's Birthday", 1_712_448_000_000 - utcOffsetMs,
        "Celebrating the day my love was born \U{1F382}"),
      SpecialDate("My Birthday", 1_713_052_800_000 - utcOffsetMs,
        "Another year of loving you \U{2728}"),
      SpecialDate("22 Months Together", 1_713_139_200_000 - utcOffsetMs,
        "22 magical months of us \U{1F491}"),
      SpecialDate("7 Months Comeback", 1_713_830_400_000 - utcOffsetMs,
        "Celebrating our beautiful reunion \U{1F31F}")
    ]
  }

  predicate DistinctTitles(dates: seq<SpecialDate>) {
    forall i, j | 0 <= i < j < |dates| :: dates[i].title != dates[j].title
  }

  lemma SpecialDatesDistinct(utcOffsetMs: int)
    ensures DistinctTitles(SpecialDates(utcOffsetMs))
  {
  }

  /** Whole seconds, minutes and hours nest: each unit is a whole number of the one below. */
  lemma NestedUnits(difference: nat)
    ensures difference / 60_000 == (difference / 1000) / 60
    ensures difference / 3_600_000 == (difference / 60_000) / 60
    ensures difference / MsPerDay == (difference / 3_600_000) / 24
  {
  }

  /** The four numbers shown for a positive difference: `Math.floor` of the difference in
      days, and of the difference in hours, minutes and seconds modulo 24, 60 and 60. */
  function Decompose(difference: nat): (t: TimeLeft)
    ensures t.days == difference / MsPerDay
    ensures t.hours < 24 && t.minutes < 60 && t.seconds < 60
    ensures t.days * 86_400 + t.hours * 3600 + t.minutes * 60 + t.seconds == difference / 1000
  {
    NestedUnits(difference);
    TimeLeft(difference / MsPerDay, (difference / 3_600_000) % 24,
             (difference / 60_000) % 60, (difference / 1000) % 60)
  }

  /** The map `calculateTimeLeft` has built after visiting `dates` in order. */
  function TimeLeftMap(dates: seq<SpecialDate>, now: int): map<string, TimeLeft>
    decreases |dates|
  {
    if dates == [] then map[]
    else
      var m := TimeLeftMap(dates[..|dates| - 1], now);
      var d := dates[|dates| - 1];
      if d.time - now > 0 then m[d.title := Decompose(d.time - now)] else m
  }

  /** `calculateTimeLeft`: the `forEach` over the special dates filling `newTimeLeft`. */
  method CalculateTimeLeft(dates: seq<SpecialDate>, now: int) returns (timeLeft: map<string, TimeLeft>)
    ensures timeLeft == TimeLeftMap(dates, now)
  {
    timeLeft := map[];
    var i := 0;
    while i < |dates|
      invariant 0 <= i <= |dates|
      invariant timeLeft == TimeLeftMap(dates[..i], now)
    {
      assert dates[..i + 1][..i] == dates[..i];
      var difference := dates[i].time - now;
      if difference > 0 {
        timeLeft := timeLeft[dates[i].title := Decompose(difference)];
      }
      i := i + 1;
    }
    assert dates[..i] == dates;
  }

  /** A title is a key exactly when some date with that title is still ahead. */
  lemma {:induction false} TimeLeftKeys(dates: seq<SpecialDate>, now: int, title: string)
    ensures title in TimeLeftMap(dates, now) <==>
            exists i | 0 <= i < |dates| :: dates[i].title == title && dates[i].time > now
  {
    if dates != [] {
      var init := dates[..|dates| - 1];
      TimeLeftKeys(init, now, title);
      if exists i | 0 <= i < |init| :: init[i].title == title && init[i].time > now {
        var i :| 0 <= i < |init| && init[i].title == title && init[i].time > now;
        assert dates[i] == init[i];
      }
      if exists i | 0 <= i < |dates| :: dates[i].title == title && dates[i].time > now {
        var i :| 0 <= i < |dates| && dates[i].title == title && dates[i].time > now;
        if i < |init| {
          assert init[i] == dates[i];
        }
      }
    }
  }

  /** With distinct titles, a date has an entry exactly when it is still ahead, and the
      entry is its own decomposed difference. */
  lemma {:induction false} TimeLeftEntry(dates: seq<SpecialDate>, now: int, i: nat)
    requires DistinctTitles(dates)
    requires i < |dates|
    ensures dates[i].title in TimeLeftMap(dates, now) <==> dates[i].time > now
    ensures dates[i].time > now ==>
      TimeLeftMap(dates, now)[dates[i].title] == Decompose(dates[i].time - now)
  {
    var init := dates[..|dates| - 1];
    var last := dates[|dates| - 1];
    if i < |dates| - 1 {
      assert init[i] == dates[i];
      assert DistinctTitles(init);
      TimeLeftEntry(init, now, i);
      assert last.title != dates[i].title;
    } else {
      TimeLeftKeys(init, now, last.title);
    }
  }

  /** A date that has an entry on one tick has none on a later tick at or after it. */
  lemma EntryDisappearsOncePassed(dates: seq<SpecialDate>, now1: int, now2: int, i: nat)
    requires DistinctTitles(dates)
    requires i < |dates|
    requires dates[i].title in TimeLeftMap(dates, now1)
    requires now2 >= dates[i].time
    ensures now1 < dates[i].time
    ensures dates[i].title !in TimeLeftMap(dates, now2)
  {
    TimeLeftEntry(dates, now1, i);
    TimeLeftEntry(dates, now2, i);
  }

  /** What a card shows under its description. */
  datatype CardBody = Counting(left: TimeLeft) | Arrived

  function CardFor(timeLeft: map<string, TimeLeft>, title: string): (c: CardBody)
    ensures c == Arrived <==> title !in timeLeft
  {
    if title in timeLeft then Counting(timeLeft[title]) else Arrived
  }

  /** A special date's card says the day has arrived exactly when it is not ahead of now. */
  lemma ArrivedOncePassed(utcOffsetMs: int, now: int, i: nat)
    requires i < 4
    ensures var dates := SpecialDates(utcOffsetMs);
      CardFor(TimeLeftMap(dates, now), dates[i].title) == Arrived <==> dates[i].time <= now
  {
    SpecialDatesDistinct(utcOffsetMs);
    TimeLeftEntry(SpecialDates(utcOffsetMs), now, i);
  }

  class CountdownPage {
    const dates: seq<SpecialDate>
    var timeLeft: map<string, TimeLeft>

    constructor (utcOffsetMs: int)
      ensures dates == SpecialDates(utcOffsetMs) && timeLeft == map[]
    {
      dates := SpecialDates(utcOffsetMs);
      timeLeft := map[];
    }

    /** One run of the interval callback: the map is rebuilt from scratch. */
    method Tick(now: int)
      modifies this
      ensures timeLeft == TimeLeftMap(dates, now)
    {
      timeLeft := CalculateTimeLeft(dates, now);
    }
  }
}
