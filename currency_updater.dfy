/**
 * The parts of the exchange-rate updater (pkg/currency/updater.go) that
 * decide and compute: the historical key format, the refresh decision, the
 * gap filling of the historical rates, and the key/value map built from them.
 *
 * Calendar dates are integer day numbers and `ZeroDay` stands for Go's zero
 * time. `parse` stands for Content.GetTime and `format` for formatting a day
 * in the "2006-01-02" layout; both are parameters. The refresh decision works
 * on instants in nanoseconds.
 */
module CurrencyUpdater {
  import opened Wrappers

  const Hour: int := 3_600_000_000_000
  const ExchangeRateRefresh: int := 8 * Hour
  const ExchangeRateDateKey := "currency_exchange_last_refresh"
  const ZeroDay: int := 0
  const MaxGapDays: nat := 180

  datatype Rate = Rate(currency: string, rate: real)

  /** The rates of one day; `time` is the day in the "2006-01-02" layout. */
  datatype Content = Content(time: string, rates: seq<Rate>)

  /** historicalRateKey: the formatted day, a dash, and the currency. */
  function HistoricalRateKey(format: int -> string, day: int, currency: string): (key: string)
    ensures |key| == |format(day)| + 1 + |currency|
    ensures key[..|format(day)|] == format(day) && key[|format(day)|] == '-' && key[|format(day)| + 1..] == currency
  {
    format(day) + "-" + currency
  }

  /**
   * With a fixed-width, one-to-one day format (as "2006-01-02" is), a key
   * names exactly one day and one currency.
   */
  lemma HistoricalRateKeyInjective(format: int -> string, width: nat, a: int, ca: string, b: int, cb: string)
    requires forall d :: |format(d)| == width
    requires forall d, e :: format(d) == format(e) ==> d == e
    requires HistoricalRateKey(format, a, ca) == HistoricalRateKey(format, b, cb)
    ensures a == b && ca == cb
  {
    var ka := HistoricalRateKey(format, a, ca);
    assert format(a) == ka[..width] == format(b);
    assert ca == ka[width + 1..] == cb;
  }

  /** The outcome of reading the last refresh date from the store. */
  datatype StoredDate = StoreError | Missing | Stored(date: int)

  /** needsRefresh: refresh on a store error, a missing date, or a date more than 8 hours old. */
  function NeedsRefresh(lookup: StoredDate, now: int): (r: bool)
    ensures !r <==> lookup.Stored? && now - lookup.date <= ExchangeRateRefresh
  {
    match lookup
    case StoreError => true
    case Missing => true
    case Stored(date) => date < now - ExchangeRateRefresh
  }

  /** A date exactly 8 hours old is still fresh; one nanosecond older is not. */
  lemma NeedsRefreshBoundary(now: int)
    ensures !NeedsRefresh(Stored(now - ExchangeRateRefresh), now)
    ensures NeedsRefresh(Stored(now - ExchangeRateRefresh - 1), now)
  {
  }

  /** Every content's time parses. */
  predicate AllParse(contents: seq<Content>, parse: string -> Option<int>)
  {
    forall i :: 0 <= i < |contents| ==> parse(contents[i].time).Some?
  }

  lemma AllParseConcat(a: seq<Content>, b: seq<Content>, parse: string -> Option<int>)
    requires AllParse(a, parse) && AllParse(b, parse)
    ensures AllParse(a + b, parse)
  {
    forall i | 0 <= i < |a + b|
      ensures parse((a + b)[i].time).Some?
    {
      if i >= |a| {
        assert (a + b)[i] == b[i - |a|];
      }
    }
  }

  /** The parsed days, in input order. */
  function Days(contents: seq<Content>, parse: string -> Option<int>): (days: seq<int>)
    requires AllParse(contents, parse)
    ensures |days| == |contents|
  {
    seq(|contents|, i requires 0 <= i < |contents| && AllParse(contents, parse) => parse(contents[i].time).value)
  }

  lemma DaysSnoc(contents: seq<Content>, parse: string -> Option<int>, i: nat)
    requires i < |contents| && AllParse(contents[..i], parse) && parse(contents[i].time).Some?
    ensures AllParse(contents[..i + 1], parse)
    ensures Days(contents[..i + 1], parse) == Days(contents[..i], parse) + [parse(contents[i].time).value]
  {
    var longer := contents[..i + 1];
    assert forall j :: 0 <= j < i ==> longer[j] == contents[..i][j];
  }

  /** startDate after the first loop: the zero day counts as "not set yet". */
  function StartDate(days: seq<int>): int
  {
    if days == [] then ZeroDay
    else
      var s := StartDate(days[..|days| - 1]);
      var d := days[|days| - 1];
      if s == ZeroDay || s > d then d else s
  }

  /** endDate after the first loop. */
  function EndDate(days: seq<int>): int
  {
    if days == [] then ZeroDay
    else
      var e := EndDate(days[..|days| - 1]);
      var d := days[|days| - 1];
      if e == ZeroDay || e < d then d else e
  }

  lemma DatesSnoc(days: seq<int>, day: int)
    ensures StartDate(days + [day]) == if StartDate(days) == ZeroDay || StartDate(days) > day then day else StartDate(days)
    ensures EndDate(days + [day]) == if EndDate(days) == ZeroDay || EndDate(days) < day then day else EndDate(days)
  {
    assert (days + [day])[..|days|] == days;
  }

  /** When no day is the zero day, startDate is the earliest day and endDate the latest. */
  lemma {:induction false} StartEndAreExtremes(days: seq<int>)
    requires days != [] && forall i :: 0 <= i < |days| ==> days[i] != ZeroDay
    ensures StartDate(days) in days && EndDate(days) in days
    ensures forall i :: 0 <= i < |days| ==> StartDate(days) <= days[i] <= EndDate(days)
  {
    var init := days[..|days| - 1];
    if init != [] {
      StartEndAreExtremes(init);
      assert forall i :: 0 <= i < |init| ==> init[i] == days[i];
    }
  }

  /** dailyRates: the contents keyed by their formatted day. */
  ghost function DailyRates(contents: seq<Content>, days: seq<int>, format: int -> string): map<string, Content>
    requires |days| == |contents|
  {
    if contents == [] then map[]
    else
      var n := |contents| - 1;
      DailyRates(contents[..n], days[..n], format)[format(days[n]) := contents[n]]
  }

  lemma DailyRatesSnoc(contents: seq<Content>, days: seq<int>, format: int -> string, i: nat, day: int)
    requires i < |contents| && |days| == i
    ensures DailyRates(contents[..i + 1], days + [day], format) == DailyRates(contents[..i], days, format)[format(day) := contents[i]]
  {
    assert contents[..i + 1][..i] == contents[..i];
    assert (days + [day])[..i] == days;
  }

  /** Every input day is a key, and for duplicate days the later content wins. */
  lemma {:induction false} DailyRatesLaterWins(contents: seq<Content>, days: seq<int>, format: int -> string, i: nat)
    requires |days| == |contents| && i < |contents|
    ensures format(days[i]) in DailyRates(contents, days, format)
    ensures (forall j :: i < j < |contents| ==> format(days[j]) != format(days[i])) ==>
              DailyRates(contents, days, format)[format(days[i])] == contents[i]
  {
    var n := |contents| - 1;
    if i < n {
      DailyRatesLaterWins(contents[..n], days[..n], format, i);
    }
  }

  /** Only input days are keys. */
  lemma {:induction false} DailyRatesKeys(contents: seq<Content>, days: seq<int>, format: int -> string, key: string)
    requires |days| == |contents|
    requires key in DailyRates(contents, days, format)
    ensures exists i :: 0 <= i < |days| && format(days[i]) == key
  {
    var n := |contents| - 1;
    if key != format(days[n]) {
      DailyRatesKeys(contents[..n], days[..n], format, key);
      var i :| 0 <= i < n && format(days[..n][i]) == key;
      assert format(days[i]) == key;
    }
  }

  /** A map lookup with Go's zero value for a missing key. */
  function ContentOrZero(daily: map<string, Content>, key: string): Content
  {
    if key in daily then daily[key] else Content("", [])
  }

  /**
   * The second loop of fillInGapDays, from the state it is in before
   * incrementing `counter`: the contents it appends.
   */
  ghost function GapLoop(date: int, endDate: int, lastDay: int, counter: nat, daily: map<string, Content>, format: int -> string): seq<Content>
    requires counter <= MaxGapDays
    decreases MaxGapDays - counter
  {
    if counter + 1 > MaxGapDays then []
    else if date >= endDate then []
    else if format(date) !in daily then
      [ContentOrZero(daily, format(lastDay)).(time := format(date))] + GapLoop(date + 1, endDate, lastDay, counter + 1, daily, format)
    else GapLoop(date + 1, endDate, date, counter + 1, daily, format)
  }

  /**
   * The first loop of fillInGapDays: parses every day, tracking the start
   * and end dates and keying the contents by their formatted day. It stops
   * at the first day that does not parse.
   */
  method IndexDays(historicalContent: seq<Content>, parse: string -> Option<int>, format: int -> string)
    returns (ok: bool, startDate: int, endDate: int, dailyRates: map<string, Content>)
    ensures ok <==> AllParse(historicalContent, parse)
    ensures ok ==> startDate == StartDate(Days(historicalContent, parse))
    ensures ok ==> endDate == EndDate(Days(historicalContent, parse))
    ensures ok ==> dailyRates == DailyRates(historicalContent, Days(historicalContent, parse), format)
  {
    startDate, endDate, dailyRates := ZeroDay, ZeroDay, map[];
    ghost var days: seq<int> := [];
    var i := 0;
    while i < |historicalContent|
      invariant 0 <= i <= |historicalContent|
      invariant AllParse(historicalContent[..i], parse) && days == Days(historicalContent[..i], parse)
      invariant startDate == StartDate(days) && endDate == EndDate(days)
      invariant dailyRates == DailyRates(historicalContent[..i], days, format)
    {
      var dayRates := historicalContent[i];
      var parsed := parse(dayRates.time);
      if parsed.None? {
        return false, startDate, endDate, dailyRates;
      }
      var date := parsed.value;
      if startDate == ZeroDay || startDate > date {
        startDate := date;
      }
      if endDate == ZeroDay || endDate < date {
        endDate := date;
      }
      dailyRates := dailyRates[format(date) := dayRates];
      DaysSnoc(historicalContent, parse, i);
      DatesSnoc(days, date);
      DailyRatesSnoc(historicalContent, days, format, i, date);
      days := days + [date];
      i := i + 1;
    }
    assert historicalContent[..i] == historicalContent;
    ok := true;
  }

  /**
   * The second loop of fillInGapDays: walks day by day from the start date,
   * at most 180 times, appending a copy of the last day with rates for each
   * day without rates, until the end date.
   */
  method AppendGapDays(historicalContent: seq<Content>, startDate: int, endDate: int, dailyRates: map<string, Content>, format: int -> string)
    returns (out: seq<Content>)
    ensures out == historicalContent + GapLoop(startDate, endDate, startDate, 0, dailyRates, format)
  {
    ghost var result := historicalContent + GapLoop(startDate, endDate, startDate, 0, dailyRates, format);
    out := historicalContent;
    var date := startDate;
    var lastDay := date;
    var counter: nat := 0;
    while true
      invariant counter <= MaxGapDays
      invariant out + GapLoop(date, endDate, lastDay, counter, dailyRates, format) == result
      decreases MaxGapDays - counter
    {
      if counter + 1 > MaxGapDays {
        assert GapLoop(date, endDate, lastDay, counter, dailyRates, format) == [];
        assert out + [] == out;
        break;
      }
      if date >= endDate {
        assert GapLoop(date, endDate, lastDay, counter, dailyRates, format) == [];
        assert out + [] == out;
        return out;
      }
      if format(date) !in dailyRates {
        var gapContent := ContentOrZero(dailyRates, format(lastDay)).(time := format(date));
        ghost var rest := GapLoop(date + 1, endDate, lastDay, counter + 1, dailyRates, format);
        assert GapLoop(date, endDate, lastDay, counter, dailyRates, format) == [gapContent] + rest;
        assert out + [gapContent] + rest == out + ([gapContent] + rest);
        out := out + [gapContent];
      } else {
        assert GapLoop(date, endDate, lastDay, counter, dailyRates, format)
            == GapLoop(date + 1, endDate, date, counter + 1, dailyRates, format);
        lastDay := date;
      }
      date := date + 1;
      counter := counter + 1;
    }
  }

  /** The result of fillInGapDays on input whose days all parse. */
  ghost function FilledContent(historicalContent: seq<Content>, parse: string -> Option<int>, format: int -> string): seq<Content>
    requires AllParse(historicalContent, parse)
  {
    var days := Days(historicalContent, parse);
    var start := StartDate(days);
    historicalContent + GapLoop(start, EndDate(days), start, 0, DailyRates(historicalContent, days, format), format)
  }

  /** fillInGapDays: the input followed by one copied content per missing day, or an error. */
  method FillInGapDays(historicalContent: seq<Content>, parse: string -> Option<int>, format: int -> string)
    returns (r: Result<seq<Content>, string>)
    ensures r.Failure? <==> !AllParse(historicalContent, parse)
    ensures r.Success? ==> r.value == FilledContent(historicalContent, parse, format)
  {
    var ok, startDate, endDate, dailyRates := IndexDays(historicalContent, parse, format);
    if !ok {
      return Failure("fillInGapDays error");
    }
    var out := AppendGapDays(historicalContent, startDate, endDate, dailyRates, format);
    return Success(out);
  }

  /** An empty input comes back empty. */
  lemma FillInGapDaysEmpty(daily: map<string, Content>, format: int -> string)
    ensures GapLoop(StartDate([]), EndDate([]), StartDate([]), 0, daily, format) == []
  {
  }

  /** Whether a day has rates in the input. */
  ghost predicate Present(daily: map<string, Content>, format: int -> string, day: int)
  {
    format(day) in daily
  }

  /** The days in [from, bound) without rates, in increasing order. */
  ghost function GapDays(from: int, bound: int, daily: map<string, Content>, format: int -> string): seq<int>
    decreases bound - from
  {
    if from >= bound then []
    else (if !Present(daily, format, from) then [from] else []) + GapDays(from + 1, bound, daily, format)
  }

  /** A day is a gap day exactly when it lies in the range and has no rates. */
  lemma {:induction false} GapDaysMembers(from: int, bound: int, daily: map<string, Content>, format: int -> string)
    ensures forall d :: d in GapDays(from, bound, daily, format) <==> from <= d < bound && !Present(daily, format, d)
    decreases bound - from
  {
    if from < bound {
      GapDaysMembers(from + 1, bound, daily, format);
    }
  }

  ghost predicate StrictlyIncreasing(s: seq<int>)
  {
    forall i, j :: 0 <= i < j < |s| ==> s[i] < s[j]
  }

  /** The gap days come in strictly increasing order. */
  lemma {:induction false} GapDaysIncreasing(from: int, bound: int, daily: map<string, Content>, format: int -> string)
    ensures StrictlyIncreasing(GapDays(from, bound, daily, format))
    decreases bound - from
  {
    if from < bound && !Present(daily, format, from) {
      GapDaysIncreasing(from + 1, bound, daily, format);
      GapDaysMembers(from + 1, bound, daily, format);
      var tail := GapDays(from + 1, bound, daily, format);
      var whole := GapDays(from, bound, daily, format);
      assert whole == [from] + tail;
      forall i, j | 0 <= i < j < |whole|
        ensures whole[i] < whole[j]
      {
        assert whole[j] == tail[j - 1] && tail[j - 1] in tail;
        if i > 0 {
          assert whole[i] == tail[i - 1];
        }
      }
    } else if from < bound {
      GapDaysIncreasing(from + 1, bound, daily, format);
    }
  }

  /** The latest day in [start, day] with rates; `start` itself when there is none after it. */
  ghost function LastPresent(day: int, start: int, daily: map<string, Content>, format: int -> string): int
    decreases day - start
  {
    if day <= start || Present(daily, format, day) then (if day <= start then start else day)
    else LastPresent(day - 1, start, daily, format)
  }

  lemma {:induction false} LastPresentSpec(day: int, start: int, daily: map<string, Content>, format: int -> string)
    requires start <= day && Present(daily, format, start)
    ensures start <= LastPresent(day, start, daily, format) <= day
    ensures Present(daily, format, LastPresent(day, start, daily, format))
    ensures forall p :: LastPresent(day, start, daily, format) < p <= day ==> !Present(daily, format, p)
    decreases day - start
  {
    if start < day && !Present(daily, format, day) {
      LastPresentSpec(day - 1, start, daily, format);
    }
  }

  /** The content filled in for a gap day: the last present day's rates under the gap's date. */
  ghost function GapCopy(day: int, start: int, daily: map<string, Content>, format: int -> string): Content
  {
    ContentOrZero(daily, format(LastPresent(day, start, daily, format))).(time := format(day))
  }

  /** The reference result: one copy for each gap day in [from, bound). */
  ghost function Expected(from: int, bound: int, start: int, daily: map<string, Content>, format: int -> string): (r: seq<Content>)
    ensures |r| == |GapDays(from, bound, daily, format)|
  {
    var gaps := GapDays(from, bound, daily, format);
    seq(|gaps|, i requires 0 <= i < |gaps| => GapCopy(gaps[i], start, daily, format))
  }

  lemma ExpectedStep(from: int, bound: int, start: int, daily: map<string, Content>, format: int -> string)
    requires from < bound
    ensures Expected(from, bound, start, daily, format) ==
            (if !Present(daily, format, from) then [GapCopy(from, start, daily, format)] else []) + Expected(from + 1, bound, start, daily, format)
  {
    var tail := Expected(from + 1, bound, start, daily, format);
    var whole := Expected(from, bound, start, daily, format);
    var gaps := GapDays(from, bound, daily, format);
    var tailGaps := GapDays(from + 1, bound, daily, format);
    if !Present(daily, format, from) {
      assert gaps == [from] + tailGaps;
      var head := [GapCopy(from, start, daily, format)];
      assert |whole| == |head + tail|;
      forall k | 0 <= k < |whole|
        ensures whole[k] == (head + tail)[k]
      {
        if k > 0 {
          assert gaps[k] == tailGaps[k - 1];
        }
      }
      assert whole == head + tail;
    } else {
      assert gaps == tailGaps;
    }
  }

  /**
   * The loop from any point `counter` days after `start` appends exactly the
   * reference copies for the days still ahead of it, up to the end date and
   * at most 180 days after the start.
   */
  lemma {:induction false} GapLoopIsExpected(start: int, endDate: int, date: int, lastDay: int, counter: nat,
                                             daily: map<string, Content>, format: int -> string)
    requires counter <= MaxGapDays && date == start + counter
    requires lastDay == LastPresent(date - 1, start, daily, format)
    decreases MaxGapDays - counter
    ensures GapLoop(date, endDate, lastDay, counter, daily, format) == Expected(date, GapBound(start, endDate), start, daily, format)
  {
    var bound := GapBound(start, endDate);
    if counter + 1 > MaxGapDays || date >= endDate {
      assert GapDays(date, bound, daily, format) == [];
    } else {
      ExpectedStep(date, bound, start, daily, format);
      if !Present(daily, format, date) {
        assert LastPresent(date, start, daily, format) == lastDay;
        GapLoopIsExpected(start, endDate, date + 1, lastDay, counter + 1, daily, format);
      } else {
        assert LastPresent(date, start, daily, format) == date;
        GapLoopIsExpected(start, endDate, date + 1, date, counter + 1, daily, format);
      }
    }
  }

  /**
   * The gap filling in declarative terms: when every day parses and none is
   * the zero day, the earliest day has rates, and the appended contents are
   * the reference copies, one per day without rates from the earliest day up
   * to (not including) the latest day and at most 180 days from the earliest
   * (GapDaysMembers, GapDaysIncreasing and LastPresentSpec say what those
   * days and copies are).
   */
  lemma FillInGapDaysSpec(historicalContent: seq<Content>, parse: string -> Option<int>, format: int -> string,
                          days: seq<int>, daily: map<string, Content>)
    requires historicalContent != [] && AllParse(historicalContent, parse)
    requires days == Days(historicalContent, parse) && daily == DailyRates(historicalContent, days, format)
    requires forall i :: 0 <= i < |days| ==> days[i] != ZeroDay
    ensures Present(daily, format, StartDate(days))
    ensures GapLoop(StartDate(days), EndDate(days), StartDate(days), 0, daily, format)
            == Expected(StartDate(days), GapBound(StartDate(days), EndDate(days)), StartDate(days), daily, format)
  {
    var start := StartDate(days);
    StartEndAreExtremes(days);
    var k :| 0 <= k < |days| && days[k] == start;
    DailyRatesLaterWins(historicalContent, days, format, k);
    GapLoopFromStart(start, EndDate(days), daily, format);
  }

  /** The day before which the gap filling stops: the latest day, but no more than 180 days after the earliest. */
  function GapBound(start: int, endDate: int): int
  {
    if endDate < start + MaxGapDays then endDate else start + MaxGapDays
  }

  /** The loop as fillInGapDays starts it, on the earliest day, appends the reference copies. */
  lemma GapLoopFromStart(start: int, endDate: int, daily: map<string, Content>, format: int -> string)
    ensures GapLoop(start, endDate, start, 0, daily, format) == Expected(start, GapBound(start, endDate), start, daily, format)
  {
    assert LastPresent(start - 1, start, daily, format) == start;
    GapLoopIsExpected(start, endDate, start, start, 0, daily, format);
  }

  /** The keys and values of one content, in its rate order. */
  function DayPairs(format: int -> string, day: int, rates: seq<Rate>): (r: seq<(string, real)>)
    ensures |r| == |rates|
    ensures forall j :: 0 <= j < |rates| ==> r[j] == (HistoricalRateKey(format, day, rates[j].currency), rates[j].rate)
  {
    seq(|rates|, j requires 0 <= j < |rates| => (HistoricalRateKey(format, day, rates[j].currency), rates[j].rate))
  }

  /** All key/value writes of the import, in the order the nested loops make them. */
  ghost function AllPairs(contents: seq<Content>, days: seq<int>, format: int -> string): seq<(string, real)>
    requires |days| == |contents|
  {
    if contents == [] then []
    else
      var n := |contents| - 1;
      AllPairs(contents[..n], days[..n], format) + DayPairs(format, days[n], contents[n].rates)
  }

  lemma AllPairsSnoc(contents: seq<Content>, days: seq<int>, format: int -> string, i: nat, day: int)
    requires i < |contents| && |days| == i
    ensures AllPairs(contents[..i + 1], days + [day], format) == AllPairs(contents[..i], days, format) + DayPairs(format, day, contents[i].rates)
  {
    var c, d := contents[..i + 1], days + [day];
    assert c[..i] == contents[..i] && c[i] == contents[i];
    assert d[..i] == days && d[i] == day;
  }

  /** The map m after writing the pairs into it in order. */
  ghost function Put(m: map<string, real>, pairs: seq<(string, real)>): map<string, real>
  {
    if pairs == [] then m else Put(m, pairs[..|pairs| - 1])[pairs[|pairs| - 1].0 := pairs[|pairs| - 1].1]
  }

  lemma {:induction false} PutConcat(m: map<string, real>, a: seq<(string, real)>, b: seq<(string, real)>)
    ensures Put(m, a + b) == Put(Put(m, a), b)
    decreases |b|
  {
    if b == [] {
      assert a + b == a;
    } else {
      var n := |b| - 1;
      PutConcat(m, a, b[..n]);
      assert (a + b)[..|a + b| - 1] == a + b[..n];
    }
  }

  /** Every written key is present, and holds the value of its last write. */
  lemma {:induction false} PutLastWriteWins(m: map<string, real>, pairs: seq<(string, real)>, i: nat)
    requires i < |pairs|
    ensures pairs[i].0 in Put(m, pairs)
    ensures (forall j :: i < j < |pairs| ==> pairs[j].0 != pairs[i].0) ==> Put(m, pairs)[pairs[i].0] == pairs[i].1
  {
    var n := |pairs| - 1;
    if i < n {
      PutLastWriteWins(m, pairs[..n], i);
    }
  }

  /** Nothing but the map's own keys and the written keys is present. */
  lemma {:induction false} PutOnlyWrittenKeys(m: map<string, real>, pairs: seq<(string, real)>, key: string)
    requires key in Put(m, pairs) && key !in m
    ensures exists i :: 0 <= i < |pairs| && pairs[i].0 == key
  {
    var n := |pairs| - 1;
    if key != pairs[n].0 {
      PutOnlyWrittenKeys(m, pairs[..n], key);
      var i :| 0 <= i < n && pairs[..n][i].0 == key;
      assert pairs[i].0 == key;
    }
  }

  /** The inner loop of the import: writes one day's rates under their historical keys. */
  method PutDayRates(keyValues: map<string, real>, format: int -> string, date: int, rates: seq<Rate>)
    returns (r: map<string, real>)
    ensures r == Put(keyValues, DayPairs(format, date, rates))
  {
    r := keyValues;
    var j := 0;
    while j < |rates|
      invariant 0 <= j <= |rates|
      invariant r == Put(keyValues, DayPairs(format, date, rates[..j]))
    {
      var rate := rates[j];
      var key := HistoricalRateKey(format, date, rate.currency);
      ghost var next := DayPairs(format, date, rates[..j + 1]);
      assert next[..j] == DayPairs(format, date, rates[..j]) && next[j] == (key, rate.rate);
      r := r[key := rate.rate];
      j := j + 1;
    }
    assert rates[..j] == rates;
  }

  /**
   * The key/value map of ImportHistoricalExchangeRates: a content whose time
   * does not parse is an error; otherwise every rate is written under its
   * historical key, later writes winning.
   */
  method HistoricalKeyValues(rates: seq<Content>, parse: string -> Option<int>, format: int -> string)
    returns (r: Result<map<string, real>, string>)
    ensures r.Failure? <==> !AllParse(rates, parse)
    ensures r.Success? ==> r.value == Put(map[], AllPairs(rates, Days(rates, parse), format))
  {
    var keyValues: map<string, real> := map[];
    ghost var days: seq<int> := [];
    var i := 0;
    while i < |rates|
      invariant 0 <= i <= |rates|
      invariant AllParse(rates[..i], parse) && days == Days(rates[..i], parse)
      invariant keyValues == Put(map[], AllPairs(rates[..i], days, format))
    {
      var dayRates := rates[i];
      var parsed := parse(dayRates.time);
      if parsed.None? {
        return Failure("error parsing time in historical exchange rates");
      }
      var date := parsed.value;
      PutConcat(map[], AllPairs(rates[..i], days, format), DayPairs(format, date, dayRates.rates));
      keyValues := PutDayRates(keyValues, format, date, dayRates.rates);
      DaysSnoc(rates, parse, i);
      AllPairsSnoc(rates, days, format, i, date);
      days := days + [date];
      i := i + 1;
    }
    assert rates[..i] == rates;
    return Success(keyValues);
  }

  /**
   * The computing part of ImportHistoricalExchangeRates: the gap filling,
   * then the key/value map of the filled contents; the first error wins.
   */
  method ImportHistoricalKeyValues(rates: seq<Content>, parse: string -> Option<int>, format: int -> string)
    returns (r: Result<map<string, real>, string>)
    ensures !AllParse(rates, parse) ==> r == Failure("error filling in gaps")
    ensures AllParse(rates, parse) ==> (r.Failure? <==> !AllParse(FilledContent(rates, parse, format), parse))
    ensures AllParse(rates, parse) && r.Success? ==>
              r.value == Put(map[], AllPairs(FilledContent(rates, parse, format), Days(FilledContent(rates, parse, format), parse), format))
  {
    var filled := FillInGapDays(rates, parse, format);
    if filled.Failure? {
      return Failure("error filling in gaps");
    }
    r := HistoricalKeyValues(filled.value, parse, format);
  }

  /** Every content the gap filling appends carries a formatted day as its time. */
  lemma {:induction false} GapLoopParses(date: int, endDate: int, lastDay: int, counter: nat, daily: map<string, Content>,
                                         format: int -> string, parse: string -> Option<int>)
    requires counter <= MaxGapDays
    requires forall d :: parse(format(d)).Some?
    ensures AllParse(GapLoop(date, endDate, lastDay, counter, daily, format), parse)
    decreases MaxGapDays - counter
  {
    if counter + 1 <= MaxGapDays && date < endDate {
      if format(date) !in daily {
        GapLoopParses(date + 1, endDate, lastDay, counter + 1, daily, format, parse);
        var head := [ContentOrZero(daily, format(lastDay)).(time := format(date))];
        var tail := GapLoop(date + 1, endDate, lastDay, counter + 1, daily, format);
        assert AllParse(head, parse) by {
          assert head[0].time == format(date);
        }
        AllParseConcat(head, tail, parse);
        assert GapLoop(date, endDate, lastDay, counter, daily, format) == head + tail;
      } else {
        GapLoopParses(date + 1, endDate, date, counter + 1, daily, format, parse);
      }
    }
  }

  /**
   * When every formatted day parses, as "2006-01-02" days do, the filled
   * contents all parse, so the import fails only on input that does not.
   */
  lemma FilledContentParses(rates: seq<Content>, parse: string -> Option<int>, format: int -> string)
    requires AllParse(rates, parse)
    requires forall d :: parse(format(d)).Some?
    ensures AllParse(FilledContent(rates, parse, format), parse)
  {
    var days := Days(rates, parse);
    var start := StartDate(days);
    var gaps := GapLoop(start, EndDate(days), start, 0, DailyRates(rates, days, format), format);
    GapLoopParses(start, EndDate(days), start, 0, DailyRates(rates, days, format), format, parse);
    AllParseConcat(rates, gaps, parse);
  }
}
