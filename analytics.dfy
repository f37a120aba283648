/** Analytics Service: statistics over a student's completed study sessions (totals, the
    study streak, week-on-week focus improvement, the best hour of day, the best session
    length and the per-weekday chart data). The sessions are the rows the database query
    returned, passed in as a sequence; the current time is a parameter. */
module Analytics {
  import opened Wrappers
  import Text
  import Seqs

  const SecondsPerHour: int := 3600
  const SecondsPerDay: int := 86400
  const SecondsPerWeek: int := 7 * SecondsPerDay

  /** A completed study session: its UTC start in seconds since 1 January 1970, its length
      in minutes and its focus score. */
  datatype Session = Session(start: int, durationMinutes: int, focusScore: real)

  // ----- Calendar fields of a start time -----

  /** `start_time.date()`, as a day number (day 0 is 1 January 1970). */
  function DateOf(t: int): int {
    t / SecondsPerDay
  }

  /** `start_time.hour`. */
  function HourOf(t: int): (h: int)
    ensures 0 <= h < 24
  {
    (t % SecondsPerDay) / SecondsPerHour
  }

  /** `start_time.weekday()`: Monday is 0; day 0 was a Thursday. */
  function WeekdayOf(t: int): (d: int)
    ensures 0 <= d < 7
  {
    (DateOf(t) + 3) % 7
  }

  /** A day later is the next weekday, Sunday wrapping round to Monday. */
  lemma WeekdayOfNextDay(t: int)
    ensures DateOf(t + SecondsPerDay) == DateOf(t) + 1
    ensures WeekdayOf(t + SecondsPerDay) == (WeekdayOf(t) + 1) % 7
  {
  }

  // ----- Sums and averages -----

  function Sum(xs: seq<real>): real
    decreases |xs|
  {
    if xs == [] then 0.0 else Sum(xs[..|xs| - 1]) + xs[|xs| - 1]
  }

  /** The average of a list, or 0 for an empty one (the code's `... if xs else 0`). */
  function Mean(xs: seq<real>): real {
    if xs == [] then 0.0 else Sum(xs) / (|xs| as real)
  }

  /** A mean lies between the smallest and the largest element. */
  lemma {:induction false} MeanBounds(xs: seq<real>, lo: real, hi: real)
    requires forall i :: 0 <= i < |xs| ==> lo <= xs[i] <= hi
    ensures xs != [] ==> lo <= Mean(xs) <= hi
  {
    if xs != [] {
      SumBounds(xs, lo, hi);
      DivideBounds(Sum(xs), |xs| as real, lo, hi);
    }
  }

  lemma DivideBounds(s: real, n: real, lo: real, hi: real)
    requires n > 0.0 && lo * n <= s <= hi * n
    ensures lo <= s / n <= hi
  {
    assert s / n * n == s;
  }

  lemma {:induction false} SumBounds(xs: seq<real>, lo: real, hi: real)
    requires forall i :: 0 <= i < |xs| ==> lo <= xs[i] <= hi
    ensures lo * (|xs| as real) <= Sum(xs) <= hi * (|xs| as real)
    decreases |xs|
  {
    if xs != [] {
      SumBounds(xs[..|xs| - 1], lo, hi);
    }
  }

  function FocusScores(sessions: seq<Session>): seq<real>
    decreases |sessions|
  {
    if sessions == [] then []
    else FocusScores(sessions[..|sessions| - 1]) + [sessions[|sessions| - 1].focusScore]
  }

  function TotalMinutes(sessions: seq<Session>): int
    decreases |sessions|
  {
    if sessions == [] then 0
    else TotalMinutes(sessions[..|sessions| - 1]) + sessions[|sessions| - 1].durationMinutes
  }

  /** The sessions that started at or after `from` and before `until`, in order. */
  function StartedBetween(sessions: seq<Session>, from: int, until: Option<int>): (r: seq<Session>)
    ensures forall s :: s in r <==> s in sessions && from <= s.start && (until.Some? ==> s.start < until.value)
    ensures forall s :: multiset(r)[s]
                        == if from <= s.start && (until.Some? ==> s.start < until.value) then multiset(sessions)[s] else 0
    decreases |sessions|
  {
    if sessions == [] then []
    else
      var last := sessions[|sessions| - 1];
      var rest := StartedBetween(sessions[..|sessions| - 1], from, until);
      assert sessions == sessions[..|sessions| - 1] + [last];
      if from <= last.start && (until.None? || last.start < until.value) then rest + [last] else rest
  }

  // ----- The study streak -----

  /** The days on which some session started. */
  function StudyDates(sessions: seq<Session>): set<int> {
    set s | s in sessions :: DateOf(s.start)
  }

  /** The `n` days ending today. */
  function LastDays(today: int, n: nat): (r: set<int>)
    ensures forall d :: d in r <==> today - n < d <= today
    ensures |r| == n
  {
    if n == 0 then {} else LastDays(today, n - 1) + {today - n + 1}
  }

  /** The current streak: today and each day before it on which some session started, back
      to the first day without one. It never exceeds the number of distinct study days. */
  method CalculateStreak(sessions: seq<Session>, today: int) returns (streak: nat)
    ensures forall d :: today - streak < d <= today ==> d in StudyDates(sessions)
    ensures today - streak !in StudyDates(sessions)
    ensures streak <= |StudyDates(sessions)|
  {
    if |sessions| == 0 {
      return 0;
    }
    // The code sorts the sessions by start time first, which only changes the order in
    // which the set is filled.
    var studyDates: set<int> := {};
    var i := 0;
    while i < |sessions|
      invariant 0 <= i <= |sessions|
      invariant studyDates == StudyDates(sessions[..i])
    {
      assert sessions[..i + 1] == sessions[..i] + [sessions[i]];
      studyDates := studyDates + {DateOf(sessions[i].start)};
      i := i + 1;
    }
    assert sessions[..i] == sessions;
    streak := 0;
    var currentDate := today;
    while currentDate in studyDates
      invariant currentDate == today - streak
      invariant LastDays(today, streak) <= studyDates
      invariant streak <= |studyDates|
      decreases |studyDates| - streak
    {
      assert LastDays(today, streak + 1) == LastDays(today, streak) + {currentDate};
      Card(LastDays(today, streak + 1), studyDates);
      streak := streak + 1;
      currentDate := currentDate - 1;
    }
  }

  lemma Card(a: set<int>, b: set<int>)
    requires a <= b
    ensures |a| <= |b|
  {
    assert b == a + (b - a);
  }

  // ----- Week-on-week focus -----

  /** The focus improvement in percent: 0 when last week had no positive average; otherwise
      positive exactly when focus rose, and scaling last week's average by it gives this
      average back. */
  function Improvement(averageFocus: real, lastWeekAverage: real): (r: real)
    ensures lastWeekAverage <= 0.0 ==> r == 0.0
    ensures lastWeekAverage > 0.0 ==> (r > 0.0 <==> averageFocus > lastWeekAverage)
    ensures lastWeekAverage > 0.0 ==> (r == 0.0 <==> averageFocus == lastWeekAverage)
    ensures lastWeekAverage > 0.0 ==> averageFocus == lastWeekAverage * (1.0 + r / 100.0)
  {
    if lastWeekAverage > 0.0 then (averageFocus - lastWeekAverage) / lastWeekAverage * 100.0 else 0.0
  }

  datatype Stats = Stats(
    totalStudyTimeHours: real,
    thisWeekHours: real,
    averageFocusScore: real,
    currentStreakDays: nat,
    totalSessions: nat,
    thisWeekSessions: nat,
    focusImprovementPercent: real)

  /** The statistics of a student without sessions. */
  function DefaultStats(): Stats {
    Stats(0.0, 0.0, 0.0, 0, 0, 0, 0.0)
  }

  /** The sessions of the last seven days, and of the seven days before those. */
  function ThisWeek(sessions: seq<Session>, now: int): seq<Session> {
    StartedBetween(sessions, now - SecondsPerWeek, None)
  }

  function LastWeek(sessions: seq<Session>, now: int): seq<Session> {
    StartedBetween(sessions, now - 2 * SecondsPerWeek, Some(now - SecondsPerWeek))
  }

  /** No session falls in both weeks. */
  lemma WeeksDisjoint(sessions: seq<Session>, now: int)
    ensures forall s :: s in ThisWeek(sessions, now) ==> s !in LastWeek(sessions, now)
  {
  }

  /** The statistics for the sessions, at time `now`: all zero without sessions; otherwise
      the totals, the average focus, this week's share, the streak ending today and the
      improvement of the average over last week's. */
  method CalculateUserStats(sessions: seq<Session>, now: int) returns (stats: Stats)
    ensures sessions == [] ==> stats == DefaultStats()
    ensures sessions != [] ==>
              && stats.totalSessions == |sessions|
              && stats.totalStudyTimeHours == TotalMinutes(sessions) as real / 60.0
              && stats.averageFocusScore == Mean(FocusScores(sessions))
              && stats.thisWeekSessions == |ThisWeek(sessions, now)|
              && stats.thisWeekHours == TotalMinutes(ThisWeek(sessions, now)) as real / 60.0
              && stats.focusImprovementPercent
                   == Improvement(Mean(FocusScores(sessions)), Mean(FocusScores(LastWeek(sessions, now))))
    ensures sessions != [] ==>
              && (forall d :: DateOf(now) - stats.currentStreakDays < d <= DateOf(now) ==> d in StudyDates(sessions))
              && DateOf(now) - stats.currentStreakDays !in StudyDates(sessions)
  {
    if sessions == [] {
      return DefaultStats();
    }
    var totalMinutes := TotalMinutes(sessions);
    var averageFocus := Mean(FocusScores(sessions));
    var thisWeek := ThisWeek(sessions, now);
    var streak := CalculateStreak(sessions, DateOf(now));
    var lastWeekAverage := Mean(FocusScores(LastWeek(sessions, now)));
    var improvement := Improvement(averageFocus, lastWeekAverage);
    stats := Stats(totalMinutes as real / 60.0, TotalMinutes(thisWeek) as real / 60.0, averageFocus,
                   streak, |sessions|, |thisWeek|, improvement);
  }

  // ----- Choosing the key with the best average -----

  /** Python's `max(d, key=d.get)` over a dictionary with keys in order `keys`: the first key
      whose value is maximal. */
  method SelectFirstMax(keys: seq<int>, value: map<int, real>) returns (best: int)
    requires |keys| > 0
    requires forall k :: k in keys ==> k in value
    requires forall j :: 0 <= j < |keys| ==> keys[j] in value
    ensures best in keys
    ensures forall k :: k in keys ==> value[k] <= value[best]
    ensures forall j :: 0 <= j < Seqs.IndexOf(keys, best) ==> value[keys[j]] < value[best]
  {
    best := keys[0];
    var i := 1;
    while i < |keys|
      invariant 1 <= i <= |keys|
      invariant best in keys[..i] && Seqs.IndexOf(keys, best) < i
      invariant forall j :: 0 <= j < i ==> value[keys[j]] <= value[best]
      invariant forall j :: 0 <= j < Seqs.IndexOf(keys, best) ==> value[keys[j]] < value[best]
    {
      if value[keys[i]] > value[best] {
        assert keys[i] !in keys[..i];
        Seqs.IndexOfPrefix(keys, keys[i], i);
        Seqs.IndexOfPrefix(keys, keys[i], i + 1);
        assert keys[..i + 1][i] == keys[i];
        best := keys[i];
      }
      i := i + 1;
    }
    assert keys[..i] == keys;
  }

  // ----- The best hour of day -----

  /** The start hour of each session, in order. */
  function Hours(sessions: seq<Session>): (hs: seq<int>)
    ensures |hs| == |sessions| && forall i :: 0 <= i < |sessions| ==> hs[i] == HourOf(sessions[i].start)
  {
    seq(|sessions|, i requires 0 <= i < |sessions| => HourOf(sessions[i].start))
  }

  /** The distinct start hours in order of first occurrence: the keys of `hour_scores`. */
  function HourKeys(sessions: seq<Session>): seq<int> {
    Seqs.Keys(Hours(sessions), |sessions|)
  }

  /** The focus scores of the sessions that started in hour `h`, in order. */
  function ScoresAt(sessions: seq<Session>, h: int): seq<real>
    decreases |sessions|
  {
    if sessions == [] then []
    else
      var last := sessions[|sessions| - 1];
      ScoresAt(sessions[..|sessions| - 1], h) + (if HourOf(last.start) == h then [last.focusScore] else [])
  }

  function HourAverage(sessions: seq<Session>, h: int): real {
    Mean(ScoresAt(sessions, h))
  }

  /** `hour_scores` after reading the first `n` sessions: each start hour seen so far maps
      to its scores in reading order. */
  function HourScoreMap(sessions: seq<Session>, n: nat): map<int, seq<real>>
    requires n <= |sessions|
  {
    if n == 0 then map[]
    else
      var m := HourScoreMap(sessions, n - 1);
      var hour := HourOf(sessions[n - 1].start);
      m[hour := (if hour in m then m[hour] else []) + [sessions[n - 1].focusScore]]
  }

  /** The hours of `hour_scores` are the hours in its key order. */
  lemma {:induction false} HourScoreMapDomain(sessions: seq<Session>, n: nat)
    requires n <= |sessions|
    ensures forall h :: h in HourScoreMap(sessions, n) <==> h in Seqs.Keys(Hours(sessions), n)
  {
    if n > 0 {
      HourScoreMapDomain(sessions, n - 1);
      assert Hours(sessions)[n - 1] == HourOf(sessions[n - 1].start);
    }
  }

  /** Each hour of `hour_scores` holds the scores of the sessions read so far that started in
      it, and an hour outside it has none. */
  lemma {:induction false} HourScoreMapScores(sessions: seq<Session>, n: nat)
    requires n <= |sessions|
    ensures forall h :: h in HourScoreMap(sessions, n) ==> HourScoreMap(sessions, n)[h] == ScoresAt(sessions[..n], h)
    ensures forall h :: h !in HourScoreMap(sessions, n) ==> ScoresAt(sessions[..n], h) == []
  {
    if n > 0 {
      HourScoreMapScores(sessions, n - 1);
      forall h
        ensures ScoresAt(sessions[..n], h)
                == ScoresAt(sessions[..n - 1], h) + (if HourOf(sessions[n - 1].start) == h then [sessions[n - 1].focusScore] else [])
      {
        ScoresAtStep(sessions, n - 1, h);
      }
    }
  }

  lemma ScoresAtStep(sessions: seq<Session>, n: nat, h: int)
    requires n < |sessions|
    ensures ScoresAt(sessions[..n + 1], h)
              == ScoresAt(sessions[..n], h) + (if HourOf(sessions[n].start) == h then [sessions[n].focusScore] else [])
  {
    assert sessions[..n + 1][..n] == sessions[..n];
  }

  /** `if hour not in hour_scores: hour_scores[hour] = []`, then append the score. */
  method AddHourScore(scores: map<int, seq<real>>, keys: seq<int>, hour: int, x: real)
    returns (scores': map<int, seq<real>>, keys': seq<int>)
    ensures scores' == scores[hour := (if hour in scores then scores[hour] else []) + [x]]
    ensures keys' == if hour in scores then keys else keys + [hour]
  {
    scores', keys' := scores, keys;
    var empty: seq<real> := [];
    assert empty + [x] == [x];
    if hour !in scores' {
      scores' := scores'[hour := empty];
      keys' := keys' + [hour];
    }
    scores' := scores'[hour := scores'[hour] + [x]];
  }

  /** The loop that fills `hour_scores`, with its keys in insertion order. */
  method CollectHourScores(sessions: seq<Session>) returns (scores: map<int, seq<real>>, keys: seq<int>)
    ensures scores == HourScoreMap(sessions, |sessions|)
    ensures keys == HourKeys(sessions)
  {
    scores, keys := map[], [];
    var i := 0;
    while i < |sessions|
      invariant 0 <= i <= |sessions|
      invariant scores == HourScoreMap(sessions, i)
      invariant keys == Seqs.Keys(Hours(sessions), i)
    {
      HourScoreMapDomain(sessions, i);
      assert Hours(sessions)[i] == HourOf(sessions[i].start);
      scores, keys := AddHourScore(scores, keys, HourOf(sessions[i].start), sessions[i].focusScore);
      i := i + 1;
    }
  }

  /** The hour with the best average focus, once sessions started in at least two distinct
      hours; ties go to the hour seen first. */
  method FindBestStudyHour(sessions: seq<Session>) returns (best: Option<int>)
    ensures best.None? <==> |HourKeys(sessions)| < 2
    ensures best.Some? ==> best.value in HourKeys(sessions)
    ensures best.Some? ==> forall h :: h in HourKeys(sessions) ==> HourAverage(sessions, h) <= HourAverage(sessions, best.value)
    ensures best.Some? ==>
              forall j :: 0 <= j < Seqs.IndexOf(HourKeys(sessions), best.value) ==>
                HourAverage(sessions, HourKeys(sessions)[j]) < HourAverage(sessions, best.value)
  {
    var scores, keys := CollectHourScores(sessions);
    HourScoreMapDomain(sessions, |sessions|);
    HourScoreMapScores(sessions, |sessions|);
    assert sessions[..|sessions|] == sessions;
    if |keys| == 0 {
      return None;
    }
    var averages := map h | h in scores :: Mean(scores[h]);
    if |keys| >= 2 {
      var hour := SelectFirstMax(keys, averages);
      return Some(hour);
    }
    return None;
  }

  /** The two distinct hours a best hour needs are exactly two sessions in different hours. */
  lemma {:induction false} TwoHourKeys(sessions: seq<Session>)
    ensures |HourKeys(sessions)| >= 2 <==>
              exists i, j :: 0 <= i < j < |sessions| && HourOf(sessions[i].start) != HourOf(sessions[j].start)
  {
    var hs := Hours(sessions);
    var keys := HourKeys(sessions);
    Seqs.KeysInOrder(hs, |sessions|);
    Seqs.KeyOrderDistinct(keys, hs, |sessions|);
    assert hs[..|sessions|] == hs;
    if |keys| >= 2 {
      var i, j := Seqs.IndexOf(hs, keys[0]), Seqs.IndexOf(hs, keys[1]);
      assert HourOf(sessions[i].start) != HourOf(sessions[j].start);
    }
    if exists i, j :: 0 <= i < j < |sessions| && HourOf(sessions[i].start) != HourOf(sessions[j].start) {
      var i, j :| 0 <= i < j < |sessions| && HourOf(sessions[i].start) != HourOf(sessions[j].start);
      assert hs[i] in keys && hs[j] in keys;
    }
  }

  // ----- The best session length -----

  /** The bucket keys, in the dictionary's order. */
  const Buckets: seq<int> := [15, 25, 35, 45, 60]

  /** The bucket of a session length: under 20 minutes, 20-29, 30-39, 40-49, and 50 or more. */
  function Bucket(duration: int): (b: int)
    ensures b in Buckets
    ensures b == 15 <==> duration < 20
    ensures b == 60 <==> duration >= 50
    ensures 15 < b < 60 ==> b - 5 <= duration < b + 5
  {
    if duration < 20 then 15
    else if duration < 30 then 25
    else if duration < 40 then 35
    else if duration < 50 then 45
    else 60
  }

  /** The focus scores of the sessions in bucket `b`, in order. */
  function BucketScores(sessions: seq<Session>, b: int): seq<real>
    decreases |sessions|
  {
    if sessions == [] then []
    else
      var last := sessions[|sessions| - 1];
      BucketScores(sessions[..|sessions| - 1], b) + (if Bucket(last.durationMinutes) == b then [last.focusScore] else [])
  }

  /** The buckets with at least two sessions, in bucket order. */
  function Candidates(sessions: seq<Session>, bs: seq<int>): (r: seq<int>)
    ensures forall b :: b in r <==> b in bs && |BucketScores(sessions, b)| >= 2
    decreases |bs|
  {
    if bs == [] then []
    else (if |BucketScores(sessions, bs[0]) | >= 2 then [bs[0]] else []) + Candidates(sessions, bs[1..])
  }

  method CollectBucketScores(sessions: seq<Session>) returns (buckets: map<int, seq<real>>)
    ensures forall b :: b in Buckets ==> b in buckets && buckets[b] == BucketScores(sessions, b)
  {
    buckets := map[15 := [], 25 := [], 35 := [], 45 := [], 60 := []];
    var i := 0;
    while i < |sessions|
      invariant 0 <= i <= |sessions|
      invariant forall b :: b in Buckets ==> b in buckets && buckets[b] == BucketScores(sessions[..i], b)
    {
      assert sessions[..i + 1][..i] == sessions[..i];
      var duration := sessions[i].durationMinutes;
      var score := sessions[i].focusScore;
      if duration < 20 {
        buckets := buckets[15 := buckets[15] + [score]];
      } else if duration < 30 {
        buckets := buckets[25 := buckets[25] + [score]];
      } else if duration < 40 {
        buckets := buckets[35 := buckets[35] + [score]];
      } else if duration < 50 {
        buckets := buckets[45 := buckets[45] + [score]];
      } else {
        buckets := buckets[60 := buckets[60] + [score]];
      }
      i := i + 1;
    }
    assert sessions[..i] == sessions;
  }

  /** The session length with the best average focus among the buckets holding at least two
      sessions; ties go to the shorter bucket, and there is none without such a bucket. */
  method FindOptimalSessionLength(sessions: seq<Session>) returns (best: Option<int>)
    ensures best.None? <==> forall b :: b in Buckets ==> |BucketScores(sessions, b)| < 2
    ensures best.Some? ==> best.value in Buckets && |BucketScores(sessions, best.value)| >= 2
    ensures best.Some? ==>
              forall b :: b in Buckets && |BucketScores(sessions, b)| >= 2 ==>
                Mean(BucketScores(sessions, b)) <= Mean(BucketScores(sessions, best.value))
    ensures best.Some? ==>
              var cs := Candidates(sessions, Buckets);
              forall j :: 0 <= j < Seqs.IndexOf(cs, best.value) ==>
                Mean(BucketScores(sessions, cs[j])) < Mean(BucketScores(sessions, best.value))
  {
    var buckets := CollectBucketScores(sessions);
    var candidates := Candidates(sessions, Buckets);
    var averages := map b | b in candidates :: Mean(buckets[b]);
    if |candidates| > 0 {
      var length := SelectFirstMax(candidates, averages);
      return Some(length);
    }
    return None;
  }

  // ----- The hour as text -----

  /** `_format_hour`: "midnight", "h AM", "noon" or "h PM" on the 12-hour clock. */
  function FormatHour(hour: int): (r: string)
    ensures hour == 0 <==> r == "midnight"
    ensures hour == 12 <==> r == "noon"
    ensures hour != 0 && hour != 12 ==> |r| > 3 && r[|r| - 3..] == (if hour < 12 then " AM" else " PM")
  {
    if hour == 0 then "midnight"
    else if hour < 12 then
      var s := Text.IntToString(hour) + " AM";
      assert s[|s| - 1] != "midnight"[7] && s[|s| - 1] != "noon"[3];
      s
    else if hour == 12 then "noon"
    else
      var s := Text.IntToString(hour - 12) + " PM";
      assert s[|s| - 1] != "midnight"[7] && s[|s| - 1] != "noon"[3];
      s
  }

  /** Reads a 12-hour time written as `FormatHour` writes it back into an hour of day. */
  function ParseHour(s: string): Option<int> {
    if s == "midnight" then Some(0)
    else if s == "noon" then Some(12)
    else if |s| > 3 && Text.AllDigits(s[..|s| - 3]) && s[0] != '0' then
      var h := Text.ParseNat(s[..|s| - 3]);
      if !(1 <= h < 12) then None
      else if s[|s| - 3..] == " AM" then Some(h)
      else if s[|s| - 3..] == " PM" then Some(h + 12)
      else None
    else None
  }

  /** Every hour of the day is written so that it can be read back: the formatter loses
      nothing, so no two hours share a text. */
  lemma FormatHourRoundTrip(hour: int)
    requires 0 <= hour < 24
    ensures ParseHour(FormatHour(hour)) == Some(hour)
  {
    if hour != 0 && hour != 12 {
      var n := if hour < 12 then hour else hour - 12;
      var digits := Text.NatToString(n);
      var suffix := if hour < 12 then " AM" else " PM";
      var s := digits + suffix;
      assert FormatHour(hour) == s;
      assert s[..|s| - 3] == digits && s[|s| - 3..] == suffix;
      Text.ParseNatToString(n);
      assert s != "midnight" by {
        assert s[|s| - 1] == 'M' && "midnight"[7] == 't';
      }
      assert s != "noon" by {
        assert s[|s| - 1] == 'M' && "noon"[3] == 'n';
      }
      assert s[0] != '0' by {
        if |digits| == 1 {
          assert n > 0;
          assert Text.ParseNat(digits) == n;
        }
      }
    }
  }

  // ----- The weekly chart -----

  const DayNames: seq<string> := ["Mon", "Tue", "Wed", "Thu", "Fri", "Sat", "Sun"]

  datatype DayData = DayData(day: string, hours: real, sessions: nat)

  /** The number of sessions started on weekday `d`. */
  function CountOn(sessions: seq<Session>, d: int): nat
    decreases |sessions|
  {
    if sessions == [] then 0
    else CountOn(sessions[..|sessions| - 1], d) + (if WeekdayOf(sessions[|sessions| - 1].start) == d then 1 else 0)
  }

  /** The hours studied in sessions started on weekday `d`. */
  function HoursOn(sessions: seq<Session>, d: int): real
    decreases |sessions|
  {
    if sessions == [] then 0.0
    else
      var last := sessions[|sessions| - 1];
      HoursOn(sessions[..|sessions| - 1], d) + (if WeekdayOf(last.start) == d then last.durationMinutes as real / 60.0 else 0.0)
  }

  /** The chart data for the sessions the query returned: one entry per weekday, Monday to
      Sunday, with the hours and the number of sessions started on that day. */
  method GetWeeklyData(sessions: seq<Session>) returns (data: seq<DayData>)
    ensures |data| == 7
    ensures forall d :: 0 <= d < 7 ==>
              data[d].day == DayNames[d] && data[d].sessions == CountOn(sessions, d) && data[d].hours == HoursOn(sessions, d)
  {
    var hours: seq<real> := [0.0, 0.0, 0.0, 0.0, 0.0, 0.0, 0.0];
    var counts: seq<nat> := [0, 0, 0, 0, 0, 0, 0];
    var i := 0;
    while i < |sessions|
      invariant 0 <= i <= |sessions|
      invariant |hours| == 7 && |counts| == 7
      invariant forall d :: 0 <= d < 7 ==> counts[d] == CountOn(sessions[..i], d) && hours[d] == HoursOn(sessions[..i], d)
    {
      assert sessions[..i + 1][..i] == sessions[..i];
      var day := WeekdayOf(sessions[i].start);
      hours := hours[day := hours[day] + sessions[i].durationMinutes as real / 60.0];
      counts := counts[day := counts[day] + 1];
      i := i + 1;
    }
    assert sessions[..i] == sessions;
    data := seq(7, d requires 0 <= d < 7 => DayData(DayNames[d], hours[d], counts[d]));
  }

  /** The session counts of weekdays `0..n-1`, added up. */
  function CountsUpTo(sessions: seq<Session>, n: nat): nat {
    if n == 0 then 0 else CountsUpTo(sessions, n - 1) + CountOn(sessions, n - 1)
  }

  lemma {:induction false} CountsUpToStep(sessions: seq<Session>, n: nat)
    requires sessions != []
    ensures CountsUpTo(sessions, n)
              == CountsUpTo(sessions[..|sessions| - 1], n) + (if WeekdayOf(sessions[|sessions| - 1].start) < n then 1 else 0)
  {
    if n > 0 {
      CountsUpToStep(sessions, n - 1);
    }
  }

  lemma {:induction false} NoSessionsNoCounts(n: nat)
    ensures CountsUpTo([], n) == 0
  {
    if n > 0 {
      NoSessionsNoCounts(n - 1);
    }
  }

  /** Every session is counted on exactly one day of the chart. */
  lemma {:induction false} WeeklyCountsCoverSessions(sessions: seq<Session>)
    ensures CountsUpTo(sessions, 7) == |sessions|
    decreases |sessions|
  {
    if sessions != [] {
      var prefix := sessions[..|sessions| - 1];
      WeeklyCountsCoverSessions(prefix);
      CountsUpToStep(sessions, 7);
      assert WeekdayOf(sessions[|sessions| - 1].start) < 7;
    } else {
      NoSessionsNoCounts(7);
    }
  }
}
