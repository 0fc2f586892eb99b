/** Goal progress (components/GoalTracker.tsx:11-38, 46): the sessions saved
    since the start of the goal's period are counted, as minutes of practice
    or as conversations, against the goal's target. The calendar is an input:
    the time of local midnight today and the day of the week; a day is
    86400000 ms. Times are milliseconds, durations seconds. */
module GoalTracker {
  import opened Types

  const DayMs: int := 86400000

  /** The local calendar at the time of rendering: midnight today, in
      milliseconds, and the day of the week, 0 for Sunday. */
  datatype Today = Today(midnight: int, weekday: int)

  predicate ValidToday(today: Today)
  {
    0 <= today.weekday < 7
  }

  /** How many days a weekly period reaches back: to the Monday on or before
      today. */
  function DaysBack(weekday: int): (d: int)
    requires 0 <= weekday < 7
    ensures 0 <= d < 7
    ensures (weekday - d + 7) % 7 == 1
  {
    if weekday == 0 then 6 else weekday - 1
  }

  /** The start of the goal's period: midnight today, or midnight of the
      Monday of this week. */
  function PeriodStart(period: GoalPeriod, today: Today): (t: int)
    requires ValidToday(today)
    ensures period == Daily ==> t == today.midnight
    ensures period == Weekly ==> t == today.midnight - DaysBack(today.weekday) * DayMs
    ensures today.midnight - 6 * DayMs <= t <= today.midnight
  {
    if period == Daily then today.midnight else today.midnight - DaysBack(today.weekday) * DayMs
  }

  /** The sessions saved at or after `start`, in their order. */
  function Relevant(sessions: seq<ConversationSession>, start: int): (r: seq<ConversationSession>)
    ensures |r| <= |sessions|
    ensures forall i :: 0 <= i < |r| ==> r[i] in sessions && r[i].timestamp >= start
    ensures forall i :: 0 <= i < |sessions| && sessions[i].timestamp >= start ==> sessions[i] in r
    decreases |sessions|
  {
    if sessions == [] then []
    else
      var init := sessions[..|sessions| - 1];
      var last := sessions[|sessions| - 1];
      assert sessions == init + [last];
      Relevant(init, start) + (if last.timestamp >= start then [last] else [])
  }

  /** A missing duration counts as 0. */
  function DurationOrZero(s: ConversationSession): int
  {
    if s.duration.Some? then s.duration.value else 0
  }

  /** The summed durations, in seconds. */
  function TotalSeconds(sessions: seq<ConversationSession>): int
    decreases |sessions|
  {
    if sessions == [] then 0
    else TotalSeconds(sessions[..|sessions| - 1]) + DurationOrZero(sessions[|sessions| - 1])
  }

  /** The progress toward the goal: whole minutes or conversations. */
  function Current(goalType: GoalType, relevant: seq<ConversationSession>): (c: int)
    ensures goalType == Conversations ==> c == |relevant|
    ensures goalType == Time ==> c * 60 <= TotalSeconds(relevant) < c * 60 + 60
  {
    if goalType == Time then TotalSeconds(relevant) / 60 else |relevant|
  }

  /** The share of the target reached, in percent, capped at 100; 0 when the
      target is not positive. */
  function Percentage(current: int, target: int): (p: real)
    ensures target <= 0 ==> p == 0.0
    ensures current >= 0 ==> 0.0 <= p <= 100.0
  {
    if target > 0 then
      var share := (current as real / target as real) * 100.0;
      if share < 100.0 then share else 100.0
    else 0.0
  }

  datatype Progress = Progress(current: int, target: int, percentage: real)

  /** The progress data of the tracker. */
  function ProgressOf(goal: Option<Goal>, sessions: seq<ConversationSession>, today: Today): (p: Progress)
    requires ValidToday(today)
    ensures goal.None? ==> p == Progress(0, 0, 0.0)
    ensures goal.Some? ==> p.target == goal.value.target
  {
    if goal.None? then Progress(0, 0, 0.0)
    else
      var g := goal.value;
      var current := Current(g.goalType, Relevant(sessions, PeriodStart(g.period, today)));
      Progress(current, g.target, Percentage(current, g.target))
  }

  predicate IsGoalComplete(p: Progress)
  {
    p.percentage >= 100.0
  }

  /** The capped percentage reaches 100 exactly when the count reaches a
      positive target. */
  lemma {:induction false} PercentageFull(current: int, target: int)
    ensures Percentage(current, target) >= 100.0 <==> target > 0 && current >= target
  {
    if target > 0 {
      var c := current as real;
      var t := target as real;
      assert (c / t) * t == c;
      if c >= t {
        assert c / t >= 1.0;
      } else {
        assert c / t < 1.0;
      }
    }
  }

  /** The goal is complete exactly when the progress has reached a positive
      target. */
  lemma {:induction false} CompleteIffReached(goal: Goal, sessions: seq<ConversationSession>, today: Today)
    requires ValidToday(today)
    ensures var p := ProgressOf(Some(goal), sessions, today);
      IsGoalComplete(p) <==> goal.target > 0 && p.current >= goal.target
  {
    var p := ProgressOf(Some(goal), sessions, today);
    PercentageFull(p.current, goal.target);
  }

  /** Durations are never negative as saved, so no sum is. */
  lemma {:induction false} TotalSecondsNonNegative(sessions: seq<ConversationSession>)
    requires forall i :: 0 <= i < |sessions| ==> DurationOrZero(sessions[i]) >= 0
    ensures TotalSeconds(sessions) >= 0
    decreases |sessions|
  {
    if sessions != [] {
      TotalSecondsNonNegative(sessions[..|sessions| - 1]);
    }
  }

  /** With non-negative durations the bar is between 0 and 100 percent. */
  lemma {:induction false} PercentageInRange(goal: Option<Goal>, sessions: seq<ConversationSession>, today: Today)
    requires ValidToday(today)
    requires forall i :: 0 <= i < |sessions| ==> DurationOrZero(sessions[i]) >= 0
    ensures 0.0 <= ProgressOf(goal, sessions, today).percentage <= 100.0
  {
    if goal.Some? {
      var r := Relevant(sessions, PeriodStart(goal.value.period, today));
      forall i | 0 <= i < |r|
        ensures DurationOrZero(r[i]) >= 0
      {
        var j :| 0 <= j < |sessions| && sessions[j] == r[i];
      }
      TotalSecondsNonNegative(r);
    }
  }

  /** A session saved before the period started changes nothing. */
  lemma {:induction false} EarlierSessionIgnored(goal: Option<Goal>, sessions: seq<ConversationSession>,
                                                 s: ConversationSession, today: Today)
    requires ValidToday(today)
    requires goal.Some? ==> s.timestamp < PeriodStart(goal.value.period, today)
    ensures ProgressOf(goal, sessions + [s], today) == ProgressOf(goal, sessions, today)
  {
    if goal.Some? {
      var all := sessions + [s];
      var start := PeriodStart(goal.value.period, today);
      assert all[..|all| - 1] == sessions;
      assert Relevant(all, start) == Relevant(sessions, start);
    }
  }

  /** A session saved within the period adds its whole duration to a time
      goal and one to a conversations goal. */
  lemma {:induction false} LaterSessionCounted(goal: Goal, sessions: seq<ConversationSession>,
                                               s: ConversationSession, today: Today)
    requires ValidToday(today)
    requires s.timestamp >= PeriodStart(goal.period, today)
    ensures var start := PeriodStart(goal.period, today);
      Relevant(sessions + [s], start) == Relevant(sessions, start) + [s] &&
      TotalSeconds(Relevant(sessions + [s], start)) == TotalSeconds(Relevant(sessions, start)) + DurationOrZero(s)
    ensures goal.goalType == Conversations ==>
      ProgressOf(Some(goal), sessions + [s], today).current == ProgressOf(Some(goal), sessions, today).current + 1
  {
    var all := sessions + [s];
    assert all[..|all| - 1] == sessions;
    var start := PeriodStart(goal.period, today);
    var r := Relevant(sessions, start) + [s];
    assert r[..|r| - 1] == Relevant(sessions, start);
  }
}
