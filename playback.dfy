/** The playback scheduler of the audio the service streams back
    (App.tsx:528-558, 219-221): a scheduling cursor on the output clock and
    the set of sources still playing, both kept across messages. Each buffer
    starts at the later of the cursor and the current time, and the cursor
    moves past it; an interrupt stops every live source and resets the cursor
    to 0. Times and durations are seconds on the output audio clock. */
module Playback {

  /** One scheduled buffer: its source and the interval it plays in. */
  datatype Slot = Slot(source: nat, start: real, end: real)

  /** Slots that play one after another: each ends no later than the next
      starts, and none ends before it starts. */
  predicate Chained(slots: seq<Slot>)
  {
    (forall i :: 0 <= i < |slots| ==> slots[i].start <= slots[i].end) &&
    (forall i :: 0 <= i < |slots| - 1 ==> slots[i].end <= slots[i + 1].start)
  }

  /** In a chain no two slots overlap, and start times never decrease. */
  lemma {:induction false} ChainedNoOverlap(slots: seq<Slot>, i: nat, j: nat)
    requires Chained(slots) && i < j < |slots|
    ensures slots[i].end <= slots[j].start
    ensures slots[i].start <= slots[j].start
    decreases j - i
  {
    if j > i + 1 {
      ChainedNoOverlap(slots, i, j - 1);
      assert slots[j - 1].start <= slots[j - 1].end;
    }
  }

  /** The start time of the next buffer: the later of the cursor and now. */
  function NextStart(cursor: real, now: real): (start: real)
    ensures start >= cursor && start >= now
    ensures start == cursor || start == now
  {
    if cursor >= now then cursor else now
  }

  /** The playback state: the time the next buffer is to start at, the
      sources started and not yet ended or stopped, every source a `stop()`
      was issued for, and the identity the next source gets. */
  datatype Player = Player(cursor: real, live: set<nat>, stopped: set<nat>, nextSource: nat)

  /** Nothing scheduled yet. */
  const Idle: Player := Player(0.0, {}, {}, 0)

  /** The cursor is on the clock and every live source was handed out. */
  predicate Sound(p: Player)
  {
    p.cursor >= 0.0 && forall x :: x in p.live ==> x < p.nextSource
  }

  /** Schedule a decoded buffer of `duration` seconds arriving at clock time
      `now`: the new state and the slot it plays in. */
  function Schedule(p: Player, now: real, duration: real): (r: (Player, Slot))
    requires now >= 0.0 && duration >= 0.0
    ensures r.1.start >= p.cursor && r.1.start >= now
    ensures r.1.start == p.cursor || r.1.start == now
    ensures r.1.end == r.1.start + duration && r.0.cursor == r.1.end
    ensures r.1.source == p.nextSource && r.0.nextSource == r.1.source + 1
    ensures r.0.live == p.live + {r.1.source}
    ensures r.0.stopped == p.stopped
    ensures Sound(p) ==> Sound(r.0) && r.1.source !in p.live
  {
    var start := NextStart(p.cursor, now);
    (Player(start + duration, p.live + {p.nextSource}, p.stopped, p.nextSource + 1),
     Slot(p.nextSource, start, start + duration))
  }

  /** The `ended` event of a source removes it from the live set. */
  function Ended(p: Player, source: nat): (q: Player)
    ensures q.live == p.live - {source} && source !in q.live
    ensures q.cursor == p.cursor && q.stopped == p.stopped && q.nextSource == p.nextSource
    ensures Sound(p) ==> Sound(q)
  {
    p.(live := p.live - {source})
  }

  /** Stop every live source, forget them and reset the cursor to 0; both an
      interrupt and a cleanup do this. */
  function StopAll(p: Player): (q: Player)
    ensures q.live == {} && q.cursor == 0.0
    ensures q.stopped == p.stopped + p.live && p.live <= q.stopped
    ensures q.nextSource == p.nextSource
    ensures Sound(q)
  {
    Player(0.0, {}, p.stopped + p.live, p.nextSource)
  }

  /** A buffer of audio as it arrives: the clock time and its duration. */
  datatype Arrival = Arrival(now: real, duration: real)

  predicate OnClock(arrivals: seq<Arrival>)
  {
    forall i :: 0 <= i < |arrivals| ==> arrivals[i].now >= 0.0 && arrivals[i].duration >= 0.0
  }

  /** Schedule the buffers one after another: the final state and the slots. */
  function Play(p: Player, arrivals: seq<Arrival>): (r: (Player, seq<Slot>))
    requires OnClock(arrivals)
    ensures |r.1| == |arrivals|
    decreases |arrivals|
  {
    if arrivals == [] then (p, [])
    else
      var (q, s) := Schedule(p, arrivals[0].now, arrivals[0].duration);
      var (final, rest) := Play(q, arrivals[1..]);
      (final, [s] + rest)
  }

  /** Each slot starts at the later of its arrival time and the end of the
      slot before it (the cursor, for the first), lasts as long as its
      buffer, and gets the next source; the cursor ends at the end of the
      last slot. */
  lemma {:induction false} PlayTimeline(p: Player, arrivals: seq<Arrival>)
    requires OnClock(arrivals)
    ensures var (final, slots) := Play(p, arrivals);
      (|slots| > 0 ==> slots[0].start == NextStart(p.cursor, arrivals[0].now)) &&
      (forall i :: 1 <= i < |slots| ==> slots[i].start == NextStart(slots[i - 1].end, arrivals[i].now)) &&
      (forall i :: 0 <= i < |slots| ==>
        slots[i].end == slots[i].start + arrivals[i].duration && slots[i].source == p.nextSource + i) &&
      final.cursor == (if slots == [] then p.cursor else slots[|slots| - 1].end) &&
      final.nextSource == p.nextSource + |slots| &&
      final.stopped == p.stopped
    decreases |arrivals|
  {
    if arrivals != [] {
      var (q, s) := Schedule(p, arrivals[0].now, arrivals[0].duration);
      PlayTimeline(q, arrivals[1..]);
      var (final, rest) := Play(q, arrivals[1..]);
      var slots := [s] + rest;
      assert Play(p, arrivals) == (final, slots);
      forall i | 1 <= i < |slots|
        ensures slots[i].start == NextStart(slots[i - 1].end, arrivals[i].now)
        ensures slots[i].end == slots[i].start + arrivals[i].duration
        ensures slots[i].source == p.nextSource + i
      {
        assert slots[i] == rest[i - 1] && arrivals[i] == arrivals[1..][i - 1];
        if i > 1 {
          assert slots[i - 1] == rest[i - 2];
        }
      }
    }
  }

  /** Played buffers never overlap and none starts before it arrived or
      before the cursor: playback is gapless while audio arrives early, and
      never plays two buffers at once. */
  lemma {:induction false} PlayChained(p: Player, arrivals: seq<Arrival>)
    requires OnClock(arrivals)
    ensures var slots := Play(p, arrivals).1;
      Chained(slots) &&
      (forall i :: 0 <= i < |slots| ==> slots[i].start >= arrivals[i].now && slots[i].start >= p.cursor)
  {
    PlayTimeline(p, arrivals);
    var slots := Play(p, arrivals).1;
    forall i | 0 <= i < |slots|
      ensures slots[i].start <= slots[i].end
      ensures slots[i].start >= arrivals[i].now && slots[i].start >= p.cursor
    {
      assert arrivals[i].duration >= 0.0;
      ChainedPrefix(p, arrivals, slots, i);
      if i > 0 {
        assert slots[i].start == NextStart(slots[i - 1].end, arrivals[i].now);
      }
    }
    forall i | 0 <= i < |slots| - 1
      ensures slots[i].end <= slots[i + 1].start
    {
      assert slots[i + 1].start == NextStart(slots[i].end, arrivals[i + 1].now);
    }
  }

  /** Helper for PlayChained: start times never fall below the cursor. */
  lemma {:induction false} ChainedPrefix(p: Player, arrivals: seq<Arrival>, slots: seq<Slot>, i: nat)
    requires |slots| == |arrivals| && i < |slots| && OnClock(arrivals)
    requires |slots| > 0 ==> slots[0].start == NextStart(p.cursor, arrivals[0].now)
    requires forall k :: 1 <= k < |slots| ==> slots[k].start == NextStart(slots[k - 1].end, arrivals[k].now)
    requires forall k :: 0 <= k < |slots| ==> slots[k].end == slots[k].start + arrivals[k].duration
    ensures slots[i].start >= p.cursor
    decreases i
  {
    if i > 0 {
      assert slots[i].start == NextStart(slots[i - 1].end, arrivals[i].now);
      ChainedPrefix(p, arrivals, slots, i - 1);
      assert arrivals[i - 1].duration >= 0.0;
      assert slots[i - 1].end >= slots[i - 1].start;
    }
  }

  /** The sources live after playing are the ones live before and exactly
      the identities handed out while playing. */
  lemma {:induction false} PlayLive(p: Player, arrivals: seq<Arrival>)
    requires OnClock(arrivals) && Sound(p)
    ensures var final := Play(p, arrivals).0;
      Sound(final) &&
      forall x :: x in final.live <==> x in p.live || p.nextSource <= x < p.nextSource + |arrivals|
    decreases |arrivals|
  {
    if arrivals != [] {
      var (q, s) := Schedule(p, arrivals[0].now, arrivals[0].duration);
      PlayLive(q, arrivals[1..]);
      assert Play(p, arrivals).0 == Play(q, arrivals[1..]).0;
    }
  }

  /** After an interrupt the next buffer plays at once. */
  lemma {:induction false} InterruptRestartsNow(p: Player, now: real, duration: real)
    requires now >= 0.0 && duration >= 0.0
    ensures Schedule(StopAll(p), now, duration).1.start == now
  {
  }

  /** Buffers arriving while earlier ones still play are queued back to back;
      one arriving after the queue has drained starts at once. */
  lemma {:induction false} BackToBack()
    ensures var slots := Play(Idle, [Arrival(0.0, 1.0), Arrival(0.3, 0.5), Arrival(2.6, 2.0)]).1;
      slots[0].start == 0.0 && slots[1].start == 1.0 && slots[2].start == 2.6
  {
    var a := [Arrival(0.0, 1.0), Arrival(0.3, 0.5), Arrival(2.6, 2.0)];
    PlayTimeline(Idle, a);
  }
}
