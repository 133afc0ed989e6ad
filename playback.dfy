/** The playback scheduler's timeline arithmetic: each decoded chunk starts
    at the later of the cursor and the output clock, and pushes the cursor
    past its own end. Times are seconds on the output timeline. */
module Playback {

  type Seconds = r: real | r >= 0.0

  /** Where a chunk arriving at output time `now` starts: never in the
      past, never before the cursor, and at one of the two. */
  function StartOf(cursor: Seconds, now: Seconds): (start: Seconds)
    ensures start >= cursor && start >= now
    ensures start == cursor || start == now
  {
    if cursor >= now then cursor else now
  }

  /** A decoded chunk as the scheduler sees it: when it arrived and how long it plays. */
  datatype Arrival = Arrival(now: Seconds, duration: Seconds)

  /** A scheduled chunk: where it starts on the timeline and how long it plays. */
  datatype Placement = Placement(start: Seconds, duration: Seconds)

  function End(p: Placement): Seconds {
    p.start + p.duration
  }

  /** Where successive chunks land when the cursor starts at `cursor`. */
  function Timeline(cursor: Seconds, arrivals: seq<Arrival>): (ps: seq<Placement>)
    ensures |ps| == |arrivals|
    ensures forall i :: 0 <= i < |ps| ==> ps[i].duration == arrivals[i].duration && ps[i].start >= arrivals[i].now
    ensures |ps| > 0 ==> ps[0].start >= cursor && ps[0].start == StartOf(cursor, arrivals[0].now)
    decreases |arrivals|
  {
    if arrivals == [] then []
    else
      var p := Placement(StartOf(cursor, arrivals[0].now), arrivals[0].duration);
      [p] + Timeline(End(p), arrivals[1..])
  }

  /** Every chunk after the first starts at the later of its predecessor's
      end and its own arrival: right after the predecessor when it arrived
      in time, at its arrival when it came late. */
  lemma {:induction false} TimelineStep(cursor: Seconds, arrivals: seq<Arrival>, i: nat)
    requires 0 < i < |arrivals|
    ensures Timeline(cursor, arrivals)[i].start == StartOf(End(Timeline(cursor, arrivals)[i - 1]), arrivals[i].now)
    ensures arrivals[i].now > End(Timeline(cursor, arrivals)[i - 1]) ==> Timeline(cursor, arrivals)[i].start == arrivals[i].now
    decreases i
  {
    var p := Placement(StartOf(cursor, arrivals[0].now), arrivals[0].duration);
    var rest := Timeline(End(p), arrivals[1..]);
    assert Timeline(cursor, arrivals) == [p] + rest;
    if i > 1 {
      TimelineStep(End(p), arrivals[1..], i - 1);
    }
  }

  /** The cursor after all of `arrivals` were scheduled. */
  function CursorAfter(cursor: Seconds, arrivals: seq<Arrival>): (c: Seconds)
    ensures c >= cursor
    decreases |arrivals|
  {
    if arrivals == [] then cursor
    else CursorAfter(StartOf(cursor, arrivals[0].now) + arrivals[0].duration, arrivals[1..])
  }

  /** Successive chunks never overlap, and a chunk that arrives before its
      predecessor ends starts exactly when it ends (no gap). */
  lemma {:induction false} NoOverlapNoGap(cursor: Seconds, arrivals: seq<Arrival>, i: nat)
    requires i + 1 < |arrivals|
    ensures End(Timeline(cursor, arrivals)[i]) <= Timeline(cursor, arrivals)[i + 1].start
    ensures arrivals[i + 1].now <= End(Timeline(cursor, arrivals)[i]) ==>
      Timeline(cursor, arrivals)[i + 1].start == End(Timeline(cursor, arrivals)[i])
    decreases i
  {
    var p := Placement(StartOf(cursor, arrivals[0].now), arrivals[0].duration);
    var rest := Timeline(End(p), arrivals[1..]);
    assert Timeline(cursor, arrivals) == [p] + rest;
    if i > 0 {
      NoOverlapNoGap(End(p), arrivals[1..], i - 1);
    } else {
      assert rest[0] == Placement(StartOf(End(p), arrivals[1].now), arrivals[1].duration);
    }
  }

  /** The cursor ends at the end of the last chunk, so the next chunk
      cannot start before every earlier one has finished. */
  lemma {:induction false} CursorAfterIsLastEnd(cursor: Seconds, arrivals: seq<Arrival>)
    requires arrivals != []
    ensures CursorAfter(cursor, arrivals) == End(Timeline(cursor, arrivals)[|arrivals| - 1])
    ensures forall i :: 0 <= i < |arrivals| ==> End(Timeline(cursor, arrivals)[i]) <= CursorAfter(cursor, arrivals)
    decreases |arrivals|
  {
    var p := Placement(StartOf(cursor, arrivals[0].now), arrivals[0].duration);
    assert Timeline(cursor, arrivals) == [p] + Timeline(End(p), arrivals[1..]);
    if |arrivals| > 1 {
      CursorAfterIsLastEnd(End(p), arrivals[1..]);
    }
  }
}
