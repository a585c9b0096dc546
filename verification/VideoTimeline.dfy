/**
  The video recorder: frames arrive with jittery stamps and leave on a constant-rate timeline.

  Slot k of the timeline starts k frame periods after the first frame.  A frame fills every slot
  up to its own that is still empty.
 */
module VideoTimeline {
  import opened Prelude

  type Frame = seq<Byte>

  datatype Arrival = Arrival(frame: Frame, t: real)

  /** The slot of a stamp on a timeline that starts at t0. */
  function Slot(fps: real, t0: real, t: real): int {
    ((t - t0) * fps + 0.5).Floor
  }

  function SlotOf(fps: real, arrivals: seq<Arrival>, i: nat): int
    requires i < |arrivals|
  {
    Slot(fps, arrivals[0].t, arrivals[i].t)
  }

  /** The highest slot reached. */
  function Highest(fps: real, arrivals: seq<Arrival>, n: nat): int
    requires 1 <= n <= |arrivals|
  {
    if n == 1 then SlotOf(fps, arrivals, 0)
    else
      var before := Highest(fps, arrivals, n - 1);
      if SlotOf(fps, arrivals, n - 1) > before then SlotOf(fps, arrivals, n - 1) else before
  }

  /** Arrivals that came later than everything before them: the ones that are placed. */
  function Placed(fps: real, arrivals: seq<Arrival>, n: nat): nat
    requires n <= |arrivals|
  {
    if n <= 1 then n
    else Placed(fps, arrivals, n - 1) +
         if SlotOf(fps, arrivals, n - 1) > Highest(fps, arrivals, n - 1) then 1 else 0
  }

  /** Arrival i is the first that reaches slot k. */
  ghost predicate FirstToReach(fps: real, arrivals: seq<Arrival>, i: nat, k: int) {
    && i < |arrivals| && SlotOf(fps, arrivals, i) >= k
    && forall j :: 0 <= j < i ==> SlotOf(fps, arrivals, j) < k
  }

  /** The timeline that a sequence of arrivals should leave. */
  ghost predicate IsTimeline(fps: real, arrivals: seq<Arrival>, timeline: seq<Frame>) {
    && (arrivals == [] ==> timeline == [])
    && (arrivals != [] ==> |timeline| == Highest(fps, arrivals, |arrivals|) + 1)
    && forall k :: 0 <= k < |timeline| ==> Filled(fps, arrivals, timeline, k)
  }

  /** Slot k shows the frame that reached it first. */
  ghost predicate Filled(fps: real, arrivals: seq<Arrival>, timeline: seq<Frame>, k: nat)
    requires k < |timeline|
  {
    exists i: nat :: FirstToReach(fps, arrivals, i, k) && timeline[k] == arrivals[i].frame
  }

  lemma FirstSlot(fps: real, arrivals: seq<Arrival>)
    requires arrivals != []
    ensures SlotOf(fps, arrivals, 0) == 0
  {
  }

  lemma {:induction false} HighestIsMaximum(fps: real, arrivals: seq<Arrival>, n: nat)
    requires 1 <= n <= |arrivals|
    ensures Highest(fps, arrivals, n) >= 0
    ensures forall i :: 0 <= i < n ==> SlotOf(fps, arrivals, i) <= Highest(fps, arrivals, n)
    ensures exists i :: 0 <= i < n && SlotOf(fps, arrivals, i) == Highest(fps, arrivals, n)
  {
    FirstSlot(fps, arrivals);
    if n > 1 {
      HighestIsMaximum(fps, arrivals, n - 1);
      if SlotOf(fps, arrivals, n - 1) > Highest(fps, arrivals, n - 1) {
        assert SlotOf(fps, arrivals, n - 1) == Highest(fps, arrivals, n);
      }
    }
  }

  lemma {:induction false} PrefixAgrees(fps: real, arrivals: seq<Arrival>, more: seq<Arrival>, n: nat)
    requires n <= |arrivals|
    ensures n >= 1 ==> Highest(fps, arrivals + more, n) == Highest(fps, arrivals, n)
    ensures Placed(fps, arrivals + more, n) == Placed(fps, arrivals, n)
  {
    if n > 1 {
      PrefixAgrees(fps, arrivals, more, n - 1);
    }
  }

  /** The slots that arrivals[i] fills stay its own, and the new slots belong to the new arrival. */
  lemma Fills(fps: real, arrivals: seq<Arrival>, timeline: seq<Frame>, a: Arrival, timeline': seq<Frame>, k: nat)
    requires IsTimeline(fps, arrivals, timeline) && timeline <= timeline' && k < |timeline'|
    requires forall j :: |timeline| <= j < |timeline'| ==> timeline'[j] == a.frame
    requires |timeline'| > |timeline| ==> |timeline'| == SlotOf(fps, arrivals + [a], |arrivals|) + 1
    ensures Filled(fps, arrivals + [a], timeline', k)
  {
    var all, n := arrivals + [a], |arrivals|;
    assert forall j :: 0 <= j < n ==> SlotOf(fps, all, j) == SlotOf(fps, arrivals, j);
    if k < |timeline| {
      assert Filled(fps, arrivals, timeline, k);
      var i: nat :| FirstToReach(fps, arrivals, i, k) && timeline[k] == arrivals[i].frame;
      assert FirstToReach(fps, all, i, k);
    } else {
      if n > 0 {
        HighestIsMaximum(fps, arrivals, n);
      }
      assert FirstToReach(fps, all, n, k);
    }
  }

  /** Extending a timeline by the copies that one more arrival is due. */
  lemma Extend(fps: real, arrivals: seq<Arrival>, timeline: seq<Frame>, a: Arrival, timeline': seq<Frame>)
    requires IsTimeline(fps, arrivals, timeline)
    requires var t0 := if arrivals == [] then a.t else arrivals[0].t;
      var target := Slot(fps, t0, a.t) + 1;
      && |timeline'| == (if target > |timeline| then target else |timeline|)
      && timeline <= timeline'
      && forall k :: |timeline| <= k < |timeline'| ==> timeline'[k] == a.frame
    ensures IsTimeline(fps, arrivals + [a], timeline')
    ensures Placed(fps, arrivals + [a], |arrivals| + 1)
         == Placed(fps, arrivals, |arrivals|) + if |timeline'| > |timeline| then 1 else 0
  {
    var all, n := arrivals + [a], |arrivals|;
    assert |timeline'| == Highest(fps, all, n + 1) + 1 by {
      Grows(fps, arrivals, timeline, a, |timeline'|);
    }
    assert (if n == 0 then a.t else arrivals[0].t) == all[0].t && all[n] == a;
    forall k | 0 <= k < |timeline'|
      ensures Filled(fps, all, timeline', k)
    {
      Fills(fps, arrivals, timeline, a, timeline', k);
    }
    Grows(fps, arrivals, timeline, a, |timeline'|);
  }

  lemma Grows(fps: real, arrivals: seq<Arrival>, timeline: seq<Frame>, a: Arrival, length: nat)
    requires IsTimeline(fps, arrivals, timeline)
    requires var t0 := if arrivals == [] then a.t else arrivals[0].t;
      var target := Slot(fps, t0, a.t) + 1;
      length == if target > |timeline| then target else |timeline|
    ensures length == Highest(fps, arrivals + [a], |arrivals| + 1) + 1
    ensures Placed(fps, arrivals + [a], |arrivals| + 1)
         == Placed(fps, arrivals, |arrivals|) + if length > |timeline| then 1 else 0
  {
    var all, n := arrivals + [a], |arrivals|;
    PrefixAgrees(fps, arrivals, [a], n);
    FirstSlot(fps, all);
    if n > 0 {
      HighestIsMaximum(fps, arrivals, n);
    }
  }

  /** The time of the latest stamp. */
  function Latest(arrivals: seq<Arrival>, n: nat): real
    requires 1 <= n <= |arrivals|
  {
    if n == 1 then arrivals[0].t else Max(Latest(arrivals, n - 1), arrivals[n - 1].t)
  }

  lemma SlotMonotone(fps: real, t0: real, t: real, u: real)
    requires fps > 0.0 && t <= u
    ensures Slot(fps, t0, t) <= Slot(fps, t0, u)
  {
    assert (u - t) * fps >= 0.0;
  }

  lemma {:induction false} HighestIsLatest(fps: real, arrivals: seq<Arrival>, n: nat)
    requires fps > 0.0 && 1 <= n <= |arrivals|
    ensures Highest(fps, arrivals, n) == Slot(fps, arrivals[0].t, Latest(arrivals, n))
  {
    if n > 1 {
      HighestIsLatest(fps, arrivals, n - 1);
      SlotMonotone(fps, arrivals[0].t, Latest(arrivals, n - 1), Latest(arrivals, n));
      SlotMonotone(fps, arrivals[0].t, arrivals[n - 1].t, Latest(arrivals, n));
    }
  }

  /** The video lasts between half a frame and one and a half frames longer than the stamps span. */
  lemma DurationBound(fps: real, arrivals: seq<Arrival>, timeline: seq<Frame>)
    requires fps > 0.0 && arrivals != [] && IsTimeline(fps, arrivals, timeline)
    ensures var span := (Latest(arrivals, |arrivals|) - arrivals[0].t) * fps;
      0.5 < |timeline| as real - span <= 1.5
  {
    HighestIsLatest(fps, arrivals, |arrivals|);
  }

  /** A frame is dropped exactly if it does not reach beyond the timeline so far. */
  lemma StaleFramesChangeNothing(fps: real, arrivals: seq<Arrival>, timeline: seq<Frame>, a: Arrival)
    requires IsTimeline(fps, arrivals, timeline) && arrivals != []
    ensures IsTimeline(fps, arrivals + [a], timeline) <==> Slot(fps, arrivals[0].t, a.t) < |timeline|
  {
    var all := arrivals + [a];
    PrefixAgrees(fps, arrivals, [a], |arrivals|);
    if Slot(fps, arrivals[0].t, a.t) < |timeline| {
      Extend(fps, arrivals, timeline, a, timeline);
    }
  }

  /** The longest jump that is bridged: an hour's worth of frames, truncated. */
  function MaxDue(fps: real): int {
    (fps * 3600.0).Floor
  }

  /** n more frames, all alike. */
  predicate Repeats(before: seq<Frame>, after: seq<Frame>, n: int, frame: Frame) {
    && before <= after && |after| == |before| + n
    && forall k :: |before| <= k < |after| ==> after[k] == frame
  }

  /** There is only one such timeline: the arrivals decide every slot. */
  lemma TimelineIsUnique(fps: real, arrivals: seq<Arrival>, timeline: seq<Frame>, other: seq<Frame>)
    requires IsTimeline(fps, arrivals, timeline) && IsTimeline(fps, arrivals, other)
    ensures timeline == other
  {
    forall k: nat | k < |timeline|
      ensures timeline[k] == other[k]
    {
      assert Filled(fps, arrivals, timeline, k) && Filled(fps, arrivals, other, k);
      var i: nat :| FirstToReach(fps, arrivals, i, k) && timeline[k] == arrivals[i].frame;
      var j: nat :| FirstToReach(fps, arrivals, j, k) && other[k] == arrivals[j].frame;
      assert i == j;
    }
  }

  /**
    A gap of due - 1 slots before a new frame.  The comment in the recorder has it repeat the
    previous image; it holds copies of the new frame, which is the same only if the two are alike.
   */
  lemma GapRepeatsPreviousIff(timeline: seq<Frame>, timeline': seq<Frame>, due: nat, frame: Frame)
    requires timeline != [] && due > 1 && Repeats(timeline, timeline', due, frame)
    ensures (forall k :: |timeline| <= k < |timeline'| - 1 ==> timeline'[k] == Final(timeline))
       <==> frame == Final(timeline)
  {
    assert timeline'[|timeline|] == frame;
  }

  /** At one frame a second, an image and another one two seconds later: the gap shows the later one. */
  lemma GapShowsNext(a: Frame, b: Frame)
    requires a != b
    ensures var arrivals, timeline := [Arrival(a, 0.0), Arrival(b, 2.0)], [a, b, b];
      IsTimeline(1.0, arrivals, timeline) && Repeats([a], timeline, 2, b) && timeline[1] != Final([a])
  {
    var first, second := Arrival(a, 0.0), Arrival(b, 2.0);
    Extend(1.0, [], [], first, [a]);
    Extend(1.0, [first], [a], second, [a, b, b]);
    assert [] + [first] == [first] && [first] + [second] == [first, second];
  }

  /** FFmpeg's end of the pipe takes a frame, or not. */
  method Write() returns (ok: bool) {
    ok := *;
  }

  /** What the stages of a recording have to keep from one frame to the next. */
  ghost predicate Recorded(fps: real, arrivals: seq<Arrival>, timeline: seq<Frame>, repeated: nat, startTime: real,
                           lastFrame: Frame)
  {
    && IsTimeline(fps, arrivals, timeline)
    && |timeline| == Placed(fps, arrivals, |arrivals|) + repeated
    && (arrivals == [] ==> lastFrame == [])
    && (arrivals != [] ==> timeline != [] && startTime == arrivals[0].t && lastFrame == timeline[|timeline| - 1])
  }

  lemma RecordedOne(fps: real, arrivals: seq<Arrival>, timeline: seq<Frame>, repeated: nat, startTime: real,
                    lastFrame: Frame, a: Arrival, timeline': seq<Frame>, due: nat)
    requires Recorded(fps, arrivals, timeline, repeated, startTime, lastFrame)
    requires due == DueAt(fps, |timeline|, if timeline == [] then a.t else startTime, a.t)
    requires Repeats(timeline, timeline', due, a.frame)
    ensures Recorded(fps, arrivals + [a], timeline', repeated + if due > 1 then due - 1 else 0,
                     if timeline == [] then a.t else startTime, if due > 0 then a.frame else lastFrame)
  {
    Extend(fps, arrivals, timeline, a, timeline');
    if arrivals != [] {
      FirstSlot(fps, arrivals);
    }
  }

  lemma StartsEmpty(fps: real, startTime: real)
    ensures Recorded(fps, [], [], 0, startTime, [])
  {
  }

  lemma NothingRecorded(fps: real, arrivals: seq<Arrival>, timeline: seq<Frame>, repeated: nat, startTime: real,
                        lastFrame: Frame)
    requires Recorded(fps, arrivals, timeline, repeated, startTime, lastFrame)
    ensures timeline == [] <==> arrivals == []
    ensures lastFrame != [] ==> timeline != [] && lastFrame == timeline[|timeline| - 1]
  {
  }

  /** How many more frames a timeline of the given length needs to cover a stamp. */
  function DueAt(fps: real, frames: nat, t0: real, t: real): nat {
    var target := Slot(fps, t0, t) + 1;
    if target <= frames then 0 else target - frames
  }

  class VideoRecorder {
    const fps: real
    var running: bool
    var failed: bool
    var frames: nat
    var received: nat
    var repeated: nat
    var startTime: real
    var lastFrame: Frame
    /** What FFmpeg has been given. */
    ghost var timeline: seq<Frame>
    /** The frames that were recorded. */
    ghost var arrivals: seq<Arrival>

    ghost predicate Valid()
      reads this
    {
      && fps > 0.0 && frames == |timeline|
      && (!failed ==>
            && received == |arrivals|
            && Recorded(fps, arrivals, timeline, repeated, startTime, lastFrame))
    }

    /** The constructor of the node throws on a frame rate that is not positive. */
    constructor (fps: real)
      requires fps > 0.0
      ensures Valid() && !failed && arrivals == [] && timeline == [] && this.fps == fps
    {
      this.fps := fps;
      running, failed, frames, received, repeated, startTime, lastFrame := false, false, 0, 0, 0, 0.0, [];
      timeline, arrivals := [], [];
      StartsEmpty(fps, 0.0);
    }

    /** How often to write a frame; None stands for the exception on a jump of more than an hour. */
    method FramesDue(t: real) returns (due: Option<nat>)
      modifies this`startTime
      ensures startTime == if frames == 0 then t else old(startTime)
      ensures due.Some? <==> var n := DueAt(fps, frames, startTime, t); n == 0 || n <= MaxDue(fps)
      ensures due.Some? ==> due.value == DueAt(fps, frames, startTime, t)
    {
      if frames == 0 {
        startTime := t;
      }
      var target := ((t - startTime) * fps + 0.5).Floor + 1;
      if target <= frames {
        return Some(0);
      }
      var d := target - frames;
      if d > (fps * 3600.0).Floor {
        return None;
      }
      return Some(d);
    }

    /** The write loop; it stops at the first frame that FFmpeg does not take. */
    method WriteCopies(frame: Frame, n: nat) returns (ok: bool)
      requires frames == |timeline|
      modifies this`frames, this`timeline
      ensures frames == |timeline| && Repeats(old(timeline), timeline, frames - old(frames), frame)
      ensures if ok then frames == old(frames) + n else frames < old(frames) + n
    {
      for i := 0 to n
        invariant frames == |timeline| == |old(timeline)| + i
        invariant Repeats(old(timeline), timeline, i, frame)
      {
        ok := Write();
        if !ok {
          return;
        }
        frames := frames + 1;
        timeline := timeline + [frame];
      }
      ok := true;
    }

    /**
      Records one frame.  usable stands for the checks on format, size and encoding, startable for
      starting FFmpeg.  Only copies of the new frame are ever added, and never more than are due.
     */
    method Record(frame: Frame, t: real, usable: bool, startable: bool) returns (written: bool)
      requires Valid()
      modifies this
      ensures Valid()
      ensures Repeats(old(timeline), timeline, frames - old(frames), frame)
      ensures old(failed) ==> failed && timeline == old(timeline)
      ensures !old(failed) && !failed ==> arrivals == old(arrivals) + [Arrival(frame, t)]
      ensures !old(failed) ==>
                var due := DueAt(fps, old(frames), if old(frames) == 0 then t else old(startTime), t);
                && frames <= old(frames) + due && (!failed ==> running)
                && (!failed <==> usable && (old(running) || startable) && (due == 0 || due <= MaxDue(fps)) && written)
    {
      hide Recorded;
      written := true;
      if failed {
        return;
      }
      if !usable || (!running && !startable) {
        failed := true;
        return;
      }
      running := true;
      received := received + 1;
      var due := FramesDue(t);
      if due.None? {
        failed := true;
        return;
      }
      var n := due.value;
      written := WriteCopies(frame, n);
      if !written {
        failed := true;
        return;
      }
      RecordedOne(fps, arrivals, old(timeline), repeated, old(startTime), lastFrame, Arrival(frame, t), timeline, n);
      if n > 0 {
        lastFrame := frame;
      }
      if n > 1 {
        repeated := repeated + (n - 1);
      }
      arrivals := arrivals + [Arrival(frame, t)];
    }

    /**
      Ends the video, holding its last frame until now: afterwards the video lasts as long as the
      time since its first frame, to within half a frame.
     */
    method Close(now: real) returns (written: bool)
      requires Valid()
      modifies this
      ensures !running && frames == |timeline| && failed == old(failed) && arrivals == old(arrivals)
      ensures old(timeline) <= timeline
      ensures old(timeline) != [] ==> Repeats(old(timeline), timeline, frames - old(frames), Final(old(timeline)))
      ensures old(timeline) == [] || old(failed) || !old(running) || old(lastFrame) == [] ==>
                timeline == old(timeline)
      ensures !failed ==> frames == Placed(fps, arrivals, |arrivals|) + repeated
      ensures !failed && old(running) && old(lastFrame) != [] ==>
                var due := DueAt(fps, old(frames), startTime, now);
                && startTime == arrivals[0].t
                && frames <= old(frames) + due && (due > MaxDue(fps) ==> frames == old(frames))
                && (written && 0 < due <= MaxDue(fps) ==> -0.5 <= (now - arrivals[0].t) * fps - frames as real < 0.5)
    {
      hide IsTimeline, Placed;
      written := true;
      if running && !failed && lastFrame != [] {
        NothingRecorded(fps, arrivals, timeline, repeated, startTime, lastFrame);
        var before := frames;
        var due := FramesDue(now);
        if due.Some? && due.value > 1 {
          written := WriteCopies(lastFrame, due.value - 1);
          repeated := repeated + (frames - before);
        }
      }
      running := false;
    }
  }

  function Final(timeline: seq<Frame>): Frame
    requires timeline != []
  {
    timeline[|timeline| - 1]
  }
}
