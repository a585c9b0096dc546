/**
  The recurrent detector node: one slot per channel, holding resampler buffers and a detector.

  The buffers are replaced whenever the slot loses or changes its track.  The detector, whose
  recurrent state is expensive to rebuild, is replaced only when the last rebuild is long enough
  ago.
 */
module Gre {
  import opened Prelude
  import opened Resampling
  import opened BearingGate

  datatype Args = Args(minActivity: real, resetCooldown: real)

  /** One audio message as one slot sees it: the slot's track, its activity and its samples. */
  datatype Frame = Frame(trackId: int, activity: real, samples: seq<real>, now: real)

  /**
    A slot.  visit numbers the occupations of the slot, fed is the raw audio of this one, and
    detector lists, for every batch of audio the present detector has heard, its visit and samples.
   */
  datatype Slot = Slot(activeId: int, lastReset: real, visit: nat, fed: seq<real>, detector: seq<Batch>)

  datatype Batch = Batch(visit: nat, audio: seq<real>)

  const EMPTY := Slot(0, 0.0, 0, [], [])

  predicate Inactive(args: Args, f: Frame) {
    f.trackId == 0 || f.activity < args.minActivity
  }

  /** Whether the frame makes the slot forget its track. */
  predicate Resets(args: Args, s: Slot, f: Frame) {
    s.activeId != 0 && (Inactive(args, f) || s.activeId != f.trackId)
  }

  predicate Rebuilds(args: Args, s: Slot, now: real) {
    now - s.lastReset >= args.resetCooldown
  }

  function Reset(args: Args, s: Slot, now: real): Slot {
    if Rebuilds(args, s, now) then Slot(0, now, s.visit + 1, [], [])
    else Slot(0, s.lastReset, s.visit + 1, [], s.detector)
  }

  /** What becomes final when samples follow fed. */
  function NewAudio(h: Filter, fed: seq<real>, samples: seq<real>): seq<real> {
    var before, after := Finalized(h, GRE_RATE, fed), Finalized(h, GRE_RATE, fed + samples);
    if |before| <= |after| then after[|before|..] else []
  }

  function Heard(h: Filter, s: Slot, f: Frame): Slot {
    var audio := NewAudio(h, s.fed, f.samples);
    Slot(f.trackId, s.lastReset, s.visit, s.fed + f.samples,
         if audio == [] then s.detector else s.detector + [Batch(s.visit, audio)])
  }

  function Step(args: Args, h: Filter, s: Slot, f: Frame): Slot {
    var s' := if Resets(args, s, f) then Reset(args, s, f.now) else s;
    if Inactive(args, f) then s' else Heard(h, s', f)
  }

  class GreSlot {
    const args: Args
    const h: Filter
    var resampler: StreamingResampler
    var activeId: int
    var lastReset: real
    ghost var visit: nat
    ghost var detector: seq<Batch>

    ghost predicate Valid()
      reads this, resampler
    {
      resampler.Valid() && resampler.rate == GRE_RATE && resampler.h == h
    }

    ghost function State(): Slot
      reads this, resampler
    {
      Slot(activeId, lastReset, visit, resampler.fed, detector)
    }

    constructor (args: Args, h: Filter)
      requires Supported(h, GRE_RATE)
      ensures Valid() && fresh(resampler) && State() == EMPTY && this.args == args && this.h == h
    {
      this.args, this.h := args, h;
      resampler := new StreamingResampler(h, GRE_RATE);
      activeId, lastReset, visit, detector := 0, 0.0, 0, [];
    }

    method ResetChannel(now: real)
      requires Valid()
      modifies this
      ensures Valid() && fresh(resampler) && State() == Reset(args, old(State()), now)
    {
      resampler := new StreamingResampler(h, GRE_RATE);
      activeId := 0;
      visit := visit + 1;
      if now - lastReset < args.resetCooldown {
        return;
      }
      lastReset := now;
      detector := [];
    }

    /** The loop body of _sss_cb for one channel; returns the audio handed to the detector. */
    method Hear(f: Frame) returns (audio: seq<real>)
      requires Valid()
      modifies this, resampler
      ensures Valid() && (resampler == old(resampler) || fresh(resampler))
      ensures State() == Step(args, h, old(State()), f)
      ensures audio == if Inactive(args, f) then []
                       else NewAudio(h, if Resets(args, old(State()), f) then [] else old(State()).fed, f.samples)
    {
      audio := [];
      if f.trackId == 0 || f.activity < args.minActivity {
        if activeId != 0 {
          ResetChannel(f.now);
        }
        return;
      }
      if activeId != 0 && activeId != f.trackId {
        ResetChannel(f.now);
      }
      activeId := f.trackId;
      audio := resampler.Push(f.samples);
      if audio == [] {
        return;
      }
      detector := detector + [Batch(visit, audio)];
    }
  }

  // ----- runs -----

  function Run(args: Args, h: Filter, frames: seq<Frame>): Slot {
    if frames == [] then EMPTY
    else Step(args, h, Run(args, h, frames[..|frames| - 1]), frames[|frames| - 1])
  }

  /** The frames of the present visit: since the slot was last empty, all of one active track. */
  function VisitFrames(args: Args, h: Filter, frames: seq<Frame>): seq<Frame> {
    if frames == [] then []
    else
      var front, f := frames[..|frames| - 1], frames[|frames| - 1];
      var kept := if Resets(args, Run(args, h, front), f) then [] else VisitFrames(args, h, front);
      if Inactive(args, f) then kept else kept + [f]
  }

  function Samples(frames: seq<Frame>): seq<real> {
    if frames == [] then [] else Samples(frames[..|frames| - 1]) + frames[|frames| - 1].samples
  }

  /** The batches of one visit. */
  function BatchesOf(detector: seq<Batch>, visit: nat): seq<real> {
    if detector == [] then []
    else
      var b := detector[|detector| - 1];
      BatchesOf(detector[..|detector| - 1], visit) + if b.visit == visit then b.audio else []
  }

  lemma NewAudioFinal(h: Filter, fed: seq<real>, samples: seq<real>)
    requires Supported(h, GRE_RATE)
    ensures Finalized(h, GRE_RATE, fed) + NewAudio(h, fed, samples) == Finalized(h, GRE_RATE, fed + samples)
  {
    var k := GRE_RATE.Blocks(|fed|);
    BlocksBound(GRE_RATE, |fed|);
    BlocksMonotone(GRE_RATE, |fed|, |fed + samples|);
    if k > 0 {
      FinalBlocksStable(h, GRE_RATE, fed, samples, k);
    }
    assert Finalized(h, GRE_RATE, fed) <= Finalized(h, GRE_RATE, fed + samples);
  }

  lemma {:induction false} FutureVisit(detector: seq<Batch>, visit: nat)
    requires forall i :: 0 <= i < |detector| ==> detector[i].visit < visit
    ensures BatchesOf(detector, visit) == []
  {
    if detector != [] {
      FutureVisit(detector[..|detector| - 1], visit);
    }
  }

  /** The slot holds exactly what the frames of one visit gave it. */
  ghost predicate Isolated(args: Args, h: Filter, s: Slot, mine: seq<Frame>) {
    && s.fed == Samples(mine)
    && (forall f :: f in mine ==> f.trackId == s.activeId && !Inactive(args, f))
    && (s.activeId == 0 ==> mine == [])
    && (forall i :: 0 <= i < |s.detector| ==> s.detector[i].visit <= s.visit)
    && BatchesOf(s.detector, s.visit) == Finalized(h, GRE_RATE, s.fed)
  }

  lemma ResetIsolated(args: Args, h: Filter, s: Slot, mine: seq<Frame>, now: real)
    requires Isolated(args, h, s, mine)
    ensures Isolated(args, h, Reset(args, s, now), [])
  {
    FutureVisit(s.detector, s.visit + 1);
    assert Finalized(h, GRE_RATE, []) == [];
  }

  lemma HeardIsolated(args: Args, h: Filter, s: Slot, mine: seq<Frame>, f: Frame)
    requires Supported(h, GRE_RATE) && Isolated(args, h, s, mine)
    requires !Inactive(args, f) && (s.activeId == 0 || s.activeId == f.trackId)
    ensures Isolated(args, h, Heard(h, s, f), mine + [f])
  {
    assert (mine + [f])[..|mine|] == mine;
    NewAudioFinal(h, s.fed, f.samples);
    var b := Batch(s.visit, NewAudio(h, s.fed, f.samples));
    assert (s.detector + [b])[..|s.detector|] == s.detector;
  }

  /**
    The buffers are isolated: every sample fed in this visit comes from a frame of the one track
    that occupies the slot, and the detector has been handed exactly the final part of one
    continuous conversion of those samples.
   */
  lemma {:induction false} BuffersAreIsolated(args: Args, h: Filter, frames: seq<Frame>)
    requires Supported(h, GRE_RATE)
    ensures Isolated(args, h, Run(args, h, frames), VisitFrames(args, h, frames))
  {
    if frames == [] {
      assert Finalized(h, GRE_RATE, []) == [];
    } else {
      var n := |frames| - 1;
      BuffersAreIsolated(args, h, frames[..n]);
      var s, f, mine := Run(args, h, frames[..n]), frames[n], VisitFrames(args, h, frames[..n]);
      ResetIsolated(args, h, s, mine, f.now);
      if !Inactive(args, f) {
        if Resets(args, s, f) {
          HeardIsolated(args, h, Reset(args, s, f.now), [], f);
        } else {
          HeardIsolated(args, h, s, mine, f);
        }
      }
    }
  }

  /** What the node's documentation promises: the detector carries nothing of an earlier track. */
  predicate DetectorIsolated(s: Slot) {
    forall i :: 0 <= i < |s.detector| ==> s.detector[i].visit == s.visit
  }

  /**
    The promise is kept by a frame exactly if that frame does not make the slot forget a track
    that its detector has already heard while the cooldown is still running.
   */
  lemma DetectorIsolationCondition(args: Args, h: Filter, s: Slot, f: Frame)
    requires DetectorIsolated(s)
    ensures DetectorIsolated(Step(args, h, s, f)) <==>
      !(Resets(args, s, f) && !Rebuilds(args, s, f.now) && s.detector != [])
  {
    var s' := if Resets(args, s, f) then Reset(args, s, f.now) else s;
    if Resets(args, s, f) && !Rebuilds(args, s, f.now) && s.detector != [] {
      assert Step(args, h, s, f).detector[0] == s.detector[0];
    }
  }

  /** Every frame of the run met that condition. */
  predicate NoEarlyChange(args: Args, h: Filter, frames: seq<Frame>) {
    frames == [] ||
    var s, f := Run(args, h, frames[..|frames| - 1]), frames[|frames| - 1];
    && NoEarlyChange(args, h, frames[..|frames| - 1])
    && !(Resets(args, s, f) && !Rebuilds(args, s, f.now) && s.detector != [])
  }

  predicate AlwaysIsolated(args: Args, h: Filter, frames: seq<Frame>) {
    DetectorIsolated(Run(args, h, frames))
    && (frames == [] || AlwaysIsolated(args, h, frames[..|frames| - 1]))
  }

  lemma {:induction false} DetectorIsolationOverRuns(args: Args, h: Filter, frames: seq<Frame>)
    ensures AlwaysIsolated(args, h, frames) <==> NoEarlyChange(args, h, frames)
  {
    if frames != [] {
      var n := |frames| - 1;
      DetectorIsolationOverRuns(args, h, frames[..n]);
      if AlwaysIsolated(args, h, frames[..n]) {
        DetectorIsolationCondition(args, h, Run(args, h, frames[..n]), frames[n]);
      }
    }
  }

  /** Three tracks in quick succession: the third inherits what the second one left in the detector. */
  lemma QuickChangeLeaks(h: Filter)
    requires Supported(h, GRE_RATE)
    ensures var args, one, second := Args(0.3, 2.0), [0.0], Silence(2 * GRE_RATE.Block());
      var frames := [Frame(1, 1.0, one, 100.0), Frame(2, 1.0, second, 101.0), Frame(3, 1.0, one, 102.0)];
      !DetectorIsolated(Run(args, h, frames))
  {
    hide Run;
    var args, one, second := Args(0.3, 2.0), [0.0], Silence(2 * GRE_RATE.Block());
    var a, b, c := Frame(1, 1.0, one, 100.0), Frame(2, 1.0, second, 101.0), Frame(3, 1.0, one, 102.0);
    var s1 := Step(args, h, EMPTY, a);
    assert [] + one == one && [] + second == second;
    NewAudioFinal(h, [], one);
    assert s1 == Slot(1, 0.0, 0, one, []);
    var s2 := Step(args, h, s1, b);
    NewAudioFinal(h, [], second);
    assert s2.detector != [] && s2.lastReset == 101.0 && s2.activeId == 2;
    assert DetectorIsolated(s2);
    DetectorIsolationCondition(args, h, s2, c);
    assert [] + [a] == [a] && [a] + [b] == [a, b] && [a, b] + [c] == [a, b, c];
    RunSnoc(args, h, [], a);
    RunSnoc(args, h, [a], b);
    RunSnoc(args, h, [a, b], c);
  }

  lemma RunSnoc(args: Args, h: Filter, frames: seq<Frame>, f: Frame)
    ensures Run(args, h, []) == EMPTY && Run(args, h, frames + [f]) == Step(args, h, Run(args, h, frames), f)
  {
    assert (frames + [f])[..|frames|] == frames;
  }

  /**
    Publishing a detection.  When the gate holds the direction back, the log line formats the
    gate's last rejection angle, which raises TypeError when there is none.
   */
  method Publish(gate: BearingGate, direction: Option<Vec>, now: real) returns (published: bool, raised: bool)
    modifies gate
    ensures raised <==> Normalize(gate.norm, direction).None? && old(gate.lastRejectAngle).None?
    ensures published
         == Decide(gate.norm, gate.cfg, old(gate.State()), Normalize(gate.norm, direction), now).publish
    ensures published ==> !raised
  {
    var publish, retargeted := gate.Accept(direction, now);
    published, raised := publish, !publish && gate.lastRejectAngle.None?;
  }

  /** The first direction a gate is offered is the zero vector: the log line raises. */
  method ZeroDirectionRaises(norm: Vec -> real, cfg: Config, degrees: real -> real, now: real) returns (raised: bool)
    requires IsNorm(norm)
    ensures raised
  {
    var zero := Vec(0.0, 0.0, 0.0);
    assert norm(zero) * norm(zero) == Dot(zero, zero) == 0.0;
    var gate := new BearingGate(norm, cfg, degrees);
    var published;
    published, raised := Publish(gate, Some(zero), now);
  }
}
