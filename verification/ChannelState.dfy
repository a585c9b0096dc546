/**
  Per-track preparation of model input: resampled audio is cut into one-second windows that
  overlap by half, and the model's answers are put to a vote.  Everything is forgotten when the
  track's identity changes.
 */
module ChannelState {
  import opened Prelude
  import opened Resampling

  const WINDOW := 16000
  const HOP := 8000
  const SAMPLES_PER_SECOND := 16000.0

  datatype Identity = Identity(id: int, frame: string, active: bool)

  datatype Window = Window(waveform: seq<real>, endTime: real)

  datatype Probability = Finite(p: real) | NonFinite

  datatype Settings = Settings(threshold: real, votesRequired: nat, voteWindow: nat) {
    /** What the constructor accepts without raising ValueError. */
    predicate Valid() {
      0.0 <= threshold <= 1.0 && 1 <= votesRequired <= voteWindow
    }
  }

  /** Windows that fit into len resampled samples. */
  function WindowCount(len: nat): nat {
    if len < WINDOW then 0 else (len - WINDOW) / HOP + 1
  }

  /** Window w of a recording that started at time start. */
  function WindowAt(audio: seq<real>, start: real, w: nat): Window
    requires HOP * w + WINDOW <= |audio|
  {
    Window(audio[HOP * w..HOP * w + WINDOW], start + (HOP * w + WINDOW) as real / SAMPLES_PER_SECOND)
  }

  function CountTrue(s: seq<bool>): nat {
    if s == [] then 0 else CountTrue(s[..|s| - 1]) + if s[|s| - 1] then 1 else 0
  }

  lemma {:induction false} CountTrueBound(s: seq<bool>)
    ensures CountTrue(s) <= |s|
    ensures CountTrue(s) == |s| <==> forall i :: 0 <= i < |s| ==> s[i]
  {
    if s != [] {
      CountTrueBound(s[..|s| - 1]);
    }
  }

  /** When every window is a vote, a unanimous decision needs the last voteWindow answers to agree. */
  lemma UnanimousDecision(cast: seq<bool>, n: nat)
    requires n >= 1
    ensures CountTrue(Last(cast, n)) >= n <==> |cast| >= n && forall i :: |cast| - n <= i < |cast| ==> cast[i]
  {
    CountTrueBound(Last(cast, n));
    if |cast| >= n {
      assert forall i :: 0 <= i < n ==> Last(cast, n)[i] == cast[|cast| - n + i];
      if CountTrue(Last(cast, n)) >= n {
        forall i | |cast| - n <= i < |cast|
          ensures cast[i]
        {
          assert cast[i] == Last(cast, n)[i - (|cast| - n)];
        }
      }
    }
  }

  /** Emptying the buffer window by window leaves exactly WindowCount windows taken. */
  lemma WindowsTaken(len: nat, offset: nat)
    requires offset % HOP == 0 && offset <= len
    requires offset == 0 || offset + HOP <= len
    requires len - offset < WINDOW
    ensures offset == HOP * WindowCount(len)
  {
  }

  /** Once k blocks are resampled: nothing below ten blocks, then one window per five blocks. */
  lemma WindowsPerBlock(k: nat)
    ensures WindowCount(k * MODEL_RATE.Hop()) == if k < 10 then 0 else (k - 10) / 5 + 1
  {
  }

  class ChannelState {
    const h: Filter
    const settings: Settings
    var identity: Option<Identity>
    var resampler: StreamingResampler
    var buffer: seq<real>
    var votes: seq<bool>
    var startTime: Option<real>
    var windowOffset: nat
    /** Every vote since the last reset. */
    ghost var cast: seq<bool>

    ghost predicate Valid()
      reads this, resampler
    {
      && settings.Valid()
      && resampler.Valid() && resampler.rate == MODEL_RATE && resampler.h == h
      && windowOffset % HOP == 0 && windowOffset <= |Resampled()|
      && (windowOffset == 0 || windowOffset + HOP <= |Resampled()|)
      && buffer == Resampled()[windowOffset..]
      && votes == Last(cast, settings.voteWindow)
      && (startTime.None? ==> resampler.fed == [])
    }

    /** The raw audio heard since the last reset. */
    ghost function Fed(): seq<real>
      reads this, resampler
    {
      resampler.fed
    }

    /** The resampled audio of this stretch, as far as it is final. */
    ghost function Resampled(): seq<real>
      reads this, resampler
      requires resampler.rate.Valid()
    {
      Finalized(resampler.h, resampler.rate, resampler.fed)
    }

    ghost predicate Forgotten()
      reads this, resampler
    {
      Fed() == [] && cast == [] && startTime.None? && windowOffset == 0 && buffer == [] && votes == []
    }

    constructor (h: Filter, settings: Settings)
      requires settings.Valid() && Supported(h, MODEL_RATE)
      ensures Valid() && fresh(resampler) && Forgotten()
      ensures identity == None && this.h == h && this.settings == settings
    {
      this.h, this.settings := h, settings;
      identity := None;
      resampler := new StreamingResampler(h, MODEL_RATE);
      buffer, votes, startTime, windowOffset, cast := [], [], None, 0, [];
    }

    method Reset()
      requires Valid()
      modifies this
      ensures Valid() && fresh(resampler) && Forgotten() && identity == old(identity)
    {
      resampler := new StreamingResampler(h, MODEL_RATE);
      buffer := [];
      votes := [];
      startTime := None;
      windowOffset := 0;
      cast := [];
    }

    method SetIdentity(id: Identity)
      requires Valid()
      modifies this
      ensures Valid() && identity == Some(id)
      ensures old(identity) == Some(id) ==>
        && resampler == old(resampler) && cast == old(cast)
        && startTime == old(startTime) && windowOffset == old(windowOffset)
      ensures old(identity) != Some(id) ==> fresh(resampler) && Forgotten()
    {
      if identity != Some(id) {
        Reset();
        identity := Some(id);
      }
    }

    /** The part of push before its loop: later start times of a stretch are ignored. */
    method Push(samples: seq<real>, start: real)
      requires Valid()
      modifies this, resampler
      ensures Valid() && resampler == old(resampler) && identity == old(identity)
      ensures Fed() == old(Fed()) + samples && old(Resampled()) <= Resampled()
      ensures startTime == if old(startTime).None? then Some(start) else old(startTime)
      ensures cast == old(cast) && windowOffset == old(windowOffset)
    {
      if startTime.None? {
        startTime := Some(start);
      }
      var more := resampler.Push(samples);
      buffer := buffer + more;
    }

    /** One resumption of the generator: the next complete window, or None when it is exhausted. */
    method NextWindow() returns (window: Option<Window>)
      requires Valid() && startTime.Some?
      modifies this
      ensures Valid() && resampler == old(resampler) && identity == old(identity)
      ensures startTime == old(startTime) && cast == old(cast) && Resampled() == old(Resampled())
      ensures window.None? <==> |Resampled()| - old(windowOffset) < WINDOW
      ensures window.None? ==> windowOffset == old(windowOffset) && |buffer| < WINDOW
      ensures window.Some? ==>
        && windowOffset == old(windowOffset) + HOP
        && HOP * (old(windowOffset) / HOP) + WINDOW <= |Resampled()|
        && window.value == WindowAt(Resampled(), startTime.value, old(windowOffset) / HOP)
    {
      if |buffer| < WINDOW {
        return None;
      }
      var waveform := buffer[..WINDOW];
      var endTime := startTime.value + (windowOffset + WINDOW) as real / SAMPLES_PER_SECOND;
      buffer := buffer[HOP..];
      windowOffset := windowOffset + HOP;
      return Some(Window(waveform, endTime));
    }

    /** Records one answer; None stands for the ValueError on an invalid probability. */
    method Vote(probability: Probability) returns (decision: Option<bool>)
      requires Valid()
      modifies this
      ensures Valid() && resampler == old(resampler) && identity == old(identity)
      ensures startTime == old(startTime) && windowOffset == old(windowOffset)
      ensures decision.Some? <==> probability.Finite? && 0.0 <= probability.p <= 1.0
      ensures decision.None? ==> cast == old(cast)
      ensures decision.Some? ==>
        && cast == old(cast) + [probability.p >= settings.threshold]
        && decision.value == (CountTrue(Last(cast, settings.voteWindow)) >= settings.votesRequired)
    {
      if probability.NonFinite? || !(0.0 <= probability.p <= 1.0) {
        return None;
      }
      var positive := probability.p >= settings.threshold;
      LastSnoc(cast, settings.voteWindow, positive);
      cast := cast + [positive];
      votes := votes + [positive];
      if |votes| > settings.voteWindow {
        votes := votes[1..];
      }
      return Some(CountTrue(votes) >= settings.votesRequired);
    }

    /** So many windows of this audio were taken, from number first on. */
    ghost predicate Taken(audio: seq<real>, fed: seq<real>, start: real, first: nat, windows: seq<Window>)
      reads this, resampler
    {
      && Valid() && Resampled() == audio && Fed() == fed && startTime == Some(start)
      && windowOffset == HOP * (first + |windows|) && WindowsFrom(windows, audio, start, first)
    }

    /** Takes one more window, if there is one. */
    method TakeNext(ghost audio: seq<real>, ghost fed: seq<real>, ghost start: real, ghost first: nat,
                    ghost windows: seq<Window>)
      returns (next: Option<Window>)
      requires Taken(audio, fed, start, first, windows)
      modifies this
      ensures resampler == old(resampler) && identity == old(identity)
      ensures next.None? ==> Taken(audio, fed, start, first, windows) && |audio| - windowOffset < WINDOW
      ensures next.Some? ==>
        && Taken(audio, fed, start, first, windows + [next.value])
        && old(windowOffset) < windowOffset && old(windowOffset) <= |audio|
    {
      next := NextWindow();
      hide Finalized;
      ghost var w := first + |windows|;
      assert old(windowOffset) / HOP == w;
    }

    /** push run to exhaustion: every window that became complete. */
    method PushAll(samples: seq<real>, start: real) returns (windows: seq<Window>)
      requires Valid()
      modifies this, resampler
      ensures Valid() && resampler == old(resampler) && identity == old(identity)
      ensures Fed() == old(Fed()) + samples && old(Resampled()) <= Resampled()
      ensures startTime == if old(startTime).None? then Some(start) else old(startTime)
      ensures windowOffset == old(windowOffset) + HOP * |windows|
      ensures |Resampled()| - windowOffset < WINDOW
      ensures WindowsFrom(windows, Resampled(), startTime.value, old(windowOffset) / HOP)
    {
      Push(samples, start);
      windows := [];
      ghost var s, first, audio, fed := startTime.value, windowOffset / HOP, Resampled(), Fed();
      var exhausted := false;
      while !exhausted
        invariant resampler == old(resampler) && identity == old(identity)
        invariant Taken(audio, fed, s, first, windows)
        invariant exhausted ==> |audio| - windowOffset < WINDOW
        decreases !exhausted, |audio| - windowOffset
      {
        hide Taken, Valid, Fed, Resampled, WindowsFrom;
        var next := TakeNext(audio, fed, s, first, windows);
        if next.None? {
          exhausted := true;
        } else {
          windows := windows + [next.value];
        }
      }
    }
  }

  /** windows are the consecutive windows of audio from number first on. */
  ghost predicate WindowsFrom(windows: seq<Window>, audio: seq<real>, start: real, first: nat) {
    forall i :: 0 <= i < |windows| ==>
      HOP * (first + i) + WINDOW <= |audio| && windows[i] == WindowAt(audio, start, first + i)
  }

  lemma NoWindows(audio: seq<real>, start: real, first: nat)
    ensures WindowsFrom([], audio, start, first)
  {
  }

  lemma WindowsExtend(early: seq<Window>, late: seq<Window>, heard: seq<real>, audio: seq<real>, start: real)
    requires heard <= audio && WindowsFrom(early, heard, start, 0) && WindowsFrom(late, audio, start, |early|)
    ensures WindowsFrom(early + late, audio, start, 0)
  {
    forall i | 0 <= i < |early + late|
      ensures HOP * i + WINDOW <= |audio|
      ensures (early + late)[i] == WindowAt(audio, start, i)
    {
      if i < |early| {
        assert (early + late)[i] == early[i];
        assert heard[HOP * i..HOP * i + WINDOW] == audio[HOP * i..HOP * i + WINDOW];
      } else {
        assert (early + late)[i] == late[i - |early|];
      }
    }
  }

  /**
    The windows of a recording do not depend on how it is cut into chunks: window w is samples
    8000w to 8000w + 16000 of one continuous conversion, and every window that fits is yielded.
   */
  method WindowsOfChunks(h: Filter, settings: Settings, chunks: seq<seq<real>>, starts: seq<real>)
    returns (windows: seq<Window>)
    requires settings.Valid() && Supported(h, MODEL_RATE) && |starts| == |chunks|
    ensures var k := MODEL_RATE.Blocks(|Flatten(chunks)|);
      |windows| == if k < 10 then 0 else (k - 10) / 5 + 1
    ensures windows != [] ==>
      WindowsFrom(windows, ResamplePoly(h, MODEL_RATE, Flatten(chunks)), starts[0], 0)
  {
    hide WindowsFrom, WindowAt;
    var state := new ChannelState(h, settings);
    windows := [];
    for i := 0 to |chunks|
      invariant fresh(state) && fresh(state.resampler) && state.Valid() && state.h == h
      invariant state.Fed() == Flatten(chunks[..i])
      invariant state.startTime == if i == 0 then None else Some(starts[0])
      invariant HOP * |windows| == state.windowOffset
      invariant |state.Resampled()| - state.windowOffset < WINDOW
      invariant i > 0 ==> WindowsFrom(windows, state.Resampled(), starts[0], 0)
      invariant i == 0 ==> windows == []
    {
      ghost var heard := state.Resampled();
      assert chunks[..i + 1] == chunks[..i] + [chunks[i]];
      FlattenSnoc(chunks[..i], chunks[i]);
      var more := state.PushAll(chunks[i], starts[i]);
      NoWindows(heard, starts[0], 0);
      WindowsExtend(windows, more, heard, state.Resampled(), starts[0]);
      windows := windows + more;
    }
    assert chunks[..|chunks|] == chunks;
    var x := Flatten(chunks);
    BlocksBound(MODEL_RATE, |x|);
    FinalBlocksArePrefix(h, MODEL_RATE, x, MODEL_RATE.Blocks(|x|));
    WindowsTaken(|state.Resampled()|, state.windowOffset);
    WindowsPerBlock(MODEL_RATE.Blocks(|x|));
    if windows != [] {
      NoWindows(ResamplePoly(h, MODEL_RATE, x), starts[0], |windows|);
      WindowsExtend(windows, [], state.Resampled(), ResamplePoly(h, MODEL_RATE, x), starts[0]);
      assert windows + [] == windows;
    }
  }
}
