/**
  The classifier node: track messages set the identity of every channel, audio callbacks feed the
  channels, and complete windows are classified, voted on and published.
 */
module Classifier {
  import opened Prelude
  import opened Resampling
  import opened ChannelState
  import opened BearingGate
  import opened Hearing

  /** What one channel may hold after audio callback number n. */
  ghost predicate ChannelOk(s: Setup, ch: ChannelState, stretch: seq<Heard>, n: nat, last: Option<real>)
    reads ch, ch.resampler
  {
    ChannelTook(s, ch, stretch, n, last, |ch.cast|)
  }

  /** The same with the given number of windows taken, all but perhaps the last of them voted on. */
  ghost predicate ChannelTook(s: Setup, ch: ChannelState, stretch: seq<Heard>, n: nat, last: Option<real>, taken: nat)
    reads ch, ch.resampler
  {
    && ch.Valid() && ch.settings == s.args.settings && ch.h == s.h
    && Isolated(s.args, stretch) && ch.Fed() == Samples(stretch)
    && HOP * taken == ch.windowOffset && |ch.cast| <= taken <= |ch.cast| + 1
    && ch.cast == Verdicts(s.engine, s.args.settings.threshold, ch.Resampled(), |ch.cast|)
    && (stretch == [] ==> ch.Forgotten())
    && (stretch != [] ==>
          && stretch[|stretch| - 1].callback == n
          && last == Some(stretch[|stretch| - 1].stamp)
          && ch.identity == Some(stretch[0].identity)
          && ch.startTime == Some(Start(stretch)))
  }

  lemma OkIsolated(s: Setup, ch: ChannelState, stretch: seq<Heard>, n: nat, last: Option<real>)
    requires ChannelOk(s, ch, stretch, n, last)
    ensures ch.Valid() && Isolated(s.args, stretch)
    ensures stretch == [] ==> ch.cast == []
    ensures stretch != [] ==> ch.identity == Some(stretch[0].identity) && last == Some(stretch[|stretch| - 1].stamp)
  {
  }

  class Classifier {
    const setup: Setup
    const channels: seq<ChannelState>
    var latestSst: Option<Sst>
    var lastAudioStamp: Option<real>
    var audioSeen: nat
    var windowsDone: nat
    var droppedAudio: nat
    /** An engine answer was no probability: the exception ended the node. */
    var crashed: bool
    ghost var stretches: seq<seq<Heard>>
    /** The objects of the channels. */
    ghost var repr: set<object>
    ghost var published: seq<Published>
    /** What the clock said, every time it was read. */
    ghost var readings: seq<real>

    ghost function Ledger(): Books
      reads this, setup.gate
    {
      Books(setup.gate.State(), published, windowsDone, droppedAudio, readings)
    }

    ghost predicate Wired()
      reads this, repr
    {
      && |channels| == setup.args.channels == |stretches| && this !in repr && setup.gate !in repr
      && (forall c :: 0 <= c < |channels| ==> channels[c] in repr && channels[c].resampler in repr)
      && (forall i, j :: 0 <= i < j < |channels| ==>
            channels[i] != channels[j] && channels[i].resampler != channels[j].resampler)
    }

    ghost predicate Valid()
      reads this, repr
    {
      && Wired()
      && (forall c :: 0 <= c < |channels| ==> ChannelOk(setup, channels[c], stretches[c], audioSeen, lastAudioStamp))
      && AllJustified(setup, published)
    }

    constructor (setup: Setup)
      requires setup.args.settings.Valid() && Supported(setup.h, MODEL_RATE)
      ensures this.setup == setup && Valid() && fresh(repr) && !crashed && audioSeen == 0
      ensures latestSst == None && lastAudioStamp == None && stretches == seq(setup.args.channels, _ => [])
      ensures forall c :: 0 <= c < |channels| ==> channels[c].identity == None
      ensures Ledger() == Books(setup.gate.State(), [], 0, 0, [])
    {
      this.setup := setup;
      latestSst, lastAudioStamp := None, None;
      audioSeen, windowsDone, droppedAudio, crashed := 0, 0, 0, false;
      stretches, published, readings := seq(setup.args.channels, _ => []), [], [];
      hide ChannelOk;
      var all;
      ghost var objects;
      all, objects := NewChannels(setup);
      channels, repr := all, objects;
    }

    static method NewChannels(s: Setup) returns (all: seq<ChannelState>, ghost objects: set<object>)
      requires s.args.settings.Valid() && Supported(s.h, MODEL_RATE)
      ensures |all| == s.args.channels && fresh(objects)
      ensures forall c :: 0 <= c < |all| ==>
        && all[c] in objects && all[c].resampler in objects
        && all[c].identity == None && ChannelOk(s, all[c], [], 0, None)
      ensures forall i, j :: 0 <= i < j < |all| ==> all[i] != all[j] && all[i].resampler != all[j].resampler
    {
      hide ChannelOk;
      all, objects := [], {};
      while |all| < s.args.channels
        invariant |all| <= s.args.channels && fresh(objects)
        invariant forall c :: 0 <= c < |all| ==>
          && all[c] in objects && all[c].resampler in objects
          && all[c].identity == None && ChannelOk(s, all[c], [], 0, None)
        invariant forall i, j :: 0 <= i < j < |all| ==> all[i] != all[j] && all[i].resampler != all[j].resampler
      {
        var state := NewChannel(s);
        all := all + [state];
        objects := objects + {state, state.resampler};
      }
    }

    static method NewChannel(s: Setup) returns (state: ChannelState)
      requires s.args.settings.Valid() && Supported(s.h, MODEL_RATE)
      ensures fresh(state) && fresh(state.resampler)
      ensures state.identity == None && ChannelOk(s, state, [], 0, None)
    {
      state := new ChannelState(s.h, s.args.settings);
    }

    /** A reading of the clock; nothing is assumed about it. */
    method Now() returns (t: real)
      modifies this`readings
      ensures readings == old(readings) + [t]
    {
      t := *;
      readings := readings + [t];
    }

    /** The channel hears under this identity from now on; a change of identity ends its stretch. */
    method IdentifyChannel(state: ChannelState, identity: Identity, ghost stretch: seq<Heard>,
                           ghost n: nat, ghost last: Option<real>)
      returns (ghost stretch': seq<Heard>)
      requires ChannelOk(setup, state, stretch, n, last)
      modifies state
      ensures state.resampler == old(state.resampler) || fresh(state.resampler)
      ensures state.identity == Some(identity)
      ensures stretch' == Kept(old(state.identity), identity, stretch) && stretch' in {[], stretch}
      ensures state.cast == if stretch' == [] then [] else old(state.cast)
      ensures ChannelOk(setup, state, stretch', n, last)
    {
      stretch' := if state.identity == Some(identity) then stretch else [];
      state.SetIdentity(identity);
    }

    /** The channel forgets its stretch. */
    method ResetChannel(state: ChannelState)
      requires state.Valid() && state.settings == setup.args.settings && state.h == setup.h
      modifies state
      ensures state.Valid() && fresh(state.resampler) && state.identity == old(state.identity)
      ensures forall n, last :: ChannelOk(setup, state, [], n, last)
    {
      state.Reset();
    }

    /** The channel hears one more callback of its stretch. */
    method Hear(state: ChannelState, stamp: real, samples: seq<real>, current: bool, ghost stretch: seq<Heard>,
                ghost n: nat, ghost last: Option<real>)
      returns (ghost stretch': seq<Heard>)
      requires ChannelOk(setup, state, stretch, n, last) && state.identity.Some?
      requires samples != [] && (current || setup.args.alwaysClassify)
      requires last.Some? && stretch != [] ==> Contiguous(setup.args, stamp - last.value, Seconds(|samples|))
      modifies state, state.resampler
      ensures state.resampler == old(state.resampler) && state.identity == old(state.identity)
      ensures state.cast == old(state.cast)
      ensures stretch' == stretch + [Heard(n + 1, stamp, samples, state.identity.value, current)]
      ensures ChannelOk(setup, state, stretch', n + 1, Some(stamp))
    {
      ghost var e, heard := Heard(n + 1, stamp, samples, state.identity.value, current), state.Resampled();
      IsolatedSnoc(setup.args, stretch, e);
      SamplesSnoc(stretch, e);
      state.Push(samples, stamp - Seconds(|samples|));
      VerdictsExtend(setup.engine, setup.args.settings.threshold, heard, state.Resampled(), |state.cast|);
      stretch' := stretch + [e];
    }

    /** The loop body of _audio_cb for one channel; now is the reading at the start of the callback. */
    method ClassifyChannel(state: ChannelState, c: nat, samples: seq<real>, stamp: real, now: real,
                           ghost stretch: seq<Heard>, ghost last: Option<real>)
      returns (failed: bool, ghost v: Visit)
      requires samples != [] && audioSeen >= 1 && AllJustified(setup, published)
      requires ChannelOk(setup, state, stretch, audioSeen - 1, last)
      requires last.Some? && stretch != [] ==> Contiguous(setup.args, stamp - last.value, Seconds(|samples|))
      modifies this`windowsDone, this`droppedAudio, this`published, this`readings, setup.gate, state, state.resampler
      ensures state.resampler == old(state.resampler) || fresh(state.resampler)
      ensures v.Votes() >= 0
      ensures Visited(setup, latestSst, c, old(Was(state.identity, stretch, |state.cast|)), audioSeen, stamp, samples, now, v)
      ensures Ledger() == Entered(setup, latestSst, c, v, old(Ledger()))
      ensures failed <==> v.ending.NoProbability?
      ensures !failed ==> ChannelOk(setup, state, v.Left(), audioSeen, Some(stamp))
      ensures AllJustified(setup, published)
    {
      hide *;
      LedgerIs();
      ghost var was := Was(state.identity, stretch, |state.cast|);
      var identity := IdentityOf(setup.args, latestSst, c);
      ghost var kept := IdentifyChannel(state, identity, stretch, audioSeen - 1, last);
      var current := Fresh(setup.args, latestSst, c, stamp, now);
      if !current && !setup.args.alwaysClassify {
        OkIsMine(state, kept, audioSeen - 1, last);
        ResetChannel(state);
        IdleVisit(setup, latestSst, c, was, audioSeen, stamp, samples, now, Ledger());
        return false, IDLE;
      }
      OkIsolated(setup, state, kept, audioSeen - 1, last);
      kept := Hear(state, stamp, samples, current, kept, audioSeen - 1, last);
      OkIsolated(setup, state, kept, audioSeen, Some(stamp));
      failed, v := ClassifyWindows(state, c, stamp, identity, kept);
      HeardVisit(setup, latestSst, c, was, audioSeen, stamp, samples, now, v);
      EntryJustified(setup, latestSst, c, v, old(Ledger()));
      LedgerIs();
    }

    lemma LedgerIs()
      ensures Ledger() == Books(setup.gate.State(), published, windowsDone, droppedAudio, readings)
    {
    }

    lemma OkIsMine(state: ChannelState, stretch: seq<Heard>, n: nat, last: Option<real>)
      requires ChannelOk(setup, state, stretch, n, last)
      ensures state.Valid() && state.settings == setup.args.settings && state.h == setup.h
    {
    }

    /** The next complete window of the stretch, if there is one. */
    method TakeWindow(state: ChannelState, ghost x: Scene, ghost n: nat, ghost last: Option<real>)
      returns (next: Option<Window>)
      requires x.stretch != [] && ChannelOk(setup, state, x.stretch, n, last)
      modifies state
      ensures state.Valid() && state.settings == setup.args.settings && state.h == setup.h
      ensures state.resampler == old(state.resampler) && state.Resampled() == old(state.Resampled())
      ensures state.cast == old(state.cast)
      ensures next.Some? <==> HasWindow(setup, x, |state.cast|)
      ensures next.None? ==> ChannelOk(setup, state, x.stretch, n, last)
      ensures next.Some? ==>
        && ChannelTook(setup, state, x.stretch, n, last, |state.cast| + 1)
        && next.value == WindowOf(setup, x, |state.cast|)
        && state.windowOffset == old(state.windowOffset) + HOP
    {
      next := state.NextWindow();
    }

    /** So many windows were taken, and all were put to the vote. */
    ghost predicate Turning(state: ChannelState, x: Scene, stamp: real, first: nat, clocks: seq<seq<real>>, before: Books)
      reads this, setup.gate, state, state.resampler
    {
      && x.sst == latestSst && x.stretch != []
      && ChannelOk(setup, state, x.stretch, audioSeen, Some(stamp)) && |state.cast| == first + |clocks|
      && AllVoted(setup, x, first, clocks)
      && Ledger() == Entered(setup, x.sst, x.channel, Visit(x.stretch, first, clocks, Exhausted), before)
    }

    /** The visit is over, for the reason given. */
    ghost predicate Over(state: ChannelState, x: Scene, stamp: real, v: Visit, before: Books)
      reads this, setup.gate, state, state.resampler
    {
      && Complete(setup, x.sst, x.channel, v) && Ledger() == Entered(setup, x.sst, x.channel, v, before)
      && (!v.ending.NoProbability? ==> ChannelOk(setup, state, v.Left(), audioSeen, Some(stamp)))
    }

    /** Takes one more window, if there is one. */
    method Turn(state: ChannelState, c: nat, stamp: real, identity: Identity,
                ghost x: Scene, ghost first: nat, ghost clocks: seq<seq<real>>, ghost before: Books)
      returns (ending: Ending, done: bool, ghost clocks': seq<seq<real>>)
      requires Turning(state, x, stamp, first, clocks, before)
      requires x.channel == c && x.stretch[0].identity == identity && x.stretch[|x.stretch| - 1].stamp == stamp
      modifies this`windowsDone, this`droppedAudio, this`published, this`readings, setup.gate, state
      ensures state.resampler == old(state.resampler) || fresh(state.resampler)
      ensures done ==> Over(state, x, stamp, Visit(x.stretch, first, clocks', ending), before)
      ensures !done ==>
        && ending == Exhausted && state.resampler.rate.Valid() && Turning(state, x, stamp, first, clocks', before)
        && state.resampler == old(state.resampler) && state.Resampled() == old(state.Resampled())
        && old(state.windowOffset) < state.windowOffset && old(state.windowOffset) <= |state.Resampled()|
    {
      hide ChannelOk, ChannelTook, Voted, AllVoted, Complete, Entered, Turned, Release, Fresh, IdentityOf, HasWindow,
        Ledger;
      OffsetInStream(state, x.stretch, audioSeen, Some(stamp));
      var next := TakeWindow(state, x, audioSeen, Some(stamp));
      if next.None? {
        CompleteVisit(setup, x, first, clocks, [], Exhausted);
        assert clocks + [] == clocks;
        return Exhausted, true, clocks;
      }
      ghost var clock;
      ending, clock := ClassifyNext(state, c, stamp, identity, next.value, x);
      clocks' := clocks + [clock];
      EnterMore(setup, x, first, clocks, clock, ending, before);
      done := !ending.Exhausted?;
      if done {
        CompleteVisit(setup, x, first, clocks, [clock], ending);
      } else {
        AllVotedMore(setup, x, first, clocks, clock);
      }
    }

    lemma OffsetInStream(state: ChannelState, stretch: seq<Heard>, n: nat, last: Option<real>)
      requires ChannelOk(setup, state, stretch, n, last)
      ensures state.resampler.rate.Valid() && state.windowOffset <= |state.Resampled()|
    {
    }

    lemma StartTurning(state: ChannelState, x: Scene, stamp: real)
      requires x.sst == latestSst && x.stretch != [] && ChannelOk(setup, state, x.stretch, audioSeen, Some(stamp))
      ensures state.resampler.rate.Valid() && Turning(state, x, stamp, |state.cast|, [], Ledger())
    {
      OffsetInStream(state, x.stretch, audioSeen, Some(stamp));
      hide ChannelOk, Entered, AllVoted;
      NothingEntered(setup, x, |state.cast|, Ledger());
      NoneVoted(setup, x, |state.cast|);
    }

    lemma OverIs(state: ChannelState, x: Scene, stamp: real, v: Visit, before: Books)
      requires Over(state, x, stamp, v, before)
      ensures Complete(setup, x.sst, x.channel, v) && Ledger() == Entered(setup, x.sst, x.channel, v, before)
      ensures v.Votes() >= 0
      ensures !v.ending.NoProbability? ==> ChannelOk(setup, state, v.Left(), audioSeen, Some(stamp))
    {
      hide ChannelOk, Entered, Voted, Ended, Ledger;
    }

    /** Takes the windows that became complete: all of them, or until one ends the visit. */
    method ClassifyWindows(state: ChannelState, c: nat, stamp: real, identity: Identity, ghost stretch: seq<Heard>)
      returns (failed: bool, ghost v: Visit)
      requires stretch != [] && stretch[0].identity == identity && stretch[|stretch| - 1].stamp == stamp
      requires ChannelOk(setup, state, stretch, audioSeen, Some(stamp))
      modifies this`windowsDone, this`droppedAudio, this`published, this`readings, setup.gate, state
      ensures state.resampler == old(state.resampler) || fresh(state.resampler)
      ensures v.stretch == stretch && v.first == |old(state.cast)| && Complete(setup, latestSst, c, v)
      ensures v.Votes() >= 0 && Ledger() == Entered(setup, latestSst, c, v, old(Ledger()))
      ensures failed <==> v.ending.NoProbability?
      ensures !failed ==> ChannelOk(setup, state, v.Left(), audioSeen, Some(stamp))
    {
      hide *;
      ghost var x, first, clocks, before := Scene(latestSst, c, stretch), |state.cast|, [], Ledger();
      StartTurning(state, x, stamp);
      var ending, done := Exhausted, false;
      while !done
        invariant !done ==> Turning(state, x, stamp, first, clocks, before) && state.resampler == old(state.resampler)
        invariant done ==> Over(state, x, stamp, Visit(stretch, first, clocks, ending), before)
        invariant state.resampler == old(state.resampler) || fresh(state.resampler)
        invariant !done ==> state.resampler.rate.Valid()
        decreases !done, if done then 0 else |state.Resampled()| - state.windowOffset
      {
        ending, done, clocks := Turn(state, c, stamp, identity, x, first, clocks, before);
      }
      v := Visit(stretch, first, clocks, ending);
      OverIs(state, x, stamp, v, before);
      failed := ending.NoProbability?;
    }

    /** Takes one window: it is too old, or from the future, or it is put to the vote. */
    method ClassifyNext(state: ChannelState, c: nat, stamp: real, identity: Identity, window: Window, ghost x: Scene)
      returns (ending: Ending, ghost clock: seq<real>)
      requires x.sst == latestSst && x.channel == c && x.stretch != []
      requires x.stretch[0].identity == identity && x.stretch[|x.stretch| - 1].stamp == stamp
      requires ChannelTook(setup, state, x.stretch, audioSeen, Some(stamp), |state.cast| + 1)
      requires state.Valid() && state.settings == setup.args.settings && state.h == setup.h
      requires HasWindow(setup, x, |state.cast|) && window == WindowOf(setup, x, |state.cast|)
      modifies this`windowsDone, this`droppedAudio, this`published, this`readings, setup.gate, state
      ensures state.Valid()
      ensures Ledger() == Turned(setup, x, |old(state.cast)|, clock, ending, old(Ledger()))
      ensures ending.Exhausted? ==>
        && state.resampler == old(state.resampler) && state.Resampled() == old(state.Resampled())
        && state.windowOffset == old(state.windowOffset)
        && ChannelOk(setup, state, x.stretch, audioSeen, Some(stamp)) && |state.cast| == |old(state.cast)| + 1
        && Voted(setup, x, |old(state.cast)|, clock)
      ensures !ending.Exhausted? ==> Ended(setup, x, |old(state.cast)|, clock, ending)
      ensures ending.Late? ==> fresh(state.resampler) && ChannelOk(setup, state, [], audioSeen, Some(stamp))
      ensures ending.NoProbability? ==> state.resampler == old(state.resampler)
    {
      hide ChannelOk, ChannelTook, Voted, Release, HasWindow, Answered;
      var t := Now();
      if !(-0.1 <= t - window.endTime <= setup.args.maxAudioAge) {
        NoVoteNoRelease(setup, x, |state.cast|, [t], setup.gate.State());
        assert published + [] == published;
        droppedAudio := droppedAudio + 1;
        ResetChannel(state);
        return Late, [t];
      }
      var failed;
      failed, clock := ClassifyWindow(state, c, stamp, identity, window, x, t);
      ending := if failed then NoProbability else Exhausted;
    }

    /**
      Votes on one window.  The track's direction is published exactly if the votes suffice, nothing
      has changed or grown old by the clock, the track has a direction, and the setup.gate lets it through.
     */
    method ClassifyWindow(state: ChannelState, c: nat, stamp: real, identity: Identity, window: Window,
                          ghost x: Scene, ghost t: real)
      returns (failed: bool, ghost clock: seq<real>)
      requires x.sst == latestSst && x.channel == c && x.stretch != []
      requires x.stretch[0].identity == identity && x.stretch[|x.stretch| - 1].stamp == stamp
      requires ChannelTook(setup, state, x.stretch, audioSeen, Some(stamp), |state.cast| + 1)
      requires HasWindow(setup, x, |state.cast|) && window == WindowOf(setup, x, |state.cast|)
      requires Timely(setup, x, |state.cast|, t)
      modifies this`windowsDone, this`published, this`readings, setup.gate, state
      ensures state.Valid() && state.Resampled() == old(state.Resampled())
      ensures state.resampler == old(state.resampler) && state.windowOffset == old(state.windowOffset)
      ensures clock != [] && clock[0] == t && readings == old(readings) + clock[1..]
      ensures failed <==> !Answered(setup, x, |old(state.cast)|)
      ensures failed ==> clock == [t] && windowsDone == old(windowsDone)
      ensures !failed ==>
        && ChannelOk(setup, state, x.stretch, audioSeen, Some(stamp)) && |state.cast| == |old(state.cast)| + 1
        && Voted(setup, x, |old(state.cast)|, clock) && windowsDone == old(windowsDone) + 1
      ensures var r := Release(setup, x, |old(state.cast)|, clock, old(setup.gate.State()));
        setup.gate.State() == r.gate && published == old(published) + r.out
    {
      hide ChannelOk, ChannelTook, Fresh, Offer, Direction, IdentityOf, Answered;
      ghost var w := |state.cast|;
      failed, clock := false, [t];
      var decision := VoteOn(state, window, x, stamp);
      if decision.None? {
        return true, [t];
      }
      if !decision.value || identity != IdentityOf(setup.args, latestSst, c) {
        return;
      }
      var unit;
      ghost var checks;
      unit, checks := Approve(c, stamp, window.endTime);
      clock := [t] + checks;
      if unit.Some? {
        ghost var p := Published(c, unit.value, latestSst.value.frame, window.endTime, x.stretch, w, latestSst, clock[1]);
        published := published + [p];
      }
    }

    /** Counts one more answer; None stands for the exception on an answer that is no probability. */
    method VoteOn(state: ChannelState, window: Window, ghost x: Scene, ghost stamp: real) returns (decision: Option<bool>)
      requires x.stretch != []
      requires ChannelTook(setup, state, x.stretch, audioSeen, Some(stamp), |state.cast| + 1)
      requires HasWindow(setup, x, |state.cast|) && window == WindowOf(setup, x, |state.cast|)
      modifies this`windowsDone, state
      ensures state.Valid() && state.Resampled() == old(state.Resampled())
      ensures state.resampler == old(state.resampler) && state.windowOffset == old(state.windowOffset)
      ensures decision.Some? <==> Answered(setup, x, |old(state.cast)|)
      ensures decision.None? ==> state.cast == old(state.cast) && windowsDone == old(windowsDone)
      ensures decision.Some? ==>
        && ChannelOk(setup, state, x.stretch, audioSeen, Some(stamp)) && |state.cast| == |old(state.cast)| + 1
        && windowsDone == old(windowsDone) + 1
        && decision.value == Agreed(setup, x, |old(state.cast)|)
    {
      ghost var w := |state.cast|;
      assert state.Resampled() == Material(setup, x);
      decision := state.Vote(setup.engine(window.waveform));
      if decision.Some? {
        assert state.cast == Verdicts(setup.engine, setup.args.settings.threshold, state.Resampled(), w + 1);
        windowsDone := windowsDone + 1;
      }
    }

    /** The checks after a positive decision, and the unit direction if the setup.gate lets it through. */
    method Approve(c: nat, stamp: real, windowEnd: real) returns (unit: Option<Vec>, ghost clock: seq<real>)
      modifies this`readings, setup.gate
      ensures readings == old(readings) + clock
      ensures Checked(setup, latestSst, c, stamp, windowEnd, true, clock)
      ensures |clock| < 3 ==> unit == None && setup.gate.State() == old(setup.gate.State())
      ensures |clock| == 3 ==>
        && latestSst.Some? && Directed(setup, latestSst, c)
        && var o := Offer(setup, latestSst, c, old(setup.gate.State()), clock[2]);
           && setup.gate.State() == o.gate
           && unit == if o.publish then Some(Direction(setup, latestSst, c)) else None
    {
      hide Fresh, Scale, Decide, Normalize;
      unit, clock := None, [];
      var now := Now();
      clock := [now];
      if !Fresh(setup.args, latestSst, c, stamp, now) {
        return;
      }
      now := Now();
      clock := clock + [now];
      if now - windowEnd > setup.args.maxAudioAge {
        return;
      }
      FreshSource(stamp, c, clock[0]);
      var direction := SourceOf(latestSst, c).value.direction;
      if direction.None? || setup.norm(direction.value) < 0.000001 {
        return;
      }
      var scaled := Scale(1.0 / setup.norm(direction.value), direction.value);
      now := Now();
      clock := clock + [now];
      var publish, retargeted := setup.gate.Accept(Some(scaled), now);
      if publish {
        unit := Some(scaled);
      }
    }

    lemma FreshSource(stamp: real, c: nat, t: real)
      requires Fresh(setup.args, latestSst, c, stamp, t)
      ensures latestSst.Some? && SourceOf(latestSst, c).Some?
    {
    }

    /** Every channel forgets its audio and votes; identities stay. */
    method ResetAudio(ghost n: nat)
      requires Wired()
      requires forall c :: 0 <= c < |channels| ==> ChannelOk(setup, channels[c], stretches[c], n, lastAudioStamp)
      modifies this`repr, this`stretches, this`lastAudioStamp, repr
      ensures Wired() && fresh(repr - old(repr)) && lastAudioStamp == None && stretches == seq(|channels|, _ => [])
      ensures Before() == Forgetful(old(Before()))
      ensures forall c :: 0 <= c < |channels| ==> forall m :: ChannelOk(setup, channels[c], [], m, None)
    {
      hide ChannelOk, AllJustified;
      ghost var was := Before();
      for c := 0 to |channels|
        modifies this`repr, repr
        invariant Wired() && fresh(repr - old(repr)) && old(repr) <= repr
        invariant forall j :: 0 <= j < c ==>
          && (forall m :: ChannelOk(setup, channels[j], [], m, None))
          && channels[j].identity == was[j].identity && channels[j].cast == []
        invariant forall j :: c <= j < |channels| ==>
          && ChannelOk(setup, channels[j], old(stretches)[j], n, old(lastAudioStamp))
          && channels[j].identity == was[j].identity
      {
        OkIsMine(channels[c], old(stretches)[c], n, old(lastAudioStamp));
        ResetChannel(channels[c]);
        OkIsolated(setup, channels[c], [], n, None);
        repr := repr + {channels[c].resampler};
      }
      stretches := seq(|channels|, _ => []);
      lastAudioStamp := None;
    }

    ghost function Before(): (was: seq<Was>)
      requires Wired()
      reads this, repr
      ensures |was| == |channels|
      ensures forall c :: 0 <= c < |was| ==> was[c] == Was(channels[c].identity, stretches[c], |channels[c].cast|)
    {
      seq(|channels|, c requires Wired() && 0 <= c < |channels| reads this, repr =>
        Was(channels[c].identity, stretches[c], |channels[c].cast|))
    }

    /** The first c channels have taken their new identity, the others are as they were. */
    ghost predicate Identified(was: seq<Was>, c: nat)
      reads this, repr
    {
      && Wired() && |was| == |channels|
      && (forall j :: 0 <= j < |channels| ==> ChannelOk(setup, channels[j], stretches[j], audioSeen, lastAudioStamp))
      && (forall j :: 0 <= j < |channels| ==>
            if j < c then
              && channels[j].identity == Some(IdentityOf(setup.args, latestSst, j))
              && stretches[j] == Kept(was[j].identity, IdentityOf(setup.args, latestSst, j), was[j].stretch)
            else
              channels[j].identity == was[j].identity && stretches[j] == was[j].stretch)
    }

    method IdentifyNext(c: nat, ghost was: seq<Was>)
      requires Identified(was, c) && c < |channels|
      modifies this`repr, this`stretches, channels[c]
      ensures Wired() && Identified(was, c + 1) && repr == old(repr) + {channels[c].resampler}
      ensures channels[c].resampler == old(channels[c].resampler) || fresh(channels[c].resampler)
    {
      hide ChannelOk, IdentityOf, Kept;
      Apart(c);
      var identity := IdentityOf(setup.args, latestSst, c);
      ghost var stretch := IdentifyChannel(channels[c], identity, stretches[c], audioSeen, lastAudioStamp);
      stretches := stretches[c := stretch];
      repr := repr + {channels[c].resampler};
    }

    /** A track message: a channel whose identity changes forgets its stretch. */
    method SstCallback(msg: Sst)
      requires Valid() && !crashed
      modifies this`repr, this`stretches, this`latestSst, repr
      ensures Valid() && fresh(repr - old(repr)) && latestSst == Some(msg)
      ensures forall c :: 0 <= c < |channels| ==>
        && channels[c].identity == Some(IdentityOf(setup.args, latestSst, c))
        && stretches[c] == Kept(old(channels[c].identity), IdentityOf(setup.args, latestSst, c), old(stretches[c]))
    {
      hide ChannelOk, AllJustified, IdentityOf, Kept;
      ghost var was := Before();
      latestSst := Some(msg);
      IdentifyAll(was);
    }

    method IdentifyAll(ghost was: seq<Was>)
      requires Identified(was, 0)
      modifies this`repr, this`stretches, repr
      ensures Identified(was, |channels|) && fresh(repr - old(repr))
    {
      hide Identified, ChannelOk, IdentityOf, Kept;
      IdentifiedIsWired(was, 0);
      for c := 0 to |channels|
        modifies this`repr, this`stretches, repr
        invariant Wired() && Identified(was, c) && fresh(repr - old(repr)) && old(repr) <= repr
      {
        IdentifyNext(c, was);
      }
    }

    lemma IdentifiedIsWired(was: seq<Was>, c: nat)
      requires Identified(was, c)
      ensures Wired()
    {
    }

    /** The loop body for channel c, and what the node notes down about it. */
    method ClassifyColumn(c: nat, samples: seq<real>, stamp: real, now: real, ghost last: Option<real>)
      returns (ghost v: Visit)
      requires Wired() && c < |channels| && !crashed && audioSeen >= 1 && samples != []
      requires ChannelOk(setup, channels[c], stretches[c], audioSeen - 1, last) && AllJustified(setup, published)
      requires last.None? || Contiguous(setup.args, stamp - last.value, Seconds(|samples|))
      modifies this`repr, this`stretches, this`windowsDone, this`droppedAudio, this`crashed, this`published
      modifies this`readings, setup.gate, channels[c], channels[c].resampler
      ensures Wired() && repr == old(repr) + {channels[c].resampler}
      ensures channels[c].resampler == old(channels[c].resampler) || fresh(channels[c].resampler)
      ensures v.Votes() >= 0 && stretches == old(stretches)[c := v.Left()]
      ensures Visited(setup, latestSst, c, old(Before()[c]), audioSeen, stamp, samples, now, v)
      ensures Ledger() == Entered(setup, latestSst, c, v, old(Ledger()))
      ensures crashed <==> v.ending.NoProbability?
      ensures !crashed ==> ChannelOk(setup, channels[c], stretches[c], audioSeen, Some(stamp))
      ensures AllJustified(setup, published)
    {
      hide ChannelOk, AllJustified, Contiguous, Seconds, Visited, Entered;
      var failed;
      failed, v := ClassifyChannel(channels[c], c, samples, stamp, now, stretches[c], last);
      stretches := stretches[c := v.Left()];
      repr := repr + {channels[c].resampler};
      crashed := failed;
    }

    /** The loop of _audio_cb over the channels. */
    method ClassifyAll(columns: seq<seq<real>>, stamp: real, now: real, ghost last: Option<real>)
      returns (ghost visits: seq<Visit>)
      requires Wired() && !crashed && |columns| == |channels| && audioSeen >= 1 && AllJustified(setup, published)
      requires forall c :: 0 <= c < |channels| ==> ChannelOk(setup, channels[c], stretches[c], audioSeen - 1, last)
      requires forall c :: 0 <= c < |columns| ==>
        columns[c] != [] && (last.None? || Contiguous(setup.args, stamp - last.value, Seconds(|columns[c]|)))
      modifies this`repr, this`stretches, this`windowsDone, this`droppedAudio, this`crashed, this`published
      modifies this`readings, setup.gate, repr
      ensures AllVisited(setup, latestSst, old(Before()), audioSeen, stamp, columns, now, visits)
      ensures Ledger() == EnteredAll(setup, latestSst, visits, old(Ledger()))
      ensures crashed <==> Failed(visits)
      ensures !crashed ==> Wired() && fresh(repr - old(repr))
      ensures !crashed ==> forall c :: 0 <= c < |channels| ==>
        stretches[c] == visits[c].Left() && ChannelOk(setup, channels[c], stretches[c], audioSeen, Some(stamp))
      ensures AllJustified(setup, published)
    {
      hide *;
      Departed(columns, stamp, now, last);
      ghost var was, before := Before(), Ledger();
      visits := [];
      for c := 0 to |channels|
        invariant Wired() && old(repr) <= repr && !crashed && |visits| == c
        invariant forall o :: o in repr && o !in old(repr) ==> fresh(o)
        invariant Progress(was, before, columns, stamp, now, last, visits)
      {
        Apart(c);
        ghost var v := Advance(was, before, columns, stamp, now, last, c, visits);
        visits := visits + [v];
        if crashed {
          break;
        }
      }
      Arrived(was, before, columns, stamp, now, last, visits);
    }

    /** The channels visited so far, and those that are still as they were. */
    ghost predicate Progress(was: seq<Was>, before: Books, columns: seq<seq<real>>, stamp: real, now: real,
                             last: Option<real>, visits: seq<Visit>)
      reads this, repr, setup.gate
    {
      && Wired() && audioSeen >= 1 && |visits| <= |channels| == |was| == |columns| && AllJustified(setup, published)
      && (forall j :: 0 <= j < |visits| ==>
            && visits[j].Votes() >= 0 && stretches[j] == visits[j].Left()
            && Visited(setup, latestSst, j, was[j], audioSeen, stamp, columns[j], now, visits[j])
            && (visits[j].ending.NoProbability? ==> crashed && j == |visits| - 1)
            && (!crashed ==> ChannelOk(setup, channels[j], stretches[j], audioSeen, Some(stamp))))
      && (forall j :: |visits| <= j < |channels| ==>
            && ChannelOk(setup, channels[j], stretches[j], audioSeen - 1, last)
            && Was(channels[j].identity, stretches[j], |channels[j].cast|) == was[j])
      && Ledger() == EnteredAll(setup, latestSst, visits, before)
    }

    /** The loop body for channel c keeps that. */
    method Advance(ghost was: seq<Was>, ghost before: Books, columns: seq<seq<real>>, stamp: real, now: real,
                   ghost last: Option<real>, c: nat, ghost visits: seq<Visit>)
      returns (ghost v: Visit)
      requires Progress(was, before, columns, stamp, now, last, visits)
      requires !crashed && audioSeen >= 1 && c == |visits| < |channels| && columns[c] != []
      requires last.None? || Contiguous(setup.args, stamp - last.value, Seconds(|columns[c]|))
      modifies this`repr, this`stretches, this`windowsDone, this`droppedAudio, this`crashed, this`published
      modifies this`readings, setup.gate, channels[c], channels[c].resampler
      ensures Wired() && Progress(was, before, columns, stamp, now, last, visits + [v])
      ensures crashed <==> v.ending.NoProbability?
      ensures repr == old(repr) + {channels[c].resampler}
      ensures channels[c].resampler == old(channels[c].resampler) || fresh(channels[c].resampler)
    {
      hide ChannelOk, AllJustified, Contiguous, Seconds, Visited, Entered, EnteredAll;
      Apart(c);
      v := ClassifyColumn(c, columns[c], stamp, now, last);
      EnteredSnoc(setup, latestSst, visits, v, before);
    }

    lemma Arrived(was: seq<Was>, before: Books, columns: seq<seq<real>>, stamp: real, now: real,
                  last: Option<real>, visits: seq<Visit>)
      requires Progress(was, before, columns, stamp, now, last, visits)
      requires if crashed then visits != [] && visits[|visits| - 1].ending.NoProbability? else |visits| == |channels|
      ensures AllVisited(setup, latestSst, was, audioSeen, stamp, columns, now, visits) && (crashed <==> Failed(visits))
      ensures Ledger() == EnteredAll(setup, latestSst, visits, before) && AllJustified(setup, published)
      ensures !crashed ==> forall c :: 0 <= c < |channels| ==>
        stretches[c] == visits[c].Left() && ChannelOk(setup, channels[c], stretches[c], audioSeen, Some(stamp))
    {
      hide ChannelOk, AllJustified, Visited, EnteredAll;
    }

    lemma Departed(columns: seq<seq<real>>, stamp: real, now: real, last: Option<real>)
      requires Wired() && |columns| == |channels| && AllJustified(setup, published) && audioSeen >= 1
      requires forall c :: 0 <= c < |channels| ==> ChannelOk(setup, channels[c], stretches[c], audioSeen - 1, last)
      ensures Progress(Before(), Ledger(), columns, stamp, now, last, [])
      ensures this !in repr && setup.gate !in repr
    {
      hide ChannelOk, AllJustified;
      NoVisits(setup, latestSst, Ledger());
    }

    /** A channel can change without touching the others. */
    lemma Apart(c: nat)
      requires Wired() && c < |channels|
      ensures channels[c] in repr && channels[c].resampler in repr
      ensures forall j :: 0 <= j < |channels| && j != c ==>
                channels[j] != channels[c] && channels[j].resampler != channels[c].resampler
    {
    }

    /** The message continues the audio of the one before. */
    ghost predicate Continues(last: Option<real>, msg: Audio) {
      last.None? || Contiguous(setup.args, msg.stamp - last.value, Seconds(msg.frames))
    }

    /**
      An audio message.  Unless it is malformed or untimely by the clock, which makes the node forget
      everything, every channel is visited: its stretch is continued by its column, its windows are
      voted on, and the books show what was published.  An answer that is no probability ends the node.
     */
    method AudioCallback(msg: Audio) returns (ghost visits: seq<Visit>)
      requires Valid() && !crashed
      modifies this`repr, this`stretches, this`lastAudioStamp, this`audioSeen, this`windowsDone, this`droppedAudio
      modifies this`crashed, this`published, this`readings, setup.gate, repr
      ensures audioSeen == old(audioSeen) + 1 && AllJustified(setup, published)
      ensures crashed <==> Failed(visits)
      ensures !crashed ==> Valid() && fresh(repr - old(repr))
      ensures old(readings) < readings && old(published) <= published
      ensures var now, before := readings[|old(readings)|], old(Ledger());
        if WellFormed(msg, setup.args.channels) && -0.1 <= now - msg.stamp <= setup.args.maxAudioAge then
          var was := if Continues(old(lastAudioStamp), msg) then old(Before()) else Forgetful(old(Before()));
          && lastAudioStamp == Some(msg.stamp)
          && AllVisited(setup, latestSst, was, audioSeen, msg.stamp, Columns(msg, setup.args.channels), now, visits)
          && Ledger() == EnteredAll(setup, latestSst, visits, before.(readings := before.readings + [now]))
          && (!crashed ==> forall c :: 0 <= c < |channels| ==> stretches[c] == visits[c].Left())
        else
          && visits == [] && lastAudioStamp == None && stretches == seq(|channels|, _ => [])
          && Ledger() == before.(dropped := before.dropped + 1, readings := before.readings + [now])
    {
      hide ChannelOk, AllJustified, Before, EnteredAll, AllVisited, Contiguous, Seconds, Columns, WellFormed;
      var now := Begin();
      visits := [];
      if !WellFormed(msg, setup.args.channels) || !(-0.1 <= now - msg.stamp <= setup.args.maxAudioAge) {
        Drop();
        return;
      }
      Accept(msg);
      visits := Classify(msg, now, if Continues(old(lastAudioStamp), msg) then old(lastAudioStamp) else None);
    }

    /** The callback is counted and the clock is read. */
    method Begin() returns (now: real)
      requires Wired()
      modifies this`audioSeen, this`readings
      ensures audioSeen == old(audioSeen) + 1
      ensures Wired() && Before() == old(Before())
      ensures Ledger() == old(Ledger()).(readings := old(readings) + [now])
    {
      audioSeen := audioSeen + 1;
      now := Now();
    }

    /** A message that is not accepted: everything is forgotten. */
    method Drop()
      requires Wired() && audioSeen >= 1
      requires forall c :: 0 <= c < |channels| ==> ChannelOk(setup, channels[c], stretches[c], audioSeen - 1, lastAudioStamp)
      modifies this`repr, this`stretches, this`lastAudioStamp, this`droppedAudio, repr
      ensures Wired() && fresh(repr - old(repr)) && lastAudioStamp == None && stretches == seq(|channels|, _ => [])
      ensures forall c :: 0 <= c < |channels| ==> ChannelOk(setup, channels[c], stretches[c], audioSeen, None)
      ensures Ledger() == old(Ledger()).(dropped := old(droppedAudio) + 1)
    {
      hide ChannelOk;
      droppedAudio := droppedAudio + 1;
      ResetAudio(audioSeen - 1);
    }

    /** An accepted message. */
    method Classify(msg: Audio, now: real, ghost last: Option<real>) returns (ghost visits: seq<Visit>)
      requires Wired() && !crashed && audioSeen >= 1 && WellFormed(msg, setup.args.channels) && AllJustified(setup, published)
      requires lastAudioStamp == Some(msg.stamp) && Continues(last, msg)
      requires forall c :: 0 <= c < |channels| ==> ChannelOk(setup, channels[c], stretches[c], audioSeen - 1, last)
      modifies this`repr, this`stretches, this`windowsDone, this`droppedAudio
      modifies this`crashed, this`published, this`readings, setup.gate, repr
      ensures crashed <==> Failed(visits)
      ensures !crashed ==> Valid() && fresh(repr - old(repr))
      ensures AllJustified(setup, published) && old(readings) <= readings && old(published) <= published
      ensures AllVisited(setup, latestSst, old(Before()), audioSeen, msg.stamp, Columns(msg, setup.args.channels), now, visits)
      ensures Ledger() == EnteredAll(setup, latestSst, visits, old(Ledger()))
      ensures !crashed ==> forall c :: 0 <= c < |channels| ==> stretches[c] == visits[c].Left()
    {
      hide ChannelOk, AllJustified, Before, EnteredAll, Columns, Contiguous, Seconds;
      visits := ClassifyAll(Columns(msg, setup.args.channels), msg.stamp, now, last);
      EnteredGrows(setup, latestSst, visits, old(Ledger()));
    }

    /** A message that does not continue the audio of the one before makes the channels start again. */
    method Accept(msg: Audio)
      requires Wired() && audioSeen >= 1
      requires forall c :: 0 <= c < |channels| ==> ChannelOk(setup, channels[c], stretches[c], audioSeen - 1, lastAudioStamp)
      modifies this`repr, this`stretches, this`lastAudioStamp, repr
      ensures Wired() && fresh(repr - old(repr)) && lastAudioStamp == Some(msg.stamp)
      ensures var going := Continues(old(lastAudioStamp), msg);
        && Before() == (if going then old(Before()) else Forgetful(old(Before())))
        && forall c :: 0 <= c < |channels| ==>
             ChannelOk(setup, channels[c], stretches[c], audioSeen - 1, if going then old(lastAudioStamp) else None)
    {
      hide ChannelOk, Contiguous, Seconds;
      var duration := Seconds(msg.frames);
      if lastAudioStamp.Some? && !Contiguous(setup.args, msg.stamp - lastAudioStamp.value, duration) {
        ResetAudio(audioSeen - 1);
      }
      lastAudioStamp := Some(msg.stamp);
    }
  }
}
