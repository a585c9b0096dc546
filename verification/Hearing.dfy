/**
  What a classifier channel may have heard, and what follows from it.

  A stretch is what one channel has heard since it last forgot everything.  A visit is what one
  audio message makes of a channel: the windows that are classified, with the clock readings taken
  for each.  Messages and readings together decide every direction that is published.
 */
module Hearing {
  import opened Prelude
  import opened Resampling
  import opened ChannelState
  import opened BearingGate

  const INPUT_RATE := 44100

  /** How long so many samples last. */
  function Seconds(samples: int): real {
    samples as real / INPUT_RATE as real
  }

  // ----- messages -----

  datatype Source = Source(id: int, activity: Option<real>, direction: Option<Vec>)

  datatype Sst = Sst(frame: string, stamp: real, sources: seq<Source>)

  datatype Audio = Audio(stamp: real, format: string, rate: int, channelCount: int, frames: int, data: seq<Byte>)

  datatype Args = Args(channels: nat, settings: Settings, minActivity: real, alwaysClassify: bool,
                       sstTimeout: real, maxAudioAge: real)

  /** Little-endian signed 16-bit sample i, scaled to [-1, 1). */
  function Pcm(data: seq<Byte>, i: nat): real
    requires 2 * i + 1 < |data|
  {
    var raw: int := data[2 * i] as int + 256 * (data[2 * i + 1] as int);
    (if raw >= 32768 then raw - 65536 else raw) as real / 32768.0
  }

  predicate WellFormed(msg: Audio, channels: nat) {
    && msg.format == "signed_16" && msg.rate == INPUT_RATE && msg.channelCount == channels
    && msg.frames > 0 && |msg.data| == msg.frames * channels * 2
  }

  lemma FrameIndex(frames: int, channels: int, c: int, i: int)
    requires 0 <= c < channels && 0 <= i < frames
    ensures 0 <= i * channels + c < frames * channels
  {
    MulMono(i + 1, frames, channels);
  }

  /** The samples of one channel; None stands for decode_audio's ValueError. */
  function Column(msg: Audio, channels: nat, c: nat): (column: Option<seq<real>>)
    requires c < channels
    ensures column.Some? <==> WellFormed(msg, channels)
    ensures column.Some? ==> |column.value| == msg.frames
  {
    if !WellFormed(msg, channels) then None
    else
      Some(seq(msg.frames, i requires 0 <= i < msg.frames =>
        (FrameIndex(msg.frames, channels, c, i); Pcm(msg.data, i * channels + c))))
  }

  // ----- identity and freshness -----

  function Columns(msg: Audio, channels: nat): (columns: seq<seq<real>>)
    requires WellFormed(msg, channels)
    ensures |columns| == channels
    ensures forall c :: 0 <= c < channels ==> columns[c] == Column(msg, channels, c).value
    ensures forall c :: 0 <= c < channels ==> |columns[c]| == msg.frames > 0
  {
    seq(channels, c requires 0 <= c < channels => Column(msg, channels, c).value)
  }

  function SourceOf(sst: Option<Sst>, c: nat): Option<Source> {
    if sst.None? || c >= |sst.value.sources| then None else Some(sst.value.sources[c])
  }

  predicate Active(args: Args, source: Option<Source>) {
    && source.Some? && source.value.id > 0
    && source.value.activity.Some? && source.value.activity.value >= args.minActivity
  }

  function IdentityOf(args: Args, sst: Option<Sst>, c: nat): Identity {
    var source := SourceOf(sst, c);
    Identity(if source.Some? then source.value.id else 0,
             if sst.Some? then sst.value.frame else "",
             Active(args, source))
  }

  predicate Fresh(args: Args, sst: Option<Sst>, c: nat, audioStamp: real, now: real) {
    && Active(args, SourceOf(sst, c)) && sst.value.frame != ""
    && Abs(sst.value.stamp - audioStamp) <= args.sstTimeout
    && -0.1 <= now - sst.value.stamp <= args.sstTimeout
  }

  predicate Contiguous(args: Args, gap: real, duration: real) {
    gap >= 0.0 && Abs(gap - duration) <= args.sstTimeout
  }

  // ----- stretches -----

  /** One accepted audio callback, as one channel heard it. */
  datatype Heard = Heard(callback: nat, stamp: real, samples: seq<real>, identity: Identity, current: bool) {
    function Duration(): real {
      Seconds(|samples|)
    }
  }

  function Samples(stretch: seq<Heard>): seq<real> {
    if stretch == [] then [] else Samples(stretch[..|stretch| - 1]) + stretch[|stretch| - 1].samples
  }

  function Start(stretch: seq<Heard>): real
    requires stretch != []
  {
    stretch[0].stamp - stretch[0].Duration()
  }

  /** b is the next callback after a, in time to continue its audio. */
  predicate Follows(args: Args, a: Heard, b: Heard) {
    b.callback == a.callback + 1 && Contiguous(args, b.stamp - a.stamp, b.Duration())
  }

  /** Consecutive callbacks under one identity, contiguous in time, and fresh unless told otherwise. */
  ghost predicate Isolated(args: Args, stretch: seq<Heard>) {
    && (forall i :: 0 <= i < |stretch| ==>
          stretch[i].identity == stretch[0].identity && (stretch[i].current || args.alwaysClassify))
    && (forall i, j :: 0 <= i && i + 1 == j < |stretch| ==> Follows(args, stretch[i], stretch[j]))
  }

  lemma SamplesSnoc(stretch: seq<Heard>, e: Heard)
    ensures Samples(stretch + [e]) == Samples(stretch) + e.samples
  {
    assert (stretch + [e])[..|stretch|] == stretch;
  }

  /** How far the audio position of a stretch is ahead of its last message stamp. */
  function Drift(stretch: seq<Heard>): real
    requires stretch != []
  {
    Start(stretch) + Seconds(|Samples(stretch)|) - stretch[|stretch| - 1].stamp
  }

  lemma DriftSnoc(stretch: seq<Heard>, e: Heard)
    requires stretch != []
    ensures Drift(stretch + [e]) == Drift(stretch) + e.Duration() - (e.stamp - stretch[|stretch| - 1].stamp)
  {
    SamplesSnoc(stretch, e);
    var m, k := |Samples(stretch)|, |e.samples|;
    assert (m + k) as real / INPUT_RATE as real == m as real / INPUT_RATE as real + k as real / INPUT_RATE as real;
  }

  lemma DriftOne(stretch: seq<Heard>)
    requires |stretch| == 1
    ensures Drift(stretch) == 0.0
  {
    assert Samples(stretch) == stretch[0].samples;
  }

  lemma DriftStep(drift: real, duration: real, gap: real, n: nat, tolerance: real)
    requires n >= 1 && Abs(drift) <= (n - 1) as real * tolerance && Abs(gap - duration) <= tolerance
    ensures Abs(drift + duration - gap) <= n as real * tolerance
  {
    assert n as real * tolerance == (n - 1) as real * tolerance + tolerance;
  }

  /** Audio time and message time of a stretch drift apart by at most the timeout per callback. */
  lemma {:induction false} DriftBound(args: Args, stretch: seq<Heard>, n: nat)
    requires Isolated(args, stretch) && |stretch| == n + 1
    ensures Abs(Drift(stretch)) <= n as real * args.sstTimeout
  {
    hide Drift, Seconds;
    if n == 0 {
      DriftOne(stretch);
    } else {
      var front, e := stretch[..n], stretch[n];
      assert stretch == front + [e];
      var gap := e.stamp - front[n - 1].stamp;
      assert Follows(args, front[n - 1], e);
      assert Isolated(args, front);
      DriftBound(args, front, n - 1);
      DriftSnoc(front, e);
      DriftStep(Drift(front), e.Duration(), gap, n, args.sstTimeout);
    }
  }

  // ----- verdicts -----

  type Engine = seq<real> -> Probability

  function Positive(engine: Engine, threshold: real, waveform: seq<real>): bool {
    var p := engine(waveform);
    p.Finite? && p.p >= threshold
  }

  /** The verdicts on the first n windows of audio. */
  function Verdicts(engine: Engine, threshold: real, audio: seq<real>, n: nat): seq<bool>
    requires n == 0 || HOP * (n - 1) + WINDOW <= |audio|
  {
    seq(n, i requires 0 <= i < n => Positive(engine, threshold, audio[HOP * i..HOP * i + WINDOW]))
  }

  lemma VerdictsExtend(engine: Engine, threshold: real, heard: seq<real>, audio: seq<real>, n: nat)
    requires heard <= audio && (n == 0 || HOP * (n - 1) + WINDOW <= |heard|)
    ensures Verdicts(engine, threshold, heard, n) == Verdicts(engine, threshold, audio, n)
  {
    forall i | 0 <= i < n
      ensures heard[HOP * i..HOP * i + WINDOW] == audio[HOP * i..HOP * i + WINDOW]
    {
    }
  }

  /** What a track message leaves of a stretch. */
  function Kept(before: Option<Identity>, now: Identity, stretch: seq<Heard>): seq<Heard> {
    if before == Some(now) then stretch else []
  }

  /** What an accepted audio message makes of a stretch, unless a window turns out to be too old. */
  function Continued(args: Args, sst: Option<Sst>, c: nat, before: Option<Identity>, stretch: seq<Heard>, n: nat,
                     stamp: real, samples: seq<real>, now: real): seq<Heard>
  {
    var identity, current := IdentityOf(args, sst, c), Fresh(args, sst, c, stamp, now);
    if !current && !args.alwaysClassify then []
    else Kept(before, identity, stretch) + [Heard(n, stamp, samples, identity, current)]
  }

  lemma IsolatedSnoc(args: Args, stretch: seq<Heard>, e: Heard)
    requires Isolated(args, stretch) && (e.current || args.alwaysClassify)
    requires stretch != [] ==> e.identity == stretch[0].identity && Follows(args, stretch[|stretch| - 1], e)
    ensures Isolated(args, stretch + [e])
  {
  }

  // ----- windows -----

  /** What a node is configured with: nothing of it changes. */
  datatype Setup = Setup(
    args: Args, h: Filter, engine: Engine, norm: Vec -> real, gate: BearingGate)

  /** A channel during one audio message: what it has heard, and the tracks that are known. */
  datatype Scene = Scene(sst: Option<Sst>, channel: nat, stretch: seq<Heard>)

  /** The resampled audio of the stretch. */
  function Material(s: Setup, x: Scene): seq<real> {
    Finalized(s.h, MODEL_RATE, Samples(x.stretch))
  }

  /** Window w is complete. */
  predicate HasWindow(s: Setup, x: Scene, w: nat) {
    x.stretch != [] && HOP * w + WINDOW <= |Material(s, x)|
  }

  function WindowOf(s: Setup, x: Scene, w: nat): Window
    requires HasWindow(s, x, w)
  {
    WindowAt(Material(s, x), Start(x.stretch), w)
  }

  /** Window w is neither too old nor from the future at time t. */
  predicate Timely(s: Setup, x: Scene, w: nat, t: real)
    requires HasWindow(s, x, w)
  {
    -0.1 <= t - WindowOf(s, x, w).endTime <= s.args.maxAudioAge
  }

  /** The engine answers window w with a probability; any other answer raises ValueError. */
  predicate Answered(s: Setup, x: Scene, w: nat)
    requires HasWindow(s, x, w)
  {
    var p := s.engine(WindowOf(s, x, w).waveform);
    p.Finite? && 0.0 <= p.p <= 1.0
  }

  /** Enough of the last votes up to window w are positive. */
  predicate Agreed(s: Setup, x: Scene, w: nat)
    requires HasWindow(s, x, w)
  {
    CountTrue(Last(Verdicts(s.engine, s.args.settings.threshold, Material(s, x), w + 1), s.args.settings.voteWindow))
    >= s.args.settings.votesRequired
  }

  /** And the stretch is the track's. */
  predicate Decided(s: Setup, x: Scene, w: nat)
    requires HasWindow(s, x, w)
  {
    Agreed(s, x, w) && x.stretch[0].identity == IdentityOf(s.args, x.sst, x.channel)
  }

  predicate Directed(s: Setup, sst: Option<Sst>, c: nat) {
    && SourceOf(sst, c).Some? && SourceOf(sst, c).value.direction.Some?
    && s.norm(SourceOf(sst, c).value.direction.value) >= 0.000001
  }

  /** The unit direction of the channel's track. */
  function Direction(s: Setup, sst: Option<Sst>, c: nat): Vec
    requires Directed(s, sst, c)
  {
    var d := SourceOf(sst, c).value.direction.value;
    Scale(1.0 / s.norm(d), d)
  }

  /** How often the clock is read after a vote: the checks stop at the first that fails. */
  predicate Checked(s: Setup, sst: Option<Sst>, c: nat, stamp: real, windowEnd: real, decided: bool, clock: seq<real>) {
    |clock| == if !decided then 0
               else if clock == [] || !Fresh(s.args, sst, c, stamp, clock[0]) then 1
               else if |clock| < 2 || clock[1] - windowEnd > s.args.maxAudioAge || !Directed(s, sst, c) then 2
               else 3
  }

  /** clock is what is read for window w if it is voted on: once for its age, then for the checks. */
  predicate Voted(s: Setup, x: Scene, w: nat, clock: seq<real>) {
    && HasWindow(s, x, w) && clock != [] && Timely(s, x, w, clock[0]) && Answered(s, x, w)
    && Checked(s, x.sst, x.channel, x.stretch[|x.stretch| - 1].stamp, WindowOf(s, x, w).endTime, Decided(s, x, w),
               clock[1..])
  }

  // ----- publications -----

  /** A published direction, with the evidence at the moment of publication. */
  datatype Published = Published(
    channel: nat, direction: Vec, frame: string, windowEnd: real,
    stretch: seq<Heard>, window: nat, sst: Option<Sst>, now: real)

  /** A gate, and what it let through. */
  datatype Passage = Passage(gate: Gate, out: seq<Published>)

  /** The gate is offered the direction of the channel's track at time t. */
  function Offer(s: Setup, sst: Option<Sst>, c: nat, g: Gate, t: real): Outcome
    requires Directed(s, sst, c)
  {
    Decide(s.gate.norm, s.gate.cfg, g, Normalize(s.gate.norm, Some(Direction(s, sst, c))), t)
  }

  /** What window w publishes: its direction if all checks passed and the gate opens. */
  function Release(s: Setup, x: Scene, w: nat, clock: seq<real>, g: Gate): Passage {
    if |clock| == 4 && HasWindow(s, x, w) && Directed(s, x.sst, x.channel) then
      var o := Offer(s, x.sst, x.channel, g, clock[3]);
      Passage(o.gate,
              if o.publish
              then [Published(x.channel, Direction(s, x.sst, x.channel), x.sst.value.frame, WindowOf(s, x, w).endTime,
                              x.stretch, w, x.sst, clock[1])]
              else [])
    else
      Passage(g, [])
  }

  /** What the windows from first on publish, one after the other. */
  function Releases(s: Setup, x: Scene, first: nat, clocks: seq<seq<real>>, g: Gate): Passage {
    if clocks == [] then Passage(g, [])
    else
      var n := |clocks| - 1;
      var before := Releases(s, x, first, clocks[..n], g);
      var last := Release(s, x, first + n, clocks[n], before.gate);
      Passage(last.gate, before.out + last.out)
  }

  lemma ReleasesSnoc(s: Setup, x: Scene, first: nat, clocks: seq<seq<real>>, clock: seq<real>, g: Gate)
    ensures var before := Releases(s, x, first, clocks, g);
      var last := Release(s, x, first + |clocks|, clock, before.gate);
      Releases(s, x, first, clocks + [clock], g) == Passage(last.gate, before.out + last.out)
  {
    hide Release;
    assert (clocks + [clock])[..|clocks|] == clocks;
  }

  /**
    The direction is the unit direction of the very track that is published, the window and all
    votes that decided come from one isolated stretch of that track, enough of the last verdicts
    were positive, and the track was fresh.
   */
  ghost predicate Justified(s: Setup, p: Published) {
    var x := Scene(p.sst, p.channel, p.stretch);
    && HasWindow(s, x, p.window) && Isolated(s.args, p.stretch)
    && Directed(s, p.sst, p.channel) && p.direction == Direction(s, p.sst, p.channel)
    && p.stretch[0].identity.active && p.stretch[0].identity.frame == p.frame != ""
    && p.windowEnd == WindowOf(s, x, p.window).endTime
    && Decided(s, x, p.window)
    && Fresh(s.args, p.sst, p.channel, p.stretch[|p.stretch| - 1].stamp, p.now)
  }

  ghost predicate AllJustified(s: Setup, ps: seq<Published>) {
    forall p :: p in ps ==> Justified(s, p)
  }

  lemma ReleaseJustified(s: Setup, x: Scene, w: nat, clock: seq<real>, g: Gate)
    requires Voted(s, x, w, clock) || |clock| == 1
    requires Isolated(s.args, x.stretch)
    ensures AllJustified(s, Release(s, x, w, clock, g).out)
  {
  }

  // ----- visits -----

  /** How the windows of a channel end in one message; at NoProbability the exception ends the node. */
  datatype Ending = Exhausted | Late | NoProbability

  /**
    What one message makes of a channel: its stretch, the first window that is taken, the clock
    readings for each window taken, and how it ends.  Except when exhausted, the last window taken
    is the one that ended it.
   */
  datatype Visit = Visit(stretch: seq<Heard>, first: nat, clocks: seq<seq<real>>, ending: Ending) {
    function Votes(): int {
      |clocks| - if ending.Exhausted? then 0 else 1
    }

    /** What the channel remembers of it. */
    function Left(): seq<Heard> {
      if ending.Late? then [] else stretch
    }
  }

  const IDLE := Visit([], 0, [], Exhausted)

  /** Why the last window taken was not voted on. */
  predicate Ended(s: Setup, x: Scene, w: nat, clock: seq<real>, ending: Ending) {
    match ending
    case Exhausted => !HasWindow(s, x, w)
    case Late => HasWindow(s, x, w) && |clock| == 1 && !Timely(s, x, w, clock[0])
    case NoProbability => HasWindow(s, x, w) && |clock| == 1 && Timely(s, x, w, clock[0]) && !Answered(s, x, w)
  }

  /** Every window is voted on, in order, until there is none or one of them ends the visit. */
  predicate Complete(s: Setup, sst: Option<Sst>, c: nat, v: Visit) {
    var x, n := Scene(sst, c, v.stretch), v.Votes();
    && n >= 0 && (forall i :: 0 <= i < n ==> Voted(s, x, v.first + i, v.clocks[i]))
    && Ended(s, x, v.first + n, if n < |v.clocks| then v.clocks[n] else [], v.ending)
  }

  lemma {:induction false} ReleasesJustified(s: Setup, sst: Option<Sst>, c: nat, v: Visit, k: nat, g: Gate)
    requires Complete(s, sst, c, v) && Isolated(s.args, v.stretch) && k <= |v.clocks|
    ensures AllJustified(s, Releases(s, Scene(sst, c, v.stretch), v.first, v.clocks[..k], g).out)
  {
    hide *;
    var x := Scene(sst, c, v.stretch);
    if k > 0 {
      var clock := v.clocks[k - 1];
      ReleasesJustified(s, sst, c, v, k - 1, g);
      CompleteAt(s, sst, c, v, k - 1);
      assert v.clocks[..k] == v.clocks[..k - 1] + [clock];
      ReleasesSnoc(s, x, v.first, v.clocks[..k - 1], clock, g);
      var before := Releases(s, x, v.first, v.clocks[..k - 1], g);
      ReleaseJustified(s, x, v.first + (k - 1), clock, before.gate);
      JustifiedConcat(s, before.out, Release(s, x, v.first + (k - 1), clock, before.gate).out);
    } else {
      assert v.clocks[..k] == [];
      NothingReleased(s, x, v.first, g);
    }
  }

  lemma NothingReleased(s: Setup, x: Scene, first: nat, g: Gate)
    ensures Releases(s, x, first, [], g) == Passage(g, []) && AllJustified(s, [])
  {
  }

  lemma CompleteAt(s: Setup, sst: Option<Sst>, c: nat, v: Visit, i: nat)
    requires Complete(s, sst, c, v) && i < |v.clocks|
    ensures Voted(s, Scene(sst, c, v.stretch), v.first + i, v.clocks[i]) || |v.clocks[i]| == 1
  {
  }

  lemma JustifiedConcat(s: Setup, ps: seq<Published>, qs: seq<Published>)
    requires AllJustified(s, ps) && AllJustified(s, qs)
    ensures AllJustified(s, ps + qs)
  {
  }

  // ----- books -----

  /** Everything that the channels share: the gate, what was published, the counters and the clock. */
  datatype Books = Books(gate: Gate, out: seq<Published>, windows: nat, dropped: nat, readings: seq<real>)

  /** The books after one visit. */
  function Entered(s: Setup, sst: Option<Sst>, c: nat, v: Visit, b: Books): Books
    requires v.Votes() >= 0
  {
    var r := Releases(s, Scene(sst, c, v.stretch), v.first, v.clocks, b.gate);
    Books(r.gate, b.out + r.out, b.windows + v.Votes(), b.dropped + if v.ending.Late? then 1 else 0,
          b.readings + Flatten(v.clocks))
  }

  /** The books after one window: voted on, or the one that ends the visit. */
  function Turned(s: Setup, x: Scene, w: nat, clock: seq<real>, ending: Ending, b: Books): Books {
    var r := Release(s, x, w, clock, b.gate);
    Books(r.gate, b.out + r.out, b.windows + (if ending.Exhausted? then 1 else 0),
          b.dropped + (if ending.Late? then 1 else 0), b.readings + clock)
  }

  lemma EnterMore(s: Setup, x: Scene, first: nat, clocks: seq<seq<real>>, clock: seq<real>, ending: Ending, b: Books)
    ensures Entered(s, x.sst, x.channel, Visit(x.stretch, first, clocks + [clock], ending), b)
         == Turned(s, x, first + |clocks|, clock, ending,
                   Entered(s, x.sst, x.channel, Visit(x.stretch, first, clocks, Exhausted), b))
  {
    hide Release, Releases;
    var before := Releases(s, x, first, clocks, b.gate);
    ReleasesSnoc(s, x, first, clocks, clock, b.gate);
    FlattenSnoc(clocks, clock);
    assert b.out + (before.out + Release(s, x, first + |clocks|, clock, before.gate).out)
        == b.out + before.out + Release(s, x, first + |clocks|, clock, before.gate).out;
    assert b.readings + (Flatten(clocks) + clock) == b.readings + Flatten(clocks) + clock;
  }

  /** A window that is not voted on publishes nothing. */
  lemma NoVoteNoRelease(s: Setup, x: Scene, w: nat, clock: seq<real>, g: Gate)
    requires |clock| <= 1
    ensures Release(s, x, w, clock, g) == Passage(g, [])
  {
  }

  lemma NothingEntered(s: Setup, x: Scene, first: nat, b: Books)
    ensures Entered(s, x.sst, x.channel, Visit(x.stretch, first, [], Exhausted), b) == b
  {
    assert Flatten<real>([]) == [];
    assert b.out + [] == b.out && b.readings + [] == b.readings;
  }

  predicate AllVoted(s: Setup, x: Scene, first: nat, clocks: seq<seq<real>>) {
    forall i :: 0 <= i < |clocks| ==> Voted(s, x, first + i, clocks[i])
  }

  lemma NoneVoted(s: Setup, x: Scene, first: nat)
    ensures AllVoted(s, x, first, [])
  {
  }

  lemma AllVotedMore(s: Setup, x: Scene, first: nat, clocks: seq<seq<real>>, clock: seq<real>)
    requires AllVoted(s, x, first, clocks)
    ensures Voted(s, x, first + |clocks|, clock) ==> AllVoted(s, x, first, clocks + [clock])
  {
    hide Voted;
  }

  lemma CompleteVisit(s: Setup, x: Scene, first: nat, clocks: seq<seq<real>>, more: seq<seq<real>>, ending: Ending)
    requires AllVoted(s, x, first, clocks)
    requires |more| == if ending.Exhausted? then 0 else 1
    requires Ended(s, x, first + |clocks|, if more == [] then [] else more[0], ending)
    ensures Complete(s, x.sst, x.channel, Visit(x.stretch, first, clocks + more, ending))
  {
    hide Voted, Ended;
    assert Scene(x.sst, x.channel, x.stretch) == x;
  }

  lemma EntryJustified(s: Setup, sst: Option<Sst>, c: nat, v: Visit, b: Books)
    requires Complete(s, sst, c, v) && Isolated(s.args, v.stretch) && AllJustified(s, b.out)
    ensures v.Votes() >= 0 && AllJustified(s, Entered(s, sst, c, v, b).out)
  {
    ReleasesJustified(s, sst, c, v, |v.clocks|, b.gate);
    assert v.clocks[..|v.clocks|] == v.clocks;
    hide AllJustified, Releases;
    JustifiedConcat(s, b.out, Releases(s, Scene(sst, c, v.stretch), v.first, v.clocks, b.gate).out);
  }

  /** The books after visits to the channels 0, 1, ... */
  function EnteredAll(s: Setup, sst: Option<Sst>, visits: seq<Visit>, b: Books): Books
    requires forall v :: v in visits ==> v.Votes() >= 0
  {
    if visits == [] then b
    else
      var n := |visits| - 1;
      Entered(s, sst, n, visits[n], EnteredAll(s, sst, visits[..n], b))
  }

  lemma EnteredSnoc(s: Setup, sst: Option<Sst>, visits: seq<Visit>, v: Visit, b: Books)
    requires v.Votes() >= 0 && forall v :: v in visits ==> v.Votes() >= 0
    ensures EnteredAll(s, sst, visits + [v], b) == Entered(s, sst, |visits|, v, EnteredAll(s, sst, visits, b))
  {
    hide Entered;
    assert (visits + [v])[..|visits|] == visits;
  }

  lemma IdleEnters(s: Setup, sst: Option<Sst>, c: nat, b: Books)
    ensures Entered(s, sst, c, IDLE, b) == b && Complete(s, sst, c, IDLE)
  {
    assert Flatten<real>([]) == [];
  }

  /** What a channel was before a message. */
  datatype Was = Was(identity: Option<Identity>, stretch: seq<Heard>, votes: nat)

  /** What an accepted message makes of a channel: its next stretch, and the windows from the last one on. */
  predicate Visited(s: Setup, sst: Option<Sst>, c: nat, was: Was, n: nat, stamp: real, samples: seq<real>, now: real,
                    v: Visit)
  {
    && v.stretch == Continued(s.args, sst, c, was.identity, was.stretch, n, stamp, samples, now)
    && v.first == (if |v.stretch| <= 1 then 0 else was.votes)
    && Complete(s, sst, c, v)
  }

  lemma IdleVisit(s: Setup, sst: Option<Sst>, c: nat, was: Was, n: nat, stamp: real, samples: seq<real>, now: real,
                  b: Books)
    requires !Fresh(s.args, sst, c, stamp, now) && !s.args.alwaysClassify
    ensures Visited(s, sst, c, was, n, stamp, samples, now, IDLE)
    ensures IDLE == Visit([], 0, [], Exhausted) && IDLE.Votes() == 0 && IDLE.Left() == []
    ensures Entered(s, sst, c, IDLE, b) == b
  {
    IdleEnters(s, sst, c, b);
  }

  lemma HeardVisit(s: Setup, sst: Option<Sst>, c: nat, was: Was, n: nat, stamp: real, samples: seq<real>, now: real,
                   v: Visit)
    requires var identity, current := IdentityOf(s.args, sst, c), Fresh(s.args, sst, c, stamp, now);
      var kept := Kept(was.identity, identity, was.stretch);
      && (current || s.args.alwaysClassify)
      && v.stretch == kept + [Heard(n, stamp, samples, identity, current)]
      && v.first == if kept == [] then 0 else was.votes
    requires Complete(s, sst, c, v)
    ensures Visited(s, sst, c, was, n, stamp, samples, now, v)
  {
    hide Complete, Fresh, IdentityOf, Kept;
  }

  // ----- messages -----

  /** A channel after everything was forgotten. */
  function Forgetful(was: seq<Was>): (r: seq<Was>)
    ensures |r| == |was| && forall c :: 0 <= c < |r| ==> r[c] == Was(was[c].identity, [], 0)
  {
    seq(|was|, c requires 0 <= c < |was| => Was(was[c].identity, [], 0))
  }

  /** The channels are visited in order, up to one whose engine answer is no probability. */
  predicate AllVisited(s: Setup, sst: Option<Sst>, was: seq<Was>, n: nat, stamp: real, columns: seq<seq<real>>, now: real,
                       visits: seq<Visit>)
  {
    && |visits| <= |was| == |columns|
    && (forall c :: 0 <= c < |visits| ==> visits[c].Votes() >= 0)
    && (forall c :: 0 <= c < |visits| ==> Visited(s, sst, c, was[c], n, stamp, columns[c], now, visits[c]))
    && (forall c :: 0 <= c < |visits| && visits[c].ending.NoProbability? ==> c == |visits| - 1)
    && (!Failed(visits) ==> |visits| == |was|)
  }

  predicate Failed(visits: seq<Visit>) {
    visits != [] && visits[|visits| - 1].ending.NoProbability?
  }

  lemma NoVisits(s: Setup, sst: Option<Sst>, b: Books)
    ensures EnteredAll(s, sst, [], b) == b
  {
  }

  /** Nothing that was published or read is taken back. */
  lemma {:induction false} EnteredGrows(s: Setup, sst: Option<Sst>, visits: seq<Visit>, b: Books)
    requires forall v :: v in visits ==> v.Votes() >= 0
    ensures b.out <= EnteredAll(s, sst, visits, b).out && b.readings <= EnteredAll(s, sst, visits, b).readings
  {
    hide Releases, Flatten;
    if visits != [] {
      EnteredGrows(s, sst, visits[..|visits| - 1], b);
    }
  }
}
