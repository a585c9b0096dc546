/**
  The agent's control lease: many GUIs may be connected, one of them may steer.

  The coroutines of the server run on one event loop, so what happens between two awaits is one
  step.  Peers, handler tasks and broadcasts are numbered in the order in which they begin.
 */
module ControlLease {
  import opened Prelude

  const GRACE_SECONDS := 5.0

  datatype Message = Hello(controller: Option<nat>) | HelloError | Status | Control(controller: Option<nat>) | Event

  /** Where the coroutine of a connection is. */
  datatype Stage =
    | Fresh
    | Greeted
    | Informed
    | Serving
    | Closing
    | Grace(since: real)
    | Gone

  /** wire: what the writer of the connection was given, in order. */
  datatype Peer = Peer(stage: Stage, wire: seq<Message>)

  datatype Command = Acquire | Release | Steer(name: string) | Query(name: string) | Unknown(name: string)

  const CONTROL_COMMANDS: set<string> := {"start", "home", "set_tracking", "stop_all", "force_stop_all"}

  const QUERIES: set<string> := {"get_status", "preflight", "list_recordings"}

  datatype Task = Task(session: nat, command: Command, done: bool)

  /** A broadcast on its way: rest is who has not been written to yet. */
  datatype Cast = Cast(message: Message, rest: set<nat>)

  /** A control command that began. */
  datatype Started = Started(session: nat, name: string)

  datatype Work = Work(tasks: seq<Task>, casts: seq<Cast>, started: seq<Started>)

  datatype Server = Server(peers: seq<Peer>, sessions: set<nat>, controller: Option<nat>, now: real, work: Work)

  const INITIAL := Server([], {}, None, 0.0, Work([], [], []))

  datatype Step =
    | Connect
    | Greet(peer: nat)
    | Refuse(peer: nat)
    | Inform(peer: nat)
    | Enter(peer: nat)
    | Request(peer: nat, command: Command)
    | Disconnect(peer: nat)
    | Closed(peer: nat)
    | Expire(peer: nat)
    | Handle(task: nat)
    | Broadcast
    | Deliver(cast: nat, peer: nat)
    | Pass(seconds: real)

  // ---------------------------------------------------------------- steps

  predicate At(s: Server, p: nat, stage: Stage) {
    p < |s.peers| && s.peers[p].stage == stage
  }

  predicate CommandOk(c: Command) {
    match c
    case Steer(name) => name in CONTROL_COMMANDS
    case Query(name) => name in QUERIES
    case Unknown(name) => name !in CONTROL_COMMANDS + QUERIES + {"acquire_control", "release_control"}
    case _ => true
  }

  /** Whether a step can happen. */
  predicate Enabled(s: Server, e: Step) {
    match e
    case Connect => true
    case Greet(p) => At(s, p, Fresh)
    case Refuse(p) => At(s, p, Fresh)
    case Inform(p) => At(s, p, Greeted)
    case Enter(p) => At(s, p, Informed)
    case Request(p, c) => At(s, p, Serving) && CommandOk(c)
    case Disconnect(p) => At(s, p, Fresh) || At(s, p, Greeted) || At(s, p, Informed) || At(s, p, Serving)
    case Closed(p) => At(s, p, Closing)
    case Expire(p) =>
      p < |s.peers| && s.peers[p].stage.Grace? && s.now - s.peers[p].stage.since >= GRACE_SECONDS
    case Handle(t) => t < |s.work.tasks| && !s.work.tasks[t].done
    case Broadcast => true
    case Deliver(i, p) => i < |s.work.casts| && p in s.work.casts[i].rest && p < |s.peers|
    case Pass(seconds) => seconds >= 0.0
  }

  function Move(s: Server, p: nat, stage: Stage, more: seq<Message>): Server
    requires p < |s.peers|
  {
    s.(peers := s.peers[p := Peer(stage, s.peers[p].wire + more)])
  }

  /** The controller changes, and everybody who is connected is told. */
  function Announce(s: Server, controller: Option<nat>): Server {
    s.(controller := controller,
       work := s.work.(casts := s.work.casts + [Cast(Control(controller), s.sessions)]))
  }

  /** The first part of a handler, up to its first await. */
  function Handled(s: Server, t: nat): Server
    requires t < |s.work.tasks|
  {
    var task := s.work.tasks[t];
    var s := s.(work := s.work.(tasks := s.work.tasks[t := task.(done := true)]));
    match task.command
    case Acquire => if s.controller in {None, Some(task.session)} then Announce(s, Some(task.session)) else s
    case Release => if s.controller == Some(task.session) then Announce(s, None) else s
    case Steer(name) =>
      if s.controller == Some(task.session)
      then s.(work := s.work.(started := s.work.started + [Started(task.session, name)]))
      else s
    case _ => s
  }

  function Next(s: Server, e: Step): Server
    requires Enabled(s, e)
  {
    match e
    case Connect => s.(peers := s.peers + [Peer(Fresh, [])])
    case Greet(p) => Move(s, p, Greeted, [Hello(s.controller)])
    case Refuse(p) => Move(s, p, Closing, [HelloError])
    case Inform(p) => Move(s, p, Informed, [Status])
    case Enter(p) => Move(s, p, Serving, []).(sessions := s.sessions + {p})
    case Request(p, c) => s.(work := s.work.(tasks := s.work.tasks + [Task(p, c, false)]))
    case Disconnect(p) => Move(s, p, Closing, []).(sessions := s.sessions - {p})
    case Closed(p) => Move(s, p, if s.controller == Some(p) then Grace(s.now) else Gone, [])
    case Expire(p) =>
      var gone := Move(s, p, Gone, []);
      if s.controller == Some(p) then Announce(gone, None) else gone
    case Handle(t) => Handled(s, t)
    case Broadcast => s.(work := s.work.(casts := s.work.casts + [Cast(Event, s.sessions)]))
    case Deliver(i, p) =>
      var cast := s.work.casts[i];
      Move(s, p, s.peers[p].stage, [cast.message]).(
        work := s.work.(casts := s.work.casts[i := cast.(rest := cast.rest - {p})]))
    case Pass(seconds) => s.(now := s.now + seconds)
  }

  /** States one after the other, each by a step that can happen. */
  predicate IsRun(states: seq<Server>, steps: seq<Step>) {
    && |states| == |steps| + 1
    && states[0] == INITIAL
    && forall k, l :: 0 <= k < |steps| && l == k + 1 ==> Leads(states[k], steps[k], states[l])
  }

  predicate Leads(s: Server, e: Step, t: Server) {
    Enabled(s, e) && t == Next(s, e)
  }

  lemma RunStep(states: seq<Server>, steps: seq<Step>, k: nat)
    requires IsRun(states, steps) && k < |steps|
    ensures Enabled(states[k], steps[k]) && states[k + 1] == Next(states[k], steps[k])
  {
    hide Enabled, Next;
    var l := k + 1;
    assert Leads(states[k], steps[k], states[l]);
  }

  // ---------------------------------------------------------------- what every step keeps

  /** The hello and the first status came before anything else. */
  predicate Welcomed(wire: seq<Message>) {
    |wire| >= 2 && wire[0].Hello? && wire[1].Status?
  }

  predicate PeerOk(p: Peer) {
    match p.stage
    case Fresh => p.wire == []
    case Greeted => |p.wire| == 1 && p.wire[0].Hello?
    case Informed => |p.wire| == 2 && Welcomed(p.wire)
    case Serving => Welcomed(p.wire)
    case _ => p.wire == [] || p.wire == [HelloError] || (|p.wire| == 1 && p.wire[0].Hello?) || Welcomed(p.wire)
  }

  predicate Past(stage: Stage) {
    stage !in {Fresh, Greeted, Informed}
  }

  /** A peer that was let in, whether it is still there or not. */
  predicate Known(s: Server, p: nat) {
    p < |s.peers| && Past(s.peers[p].stage) && Welcomed(s.peers[p].wire)
  }

  predicate PeersOk(s: Server) {
    && (forall p :: 0 <= p < |s.peers| ==> PeerOk(s.peers[p]))
    && (forall p :: p in s.sessions ==> At(s, p, Serving))
    && (forall p :: 0 <= p < |s.peers| && s.peers[p].stage == Serving ==> p in s.sessions)
    && (forall p :: 0 <= p < |s.peers| && s.peers[p].stage.Grace? ==> s.peers[p].stage.since <= s.now)
  }

  predicate TasksOk(s: Server) {
    forall t :: 0 <= t < |s.work.tasks| ==> Known(s, s.work.tasks[t].session) && CommandOk(s.work.tasks[t].command)
  }

  predicate CastsOk(s: Server) {
    forall i :: 0 <= i < |s.work.casts| ==>
      && (s.work.casts[i].message.Control? || s.work.casts[i].message.Event?)
      && forall p :: p in s.work.casts[i].rest ==> Known(s, p)
  }

  predicate StartedOk(s: Server) {
    forall k :: 0 <= k < |s.work.started| ==> s.work.started[k].name in CONTROL_COMMANDS
  }

  predicate HolderOk(s: Server) {
    s.controller.Some? ==> Known(s, s.controller.value)
  }

  predicate WorkOk(s: Server) {
    TasksOk(s) && CastsOk(s) && StartedOk(s) && HolderOk(s)
  }

  predicate Inv(s: Server) {
    PeersOk(s) && WorkOk(s)
  }

  lemma MoveKeepsPeers(s: Server, p: nat, stage: Stage, more: seq<Message>)
    requires PeersOk(s) && p < |s.peers|
    requires PeerOk(Peer(stage, s.peers[p].wire + more)) && stage != Serving
    requires stage.Grace? ==> stage.since <= s.now
    ensures PeersOk(Move(s, p, stage, more).(sessions := s.sessions - {p}))
    ensures p !in s.sessions ==> PeersOk(Move(s, p, stage, more))
  {
    if p !in s.sessions {
      assert s.sessions - {p} == s.sessions;
    }
  }

  lemma PeerAt(s: Server, p: nat)
    requires PeersOk(s) && p < |s.peers|
    ensures PeerOk(s.peers[p]) && (p in s.sessions <==> s.peers[p].stage == Serving)
    ensures s.peers[p].wire + [] == s.peers[p].wire
  {
  }

  lemma SamePeers(s: Server, t: Server)
    requires PeersOk(s) && t.peers == s.peers && t.sessions == s.sessions && t.now >= s.now
    ensures PeersOk(t)
  {
  }

  lemma EnterKeepsPeers(s: Server, p: nat)
    requires PeersOk(s) && At(s, p, Informed)
    ensures PeersOk(Next(s, Enter(p)))
  {
    PeerAt(s, p);
  }

  lemma ConnectKeepsPeers(s: Server)
    requires PeersOk(s)
    ensures PeersOk(Next(s, Connect))
  {
  }

  lemma PeersStep(s: Server, e: Step)
    requires Inv(s) && Enabled(s, e)
    ensures PeersOk(Next(s, e))
  {
    hide PeersOk, WorkOk;
    var t := Next(s, e);
    match e
    case Greet(p) =>
      PeerAt(s, p);
      MoveKeepsPeers(s, p, Greeted, [Hello(s.controller)]);
    case Refuse(p) =>
      PeerAt(s, p);
      MoveKeepsPeers(s, p, Closing, [HelloError]);
    case Inform(p) =>
      PeerAt(s, p);
      MoveKeepsPeers(s, p, Informed, [Status]);
    case Disconnect(p) =>
      PeerAt(s, p);
      MoveKeepsPeers(s, p, Closing, []);
    case Closed(p) =>
      PeerAt(s, p);
      MoveKeepsPeers(s, p, if s.controller == Some(p) then Grace(s.now) else Gone, []);
    case Expire(p) =>
      PeerAt(s, p);
      MoveKeepsPeers(s, p, Gone, []);
      SamePeers(Move(s, p, Gone, []), t);
    case Enter(p) =>
      EnterKeepsPeers(s, p);
    case Connect =>
      ConnectKeepsPeers(s);
    case Deliver(i, p) =>
      DeliverKeepsPeers(s, i, p);
    case _ =>
      SamePeers(s, t);
  }

  lemma DeliverKeepsPeers(s: Server, i: nat, p: nat)
    requires Inv(s) && Enabled(s, Deliver(i, p))
    ensures PeersOk(Next(s, Deliver(i, p)))
  {
    var message := s.work.casts[i].message;
    assert Known(s, p);
    assert PeerOk(s.peers[p]);
    assert Welcomed(s.peers[p].wire + [message]);
  }

  /** Wires only grow. */
  predicate Grows(s: Server, t: Server) {
    && |s.peers| <= |t.peers|
    && forall p :: 0 <= p < |s.peers| ==>
         s.peers[p].wire <= t.peers[p].wire && (Past(s.peers[p].stage) ==> Past(t.peers[p].stage))
  }

  lemma WiresGrow(s: Server, e: Step)
    requires Enabled(s, e)
    ensures Grows(s, Next(s, e))
  {
  }

  lemma KnownStays(s: Server, t: Server, p: nat)
    requires Grows(s, t) && Known(s, p)
    ensures Known(t, p)
  {
    assert s.peers[p].wire <= t.peers[p].wire;
  }

  lemma KnownsStay(s: Server, e: Step)
    requires Inv(s) && Enabled(s, e)
    ensures forall p :: 0 <= p && Known(s, p) ==> Known(Next(s, e), p)
    ensures forall p :: p in s.sessions ==> Known(s, p) && Known(Next(s, e), p)
  {
    var t := Next(s, e);
    WiresGrow(s, e);
    hide Next, Enabled, WorkOk;
    forall p: nat | Known(s, p)
      ensures Known(t, p)
    {
      KnownStays(s, t, p);
    }
    forall p: nat | p in s.sessions
      ensures Known(s, p)
    {
      assert At(s, p, Serving) && PeerOk(s.peers[p]);
    }
  }

  lemma TasksStep(s: Server, e: Step)
    requires Inv(s) && Enabled(s, e)
    ensures TasksOk(Next(s, e))
  {
    KnownsStay(s, e);
    if e.Request? {
      PeerAt(s, e.peer);
    }
    hide PeersOk, Known, CastsOk;
  }

  lemma CastsStep(s: Server, e: Step)
    requires Inv(s) && Enabled(s, e)
    ensures CastsOk(Next(s, e))
  {
    KnownsStay(s, e);
    hide PeersOk, Known, TasksOk;
  }

  lemma StartedStep(s: Server, e: Step)
    requires Inv(s) && Enabled(s, e)
    ensures StartedOk(Next(s, e))
  {
    hide PeersOk, Known, CastsOk;
  }

  lemma HolderStep(s: Server, e: Step)
    requires Inv(s) && Enabled(s, e)
    ensures HolderOk(Next(s, e))
  {
    KnownsStay(s, e);
    hide PeersOk, Known, CastsOk;
  }

  lemma WorkStep(s: Server, e: Step)
    requires Inv(s) && Enabled(s, e)
    ensures WorkOk(Next(s, e))
  {
    hide PeersOk, TasksOk, CastsOk, StartedOk, HolderOk;
    TasksStep(s, e);
    CastsStep(s, e);
    StartedStep(s, e);
    HolderStep(s, e);
  }

  lemma InvariantStep(s: Server, e: Step)
    requires Inv(s) && Enabled(s, e)
    ensures Inv(Next(s, e))
  {
    PeersStep(s, e);
    WorkStep(s, e);
  }

  lemma {:induction false} RunKeeps(states: seq<Server>, steps: seq<Step>, k: nat)
    requires IsRun(states, steps) && k < |states|
    ensures Inv(states[k])
  {
    if k > 0 {
      RunStep(states, steps, k - 1);
      RunKeeps(states, steps, k - 1);
      InvariantStep(states[k - 1], steps[k - 1]);
    }
  }

  // ---------------------------------------------------------------- the lease

  /** Whoever is connected: its hello came first, its first status second, and broadcasts after that. */
  lemma HelloComesFirst(states: seq<Server>, steps: seq<Step>, k: nat, p: nat)
    requires IsRun(states, steps) && k < |states| && p < |states[k].peers|
    ensures var wire := states[k].peers[p].wire;
      && (wire != [] ==> wire[0].Hello? || wire == [HelloError])
      && (|wire| > 1 ==> wire[1].Status?)
      && (p in states[k].sessions ==> |wire| >= 2)
  {
    RunKeeps(states, steps, k);
    PeerAt(states[k], p);
  }

  lemma NoHandover(s: Server, e: Step)
    requires Enabled(s, e)
    ensures s.controller == None || Next(s, e).controller in {None, s.controller}
  {
  }

  /** Control never passes from one session to another without being free in between. */
  lemma {:induction false} ControlIsFreeInBetween(states: seq<Server>, steps: seq<Step>, i: nat, j: nat)
    requires IsRun(states, steps) && i < j < |states|
    requires states[i].controller.Some? && states[j].controller.Some? && states[i].controller != states[j].controller
    ensures exists k :: i < k < j && states[k].controller == None
  {
    RunStep(states, steps, j - 1);
    NoHandover(states[j - 1], steps[j - 1]);
    if states[j - 1].controller != None {
      ControlIsFreeInBetween(states, steps, i, j - 1);
    }
  }

  /**
    A lease ends by the holder's own request, or after the grace sleep of a holder that went away
    and still holds it.
   */
  lemma HowALeaseEnds(s: Server, e: Step, c: nat)
    requires Enabled(s, e) && s.controller == Some(c) && Next(s, e).controller == None
    ensures || (e.Handle? && s.work.tasks[e.task].session == c && s.work.tasks[e.task].command == Release)
            || (e == Expire(c) && s.peers[c].stage.Grace? && s.now >= s.peers[c].stage.since + GRACE_SECONDS)
  {
  }

  /** The grace sleep begins only for a session that holds the lease at that moment. */
  lemma WhenGraceBegins(s: Server, e: Step, c: nat)
    requires Enabled(s, e) && c < |s.peers| && !s.peers[c].stage.Grace? && Next(s, e).peers[c].stage.Grace?
    ensures e == Closed(c) && s.controller == Some(c) && Next(s, e).peers[c].stage.since == s.now
  {
  }

  lemma StartsOfStep(s: Server, e: Step)
    requires Enabled(s, e)
    ensures var after := Next(s, e).work.started;
      || after == s.work.started
      || (e.Handle? && exists name ::
            after == s.work.started + [Started(s.work.tasks[e.task].session, name)]
            && s.controller == Some(s.work.tasks[e.task].session)
            && s.work.tasks[e.task].command == Steer(name))
  {
  }

  /** Every control command began at a step at which its session held the lease. */
  lemma {:induction false} StartsHadControl(states: seq<Server>, steps: seq<Step>, n: nat, i: nat)
    requires IsRun(states, steps) && n < |states| && i < |states[n].work.started|
    ensures var begun := states[n].work.started[i];
      exists k :: 0 <= k < n && steps[k].Handle? && steps[k].task < |states[k].work.tasks|
                  && states[k].controller == Some(begun.session) && |states[k].work.started| == i
                  && states[k].work.tasks[steps[k].task].session == begun.session
                  && states[k].work.tasks[steps[k].task].command == Steer(begun.name)
  {
    if n > 0 {
      RunStep(states, steps, n - 1);
      StartsOfStep(states[n - 1], steps[n - 1]);
      if i < |states[n - 1].work.started| {
        StartsHadControl(states, steps, n - 1, i);
      }
    }
  }

  /** A grace sleep began when its connection was closed while it held the lease. */
  lemma {:induction false} GraceBeganAtClose(states: seq<Server>, steps: seq<Step>, k: nat, c: nat)
    requires IsRun(states, steps) && k < |states| && c < |states[k].peers| && states[k].peers[c].stage.Grace?
    ensures exists j :: 0 <= j < k && steps[j] == Closed(c) && states[j].controller == Some(c)
                        && states[j].now == states[k].peers[c].stage.since
  {
    if k > 0 {
      RunStep(states, steps, k - 1);
      var s, e := states[k - 1], steps[k - 1];
      if c < |s.peers| && s.peers[c].stage.Grace? {
        GraceStays(s, e, c);
        GraceBeganAtClose(states, steps, k - 1, c);
      } else {
        GraceBegins(s, e, c);
      }
    }
  }

  lemma GraceStays(s: Server, e: Step, c: nat)
    requires Enabled(s, e) && c < |s.peers| && s.peers[c].stage.Grace?
    requires c < |Next(s, e).peers| && Next(s, e).peers[c].stage.Grace?
    ensures Next(s, e).peers[c].stage == s.peers[c].stage
  {
  }

  lemma GraceBegins(s: Server, e: Step, c: nat)
    requires Enabled(s, e) && c < |Next(s, e).peers| && Next(s, e).peers[c].stage.Grace?
    requires c < |s.peers| ==> !s.peers[c].stage.Grace?
    ensures e == Closed(c) && s.controller == Some(c) && Next(s, e).peers[c].stage.since == s.now
  {
  }

  /**
    On every run, a lease that a step takes away without the holder's asking belonged to a
    connection that was closed, holding the lease, at least five seconds before.
   */
  lemma LostLeaseHadGrace(states: seq<Server>, steps: seq<Step>, k: nat, c: nat)
    requires IsRun(states, steps) && k < |steps|
    requires states[k].controller == Some(c) && states[k + 1].controller != Some(c) && !OwnRelease(states[k], steps[k], c)
    ensures exists j :: 0 <= j < k && steps[j] == Closed(c) && states[j].controller == Some(c)
                        && states[k].now - states[j].now >= GRACE_SECONDS
  {
    RunStep(states, steps, k);
    LeaseIsNotTaken(states[k], steps[k], c);
    HowALeaseEnds(states[k], steps[k], c);
    GraceBeganAtClose(states, steps, k, c);
  }

  /** The step handles the session's own request to give the lease back. */
  predicate OwnRelease(s: Server, e: Step, c: nat) {
    && e.Handle? && e.task < |s.work.tasks|
    && s.work.tasks[e.task].session == c && s.work.tasks[e.task].command == Release
  }

  lemma LeaseIsNotTaken(s: Server, e: Step, c: nat)
    requires Enabled(s, e) && s.controller == Some(c) && Next(s, e).controller != Some(c)
    ensures Next(s, e).controller == None
  {
  }

  // ---------------------------------------------------------------- leases nobody can end

  /** The lease belongs to a connection whose cleanup is over. */
  predicate Orphaned(s: Server) {
    s.controller.Some? && At(s, s.controller.value, Gone)
  }

  /** A handler takes the lease for a connection whose cleanup is over. */
  predicate LateAcquire(s: Server, e: Step) {
    && Enabled(s, e) && e.Handle?
    && s.work.tasks[e.task].command == Acquire
    && At(s, s.work.tasks[e.task].session, Gone)
    && s.controller in {None, Some(s.work.tasks[e.task].session)}
  }

  lemma OrphanStep(s: Server, e: Step)
    requires Inv(s) && Enabled(s, e)
    ensures !Orphaned(s) && Orphaned(Next(s, e)) ==> LateAcquire(s, e)
    ensures LateAcquire(s, e) ==> Orphaned(Next(s, e))
  {
    hide PeersOk, TasksOk, CastsOk, StartedOk;
  }

  ghost predicate SomeLateAcquire(states: seq<Server>, steps: seq<Step>, n: nat)
    requires n <= |steps| < |states|
  {
    exists k :: 0 <= k < n && LateAcquire(states[k], steps[k])
  }

  /** A lease is orphaned at some point exactly if some handler came that late. */
  lemma OrphanedIffLateAcquire(states: seq<Server>, steps: seq<Step>)
    requires IsRun(states, steps)
    ensures (exists k :: 0 <= k < |states| && Orphaned(states[k])) <==> SomeLateAcquire(states, steps, |steps|)
  {
    if SomeLateAcquire(states, steps, |steps|) {
      var k :| 0 <= k < |steps| && LateAcquire(states[k], steps[k]);
      RunStep(states, steps, k);
      RunKeeps(states, steps, k);
      OrphanStep(states[k], steps[k]);
      assert Orphaned(states[k + 1]);
    }
    if k :| 0 <= k < |states| && Orphaned(states[k]) {
      OrphanNeedsLateAcquire(states, steps, k);
    }
  }

  lemma {:induction false} OrphanNeedsLateAcquire(states: seq<Server>, steps: seq<Step>, n: nat)
    requires IsRun(states, steps) && n < |states| && Orphaned(states[n])
    ensures SomeLateAcquire(states, steps, n)
  {
    if n > 0 {
      RunStep(states, steps, n - 1);
      RunKeeps(states, steps, n - 1);
      OrphanStep(states[n - 1], steps[n - 1]);
      if Orphaned(states[n - 1]) {
        OrphanNeedsLateAcquire(states, steps, n - 1);
      }
    }
  }

  // ---------------------------------------------------------------- runs, step by step

  lemma Grow(states: seq<Server>, steps: seq<Step>, e: Step) returns (states': seq<Server>, steps': seq<Step>)
    requires IsRun(states, steps) && Enabled(states[|steps|], e)
    ensures IsRun(states', steps') && |steps'| == |steps| + 1 && states'[..|states|] == states
    ensures steps' == steps + [e] && states'[|steps'|] == Next(states[|steps|], e)
  {
    states', steps' := states + [Next(states[|steps|], e)], steps + [e];
    forall k, l | 0 <= k < |steps'| && l == k + 1
      ensures Leads(states'[k], steps'[k], states'[l])
    {
      if k < |steps| {
        assert Leads(states[k], steps[k], states[l]);
      }
    }
  }

  /** One more client connects and is welcomed. */
  lemma Welcomes(states: seq<Server>, steps: seq<Step>) returns (states': seq<Server>, steps': seq<Step>)
    requires IsRun(states, steps)
    ensures IsRun(states', steps') && |steps'| == |steps| + 3
    ensures var s := states[|steps|];
      states'[|steps'|] == s.(peers := s.peers + [Peer(Informed, [Hello(s.controller), Status])])
  {
    var s := states[|steps|];
    var p := |s.peers|;
    states', steps' := Grow(states, steps, Connect);
    var a := states'[|steps'|];
    states', steps' := Grow(states', steps', Greet(p));
    var b := states'[|steps'|];
    assert [] + [Hello(s.controller)] == [Hello(s.controller)];
    assert b.peers == s.peers + [Peer(Greeted, [Hello(s.controller)])];
    states', steps' := Grow(states', steps', Inform(p));
    assert [Hello(s.controller)] + [Status] == [Hello(s.controller), Status];
    assert states'[|steps'|].peers == s.peers + [Peer(Informed, [Hello(s.controller), Status])];
  }

  const WELCOME: seq<Message> := [Hello(None), Status]

  /** The first client is registered and asks for control. */
  lemma FirstClient() returns (states: seq<Server>, steps: seq<Step>)
    ensures IsRun(states, steps) && |steps| == 5
    ensures states[5] == Server([Peer(Serving, WELCOME)], {0}, None, 0.0, Work([Task(0, Acquire, false)], [], []))
  {
    states, steps := Welcomes([INITIAL], []);
    states, steps := Grow(states, steps, Enter(0));
    assert WELCOME + [] == WELCOME;
    assert states[|steps|] == Server([Peer(Serving, WELCOME)], {0}, None, 0.0, Work([], [], []));
    states, steps := Grow(states, steps, Request(0, Acquire));
  }

  /** A run that leaves the lease to nobody: the connection is closed before its handler begins. */
  lemma LateAcquireRun() returns (states: seq<Server>, steps: seq<Step>)
    ensures IsRun(states, steps) && |steps| == 8
    ensures LateAcquire(states[7], steps[7]) && Orphaned(states[8]) && NoRelease(states[8], 0)
  {
    hide IsRun;
    states, steps := FirstClient();
    states, steps := Grow(states, steps, Disconnect(0));
    assert states[6].peers[0].stage == Closing && states[6].controller == None;
    states, steps := Grow(states, steps, Closed(0));
    assert states[7].peers[0].stage == Gone && states[7].controller == None;
    states, steps := Grow(states, steps, Handle(0));
  }

  /** No handler of the session is left that could give the lease back. */
  predicate NoRelease(s: Server, c: nat) {
    forall t :: 0 <= t < |s.work.tasks| && s.work.tasks[t].session == c && s.work.tasks[t].command == Release ==>
      s.work.tasks[t].done
  }

  lemma OrphanStays(s: Server, e: Step, c: nat)
    requires Enabled(s, e) && s.controller == Some(c) && At(s, c, Gone) && NoRelease(s, c)
    ensures var t := Next(s, e);
      t.controller == Some(c) && At(t, c, Gone) && NoRelease(t, c)
  {
  }

  /** From then on nobody else can take control, whatever happens. */
  lemma {:induction false} OrphanIsForever(states: seq<Server>, steps: seq<Step>, k: nat, l: nat, c: nat)
    requires IsRun(states, steps) && k <= l < |states|
    requires states[k].controller == Some(c) && At(states[k], c, Gone) && NoRelease(states[k], c)
    ensures states[l].controller == Some(c) && At(states[l], c, Gone) && NoRelease(states[l], c)
  {
    if k < l {
      OrphanIsForever(states, steps, k, l - 1, c);
      RunStep(states, steps, l - 1);
      OrphanStays(states[l - 1], steps[l - 1], c);
    }
  }

  // ---------------------------------------------------------------- what the clients believe

  /** Who controls, as the last message on a wire that says so has it. */
  function View(wire: seq<Message>): Option<Option<nat>> {
    if wire == [] then None
    else
      match wire[|wire| - 1]
      case Hello(c) => Some(c)
      case Control(c) => Some(c)
      case _ => View(wire[..|wire| - 1])
  }

  lemma ViewSnoc(wire: seq<Message>, m: Message)
    ensures View(wire + [m]) == if m.Hello? || m.Control? then Some(m.controller) else View(wire)
  {
    assert (wire + [m])[..|wire|] == wire;
  }

  /** A connection that counts on being told. */
  predicate Listening(stage: Stage) {
    stage in {Greeted, Informed, Serving}
  }

  predicate Telling(s: Server, i: nat, p: nat) {
    i < |s.work.casts| && s.work.casts[i].message == Control(s.controller) && p in s.work.casts[i].rest
  }

  /** Some broadcast is still on its way to p. */
  predicate Awaiting(s: Server, p: nat) {
    exists i :: 0 <= i < |s.work.casts| && p in s.work.casts[i].rest
  }

  ghost predicate Told(s: Server, p: nat)
    requires p < |s.peers|
  {
    View(s.peers[p].wire) == Some(s.controller) || exists i: nat :: Telling(s, i, p)
  }

  /** What is on its way to a client that is served is current, and whoever does not know the controller will be told. */
  ghost predicate UpToDate(s: Server) {
    && (forall i: nat, p: nat :: !Misleading(s, i, p, s.controller))
    && (forall p: nat :: p < |s.peers| && Listening(s.peers[p].stage) ==> Told(s, p))
  }

  /** Broadcast i is on its way to client p, who is being served, and names another controller than c. */
  predicate Misleading(s: Server, i: nat, p: nat, c: Option<nat>) {
    && i < |s.work.casts| && s.work.casts[i].message.Control? && p in s.work.casts[i].rest && At(s, p, Serving)
    && s.work.casts[i].message != Control(c)
  }

  /** A step that neither changes the controller nor writes to p leaves p told. */
  lemma StillTold(s: Server, t: Server, p: nat)
    requires p < |s.peers| && p < |t.peers| && t.controller == s.controller
    requires View(t.peers[p].wire) == View(s.peers[p].wire)
    requires |s.work.casts| <= |t.work.casts|
    requires forall i :: 0 <= i < |s.work.casts| && p in s.work.casts[i].rest ==>
               t.work.casts[i].message == s.work.casts[i].message && p in t.work.casts[i].rest
    requires Told(s, p)
    ensures Told(t, p)
  {
    if View(s.peers[p].wire) != Some(s.controller) {
      var i: nat :| Telling(s, i, p);
      assert Telling(t, i, p);
    }
  }

  lemma StageBefore(s: Server, e: Step, p: nat)
    requires Inv(s) && Enabled(s, e) && Next(s, e).controller == s.controller
    requires p < |Next(s, e).peers| && Listening(Next(s, e).peers[p].stage)
    requires !(e.Greet? && e.peer == p) && !(e.Deliver? && e.peer == p)
    ensures p < |s.peers| && Listening(s.peers[p].stage)
    ensures View(Next(s, e).peers[p].wire) == View(s.peers[p].wire)
    ensures forall i :: 0 <= i < |s.work.casts| && p in s.work.casts[i].rest ==>
              Next(s, e).work.casts[i].message == s.work.casts[i].message && p in Next(s, e).work.casts[i].rest
  {
    hide PeersOk, WorkOk;
    if e.Inform? && e.peer == p {
      ViewSnoc(s.peers[p].wire, Status);
    } else {
      assert s.peers[p].wire + [] == s.peers[p].wire;
    }
  }

  lemma DeliverTells(s: Server, i: nat, p: nat)
    requires CastsOk(s) && UpToDate(s) && Enabled(s, Deliver(i, p)) && Listening(s.peers[p].stage)
    ensures Told(Next(s, Deliver(i, p)), p)
  {
    var t := Next(s, Deliver(i, p));
    var m := s.work.casts[i].message;
    assert Known(s, p);
    assert !Misleading(s, i, p, s.controller);
    ViewSnoc(s.peers[p].wire, m);
    if View(t.peers[p].wire) != Some(s.controller) {
      assert m.Event?;
      var j: nat :| Telling(s, j, p);
      assert Telling(t, j, p);
    }
  }

  lemma ToldAfter(s: Server, e: Step, p: nat)
    requires Inv(s) && UpToDate(s) && Enabled(s, e) && Next(s, e).controller == s.controller
    requires p < |Next(s, e).peers| && Listening(Next(s, e).peers[p].stage)
    ensures Told(Next(s, e), p)
  {
    hide PeersOk, CastsOk, TasksOk, StartedOk, HolderOk;
    var t := Next(s, e);
    if e.Greet? && e.peer == p {
      ViewSnoc(s.peers[p].wire, Hello(s.controller));
    } else if e.Deliver? && e.peer == p {
      DeliverTells(s, e.cast, p);
    } else {
      StageBefore(s, e, p);
      StillTold(s, t, p);
    }
  }

  lemma NotMisled(s: Server, e: Step, i: nat, p: nat)
    requires Inv(s) && UpToDate(s) && Enabled(s, e) && Next(s, e).controller == s.controller
    ensures !Misleading(Next(s, e), i, p, s.controller)
  {
    hide PeersOk, TasksOk, StartedOk, HolderOk, Told;
    assert !Misleading(s, i, p, s.controller);
    assert i < |s.work.casts| && p in s.work.casts[i].rest ==> Known(s, p);
  }

  /** As long as the controller does not change, that stays so. */
  lemma UpToDateStep(s: Server, e: Step)
    requires Inv(s) && UpToDate(s) && Enabled(s, e) && Next(s, e).controller == s.controller
    ensures UpToDate(Next(s, e))
  {
    forall p: nat | p < |Next(s, e).peers| && Listening(Next(s, e).peers[p].stage)
      ensures Told(Next(s, e), p)
    {
      ToldAfter(s, e, p);
    }
    forall i: nat, p: nat
      ensures !Misleading(Next(s, e), i, p, s.controller)
    {
      NotMisled(s, e, i, p);
    }
  }

  // ---------------------------------------------------------------- continuations

  /** Steps that can happen one after the other from s on and do not change the controller. */
  predicate QuietRun(s: Server, steps: seq<Step>)
    decreases |steps|, 0
  {
    steps == [] ||
    var n := |steps| - 1;
    && QuietRun(s, steps[..n]) && Enabled(Played(s, steps[..n]), steps[n])
    && Next(Played(s, steps[..n]), steps[n]).controller == s.controller
  }

  function Played(s: Server, steps: seq<Step>): Server
    requires QuietRun(s, steps)
    decreases |steps|, 1
  {
    if steps == [] then s else Next(Played(s, steps[..|steps| - 1]), steps[|steps| - 1])
  }

  lemma PlayedSnoc(s: Server, steps: seq<Step>, e: Step)
    requires QuietRun(s, steps) && Enabled(Played(s, steps), e) && Next(Played(s, steps), e).controller == s.controller
    ensures QuietRun(s, steps + [e]) && Played(s, steps + [e]) == Next(Played(s, steps), e)
  {
    hide Enabled, Next;
    assert (steps + [e])[..|steps|] == steps;
  }

  /** Whoever is connected and has nothing on its way to it believes what is true. */
  ghost predicate AllRight(s: Server) {
    forall p: nat :: p < |s.peers| && p in s.sessions && !Awaiting(s, p) ==> View(s.peers[p].wire) == Some(s.controller)
  }

  /** And so it stays, whatever happens, until the controller changes. */
  ghost predicate StaysRight(s: Server) {
    forall steps :: QuietRun(s, steps) ==> AllRight(Played(s, steps))
  }

  lemma UpToDateIsRight(s: Server)
    requires Inv(s) && UpToDate(s)
    ensures AllRight(s)
  {
    forall p: nat | p < |s.peers| && p in s.sessions && !Awaiting(s, p)
      ensures View(s.peers[p].wire) == Some(s.controller)
    {
      PeerAt(s, p);
      assert Told(s, p);
    }
  }

  lemma {:induction false} PlayedUpToDate(s: Server, steps: seq<Step>)
    requires Inv(s) && UpToDate(s) && QuietRun(s, steps)
    ensures Inv(Played(s, steps)) && UpToDate(Played(s, steps)) && Played(s, steps).controller == s.controller
  {
    hide Inv, UpToDate, Enabled, Next;
    if steps != [] {
      var n := |steps| - 1;
      PlayedUpToDate(s, steps[..n]);
      InvariantStep(Played(s, steps[..n]), steps[n]);
      UpToDateStep(Played(s, steps[..n]), steps[n]);
    }
  }

  /** What delivering broadcasts to p leaves alone. */
  predicate Drained(s: Server, t: Server, p: nat, k: nat, skip: int) {
    && t.controller == s.controller && At(t, p, Serving) && p in t.sessions
    && |t.work.casts| == |s.work.casts| && k <= |s.work.casts|
    && (forall i :: 0 <= i < |s.work.casts| ==> t.work.casts[i].message == s.work.casts[i].message)
    && (forall i :: 0 <= i < k && i != skip ==> p !in t.work.casts[i].rest)
    && (forall i :: 0 <= i < |s.work.casts| && (k <= i || i == skip) ==>
          (p in t.work.casts[i].rest <==> p in s.work.casts[i].rest))
  }

  /** None of the first k broadcasts that are on their way to p says who controls. */
  predicate NoneSaysWho(s: Server, p: nat, k: nat) {
    forall i :: 0 <= i < k && i < |s.work.casts| && p in s.work.casts[i].rest ==> !s.work.casts[i].message.Control?
  }

  /** These steps deliver the first k broadcasts to p, all but one of them if need be. */
  ghost predicate Drains(s: Server, steps: seq<Step>, p: nat, k: nat, skip: int)
    requires p < |s.peers|
  {
    && QuietRun(s, steps) && Inv(Played(s, steps)) && Drained(s, Played(s, steps), p, k, skip)
    && (NoneSaysWho(s, p, k) ==> View(Played(s, steps).peers[p].wire) == View(s.peers[p].wire))
  }

  /** The first k broadcasts can be delivered to a client that is served, all but one of them if need be. */
  lemma {:induction false} Drain(s: Server, p: nat, k: nat, skip: int) returns (steps: seq<Step>)
    requires Inv(s) && At(s, p, Serving) && k <= |s.work.casts|
    ensures p < |s.peers| && Drains(s, steps, p, k, skip)
    decreases k
  {
    assert p < |s.peers|;
    hide *;
    if k == 0 {
      steps := [];
      NothingDrained(s, p, skip);
    } else {
      steps := Drain(s, p, k - 1, skip);
      steps := DrainOne(s, p, k, skip, steps);
    }
  }

  lemma NothingDrained(s: Server, p: nat, skip: int)
    requires Inv(s) && p < |s.peers| && At(s, p, Serving)
    ensures Drains(s, [], p, 0, skip)
  {
    PeerAt(s, p);
    hide PeersOk, WorkOk;
  }

  lemma DrainOne(s: Server, p: nat, k: nat, skip: int, steps: seq<Step>) returns (more: seq<Step>)
    requires p < |s.peers| && 1 <= k <= |s.work.casts| && Drains(s, steps, p, k - 1, skip)
    ensures Drains(s, more, p, k, skip)
  {
    var t := Played(s, steps);
    FewerSayWho(s, p, k);
    SameRest(s, t, p, k, skip);
    hide Inv, View, QuietRun, Played, Enabled, Next, Drained, NoneSaysWho;
    if k - 1 != skip && p in t.work.casts[k - 1].rest {
      DeliverDrains(s, t, p, k, skip);
      InvariantStep(t, Deliver(k - 1, p));
      KeepsController(s, t, p, k, skip);
      PlayedSnoc(s, steps, Deliver(k - 1, p));
      more := steps + [Deliver(k - 1, p)];
    } else {
      SkipDrains(s, t, p, k, skip);
      more := steps;
    }
  }

  lemma FewerSayWho(s: Server, p: nat, k: nat)
    requires 1 <= k <= |s.work.casts|
    ensures NoneSaysWho(s, p, k) ==>
      NoneSaysWho(s, p, k - 1) && (p in s.work.casts[k - 1].rest ==> !s.work.casts[k - 1].message.Control?)
  {
  }

  lemma SameRest(s: Server, t: Server, p: nat, k: nat, skip: int)
    requires 1 <= k <= |s.work.casts| && Drained(s, t, p, k - 1, skip)
    ensures |t.work.casts| == |s.work.casts| && (p in t.work.casts[k - 1].rest <==> p in s.work.casts[k - 1].rest)
  {
  }

  lemma KeepsController(s: Server, t: Server, p: nat, k: nat, skip: int)
    requires 1 <= k && Enabled(t, Deliver(k - 1, p)) && Drained(s, Next(t, Deliver(k - 1, p)), p, k, skip)
    ensures Next(t, Deliver(k - 1, p)).controller == s.controller
  {
  }

  lemma SkipDrains(s: Server, t: Server, p: nat, k: nat, skip: int)
    requires 1 <= k <= |s.work.casts| && Drained(s, t, p, k - 1, skip)
    requires k - 1 == skip || p !in t.work.casts[k - 1].rest
    ensures Drained(s, t, p, k, skip)
  {
  }

  lemma DeliverDrains(s: Server, t: Server, p: nat, k: nat, skip: int)
    requires Inv(t) && 1 <= k && Drained(s, t, p, k - 1, skip) && k <= |s.work.casts| && k - 1 != skip
    requires p in t.work.casts[k - 1].rest
    ensures Enabled(t, Deliver(k - 1, p)) && Drained(s, Next(t, Deliver(k - 1, p)), p, k, skip)
    ensures !s.work.casts[k - 1].message.Control? ==>
              View(Next(t, Deliver(k - 1, p)).peers[p].wire) == View(t.peers[p].wire)
  {
    hide PeersOk, TasksOk, StartedOk, HolderOk;
    ViewSnoc(t.peers[p].wire, t.work.casts[k - 1].message);
  }

  /** A misleading broadcast can be the last that its client gets. */
  lemma MisleadingMisleads(s: Server, i: nat, p: nat)
    requires Inv(s) && Misleading(s, i, p, s.controller)
    ensures !StaysRight(s)
  {
    var steps := Drain(s, p, |s.work.casts|, i);
    var t := Played(s, steps);
    var e := Deliver(i, p);
    ViewSnoc(t.peers[p].wire, t.work.casts[i].message);
    PlayedSnoc(s, steps, e);
    var u := Played(s, steps + [e]);
    assert !Awaiting(u, p) && p in u.sessions && View(u.peers[p].wire) != Some(u.controller);
    assert !AllRight(u);
  }

  /** A client that does not know the controller and that nobody is telling stays wrong. */
  lemma UntoldStaysWrong(s: Server, p: nat)
    requires Inv(s) && At(s, p, Serving) && !Told(s, p)
    requires forall i: nat :: !Misleading(s, i, p, s.controller)
    ensures !StaysRight(s)
  {
    forall i | 0 <= i < |s.work.casts| && p in s.work.casts[i].rest
      ensures !s.work.casts[i].message.Control?
    {
      assert !Misleading(s, i, p, s.controller) && !Telling(s, i, p);
    }
    var steps := Drain(s, p, |s.work.casts|, -1);
    var t := Played(s, steps);
    assert !Awaiting(t, p) && p in t.sessions && View(t.peers[p].wire) != Some(t.controller);
    assert !AllRight(t);
  }

  /** A client that enters with an outdated hello is wrong from the start. */
  lemma NewcomerStaysWrong(s: Server, p: nat)
    requires Inv(s) && (At(s, p, Greeted) || At(s, p, Informed)) && View(s.peers[p].wire) != Some(s.controller)
    ensures !StaysRight(s)
  {
    if At(s, p, Greeted) {
      ViewSnoc(s.peers[p].wire, Status);
      InvariantStep(s, Inform(p));
      PlayedSnoc(s, [], Inform(p));
      EntersWrong(s, [] + [Inform(p)], p);
    } else {
      EntersWrong(s, [], p);
    }
  }

  lemma EntersWrong(s: Server, steps: seq<Step>, p: nat)
    requires QuietRun(s, steps)
    requires var t := Played(s, steps);
      && Inv(t) && At(t, p, Informed) && t.controller == s.controller && View(t.peers[p].wire) != Some(t.controller)
    ensures !StaysRight(s)
  {
    var t := Played(s, steps);
    PlayedSnoc(s, steps, Enter(p));
    hide QuietRun, Played, PeersOk, TasksOk, StartedOk, HolderOk;
    var u := Next(t, Enter(p));
    assert !Known(t, p);
    assert t.peers[p].wire + [] == t.peers[p].wire;
    assert !Awaiting(u, p) && p in u.sessions && View(u.peers[p].wire) != Some(u.controller);
    assert u == Played(s, steps + [Enter(p)]) && !AllRight(u);
  }

  lemma NobodyTellsNewcomers(s: Server, p: nat)
    requires Inv(s) && (At(s, p, Greeted) || At(s, p, Informed))
    ensures Told(s, p) <==> View(s.peers[p].wire) == Some(s.controller)
  {
    assert !Known(s, p);
  }

  /**
    Exactly when every client is bound to learn who controls: whatever happens, once nothing is on
    its way to a client it is right, if and only if nothing misleading is on its way to a client
    that is served, and every client that listens knows already or is being told.
   */
  lemma StaysRightIff(s: Server)
    requires Inv(s)
    ensures StaysRight(s) <==> UpToDate(s)
  {
    if UpToDate(s) {
      forall steps | QuietRun(s, steps)
        ensures AllRight(Played(s, steps))
      {
        PlayedUpToDate(s, steps);
        UpToDateIsRight(Played(s, steps));
      }
    } else if i: nat, p: nat :| Misleading(s, i, p, s.controller) {
      MisleadingMisleads(s, i, p);
    } else {
      var p: nat :| p < |s.peers| && Listening(s.peers[p].stage) && !Told(s, p);
      if At(s, p, Serving) {
        UntoldStaysWrong(s, p);
      } else {
        NobodyTellsNewcomers(s, p);
        NewcomerStaysWrong(s, p);
      }
    }
  }

  /** Nobody who listens between hello and registration, or is being told, believes anything but c. */
  predicate Clear(s: Server, c: Option<nat>) {
    && (forall p :: 0 <= p < |s.peers| && s.peers[p].stage in {Greeted, Informed} ==> View(s.peers[p].wire) == Some(c))
    && (forall i :: 0 <= i < |s.work.casts| && s.work.casts[i].message.Control? && s.work.casts[i].message != Control(c) ==>
          forall p :: p in s.work.casts[i].rest ==> !At(s, p, Serving))
  }

  /**
    A change of the controller is bound to be learnt by every client if and only if, when it
    happens, no client between hello and registration was told otherwise, and no broadcast on its
    way to a client that is served says otherwise.
   */
  lemma ChangeIsLearntIff(s: Server, e: Step)
    requires Inv(s) && Enabled(s, e) && Next(s, e).controller != s.controller
    ensures StaysRight(Next(s, e)) <==> Clear(s, Next(s, e).controller)
  {
    InvariantStep(s, e);
    StaysRightIff(Next(s, e));
    ChangeUpToDateIff(s, e);
  }

  lemma ChangeUpToDateIff(s: Server, e: Step)
    requires Inv(s) && Enabled(s, e) && Next(s, e).controller != s.controller
    ensures UpToDate(Next(s, e)) <==> Clear(s, Next(s, e).controller)
  {
    InvariantStep(s, e);
    var t := Next(s, e);
    ChangeKeeps(s, e);
    if UpToDate(t) {
      ClearBefore(s, e);
    }
    if Clear(s, t.controller) {
      UpToDateAfter(s, e);
    }
  }

  /** A change leaves every listening client where it is, and tells exactly the registered ones. */
  lemma ChangeKeeps(s: Server, e: Step)
    requires Inv(s) && Enabled(s, e) && Next(s, e).controller != s.controller
    ensures var t := Next(s, e);
      && |t.peers| == |s.peers| && t.sessions == s.sessions
      && t.work.casts == s.work.casts + [Cast(Control(t.controller), s.sessions)]
      && forall p :: 0 <= p < |s.peers| ==>
           (t.peers[p] == s.peers[p] || (!Listening(t.peers[p].stage) && !Listening(s.peers[p].stage)))
  {
    hide PeersOk, WorkOk;
  }

  lemma ClearBefore(s: Server, e: Step)
    requires Inv(s) && Enabled(s, e) && Next(s, e).controller != s.controller && UpToDate(Next(s, e))
    ensures Clear(s, Next(s, e).controller)
  {
    var t := Next(s, e);
    InvariantStep(s, e);
    ChangeKeeps(s, e);
    hide Next, Enabled;
    forall p: nat | p < |s.peers| && s.peers[p].stage in {Greeted, Informed}
      ensures View(s.peers[p].wire) == Some(t.controller)
    {
      NobodyTellsNewcomers(t, p);
    }
    forall i: nat, p: nat | i < |s.work.casts| && s.work.casts[i].message.Control?
        && s.work.casts[i].message != Control(t.controller) && p in s.work.casts[i].rest
      ensures !At(s, p, Serving)
    {
      assert !Misleading(t, i, p, t.controller);
    }
  }

  lemma UpToDateAfter(s: Server, e: Step)
    requires Inv(s) && Enabled(s, e) && Next(s, e).controller != s.controller && Clear(s, Next(s, e).controller)
    ensures UpToDate(Next(s, e))
  {
    var t := Next(s, e);
    InvariantStep(s, e);
    ChangeKeeps(s, e);
    hide Next, Enabled;
    forall p: nat | p < |t.peers| && Listening(t.peers[p].stage)
      ensures Told(t, p)
    {
      if At(t, p, Serving) {
        PeerAt(s, p);
        assert Telling(t, |s.work.casts|, p);
      }
    }
  }

  /** If every change of the controller happens like that, every client is right as soon as it can be. */
  lemma {:induction false} ClientsKnowTheController(states: seq<Server>, steps: seq<Step>, k: nat)
    requires IsRun(states, steps) && k < |states|
    requires forall i, j :: 0 <= i && i + 1 == j <= k && states[j].controller != states[i].controller ==>
               Clear(states[i], states[j].controller)
    ensures UpToDate(states[k]) && StaysRight(states[k])
  {
    RunKeeps(states, steps, k);
    if k > 0 {
      ClientsKnowTheController(states, steps, k - 1);
      RunStep(states, steps, k - 1);
      RunKeeps(states, steps, k - 1);
      if states[k].controller == states[k - 1].controller {
        UpToDateStep(states[k - 1], steps[k - 1]);
      } else {
        UpToDateAfter(states[k - 1], steps[k - 1]);
      }
    }
    StaysRightIff(states[k]);
  }

  /** Of two announcements on their way to a client, the one that is delivered last is believed. */
  lemma OlderBroadcastWins(s: Server, older: nat, newer: nat, p: nat)
    requires Inv(s) && p < |s.peers| && older < |s.work.casts| && newer < |s.work.casts| && older != newer
    requires p in s.work.casts[older].rest && p in s.work.casts[newer].rest
    requires s.work.casts[older].message.Control? && s.work.casts[newer].message == Control(s.controller)
    ensures Enabled(s, Deliver(newer, p)) && Enabled(Next(s, Deliver(newer, p)), Deliver(older, p))
    ensures var t := Next(Next(s, Deliver(newer, p)), Deliver(older, p));
      View(t.peers[p].wire) == Some(t.controller) <==> s.work.casts[older].message.controller == s.controller
  {
    hide PeersOk, WorkOk;
    var t := Next(s, Deliver(newer, p));
    ViewSnoc(t.peers[p].wire, s.work.casts[older].message);
  }

  /** And a change between a client's hello and its entry is never told to it. */
  lemma ChangeBeforeEntryIsMissed(s: Server, e: Step, p: nat)
    requires Inv(s) && Enabled(s, e) && At(s, p, Informed) && Next(s, e).controller != s.controller
    requires At(Next(s, e), p, Informed)
    ensures var t := Next(s, e);
      !Awaiting(t, p) && View(t.peers[p].wire) == View(s.peers[p].wire)
  {
    InvariantStep(s, e);
    assert !Known(Next(s, e), p);
    hide PeersOk, WorkOk;
  }

  /**
    Two announcements overtake each other: client 0 takes and returns the lease, and client 1, which
    gets the older announcement last, believes for good that client 0 controls.
   */
  lemma OvertakingRun() returns (states: seq<Server>, steps: seq<Step>)
    ensures IsRun(states, steps)
    ensures var s := states[|steps|];
      && s.controller == None && 1 in s.sessions && !Awaiting(s, 1)
      && |s.peers| == 2 && View(s.peers[1].wire) == Some(Some(0))
  {
    hide IsRun;
    states, steps := TwoAnnouncements();
    states, steps := Grow(states, steps, Deliver(1, 1));
    var before := states[|steps|];
    assert {0, 1} - {1} == {0};
    assert before.work.casts == [Cast(Control(Some(0)), {0, 1}), Cast(Control(None), {0})];
    states, steps := Grow(states, steps, Deliver(0, 1));
    assert states[|steps|].work.casts == [Cast(Control(Some(0)), {0}), Cast(Control(None), {0})];
    ViewSnoc(before.peers[1].wire, Control(Some(0)));
  }

  /** Both announcements are on their way to both clients. */
  lemma TwoAnnouncements() returns (states: seq<Server>, steps: seq<Step>)
    ensures IsRun(states, steps)
    ensures var s := states[|steps|];
      && s.controller == None && s.sessions == {0, 1}
      && s.peers == [Peer(Serving, WELCOME), Peer(Serving, WELCOME)]
      && s.work.casts == [Cast(Control(Some(0)), {0, 1}), Cast(Control(None), {0, 1})]
  {
    hide IsRun;
    states, steps := FirstClient();
    states, steps := Welcomes(states, steps);
    states, steps := Grow(states, steps, Enter(1));
    assert WELCOME + [] == WELCOME;
    assert states[|steps|].peers == [Peer(Serving, WELCOME), Peer(Serving, WELCOME)];
    assert states[|steps|].sessions == {0, 1};
    states, steps := Grow(states, steps, Request(0, Release));
    assert states[|steps|].work.tasks == [Task(0, Acquire, false), Task(0, Release, false)];
    states, steps := Grow(states, steps, Handle(0));
    assert states[|steps|].work.casts == [Cast(Control(Some(0)), {0, 1})];
    states, steps := Grow(states, steps, Handle(1));
  }

  /** A client is told who controls, the controller changes, and only then is the client registered. */
  lemma MissedChangeRun() returns (states: seq<Server>, steps: seq<Step>)
    ensures IsRun(states, steps) && |steps| == 10
    ensures var s := states[10];
      && s.controller == Some(0) && 1 in s.sessions && !Awaiting(s, 1)
      && |s.peers| == 2 && View(s.peers[1].wire) == Some(None)
  {
    hide IsRun;
    states, steps := FirstClient();
    states, steps := Welcomes(states, steps);
    assert states[8].peers == [Peer(Serving, WELCOME), Peer(Informed, WELCOME)];
    states, steps := Grow(states, steps, Handle(0));
    assert states[9].work.casts == [Cast(Control(Some(0)), {0})];
    states, steps := Grow(states, steps, Enter(1));
    assert WELCOME + [] == WELCOME;
    ViewSnoc([Hello(None)], Status);
    assert [Hello(None)] + [Status] == WELCOME;
    ViewSnoc([], Hello(None));
    assert [] + [Hello(None)] == [Hello(None)];
  }

  // ---------------------------------------------------------------- server

  /** The part of the server that decides about control; everything else is ghost. */
  class AgentServer {
    var sessions: set<nat>
    var controllerId: Option<nat>
    ghost var peers: seq<Peer>
    ghost var now: real
    ghost var work: Work

    ghost function State(): Server
      reads this
    {
      Server(peers, sessions, controllerId, now, work)
    }

    constructor ()
      ensures State() == INITIAL
    {
      sessions, controllerId, peers, now, work := {}, None, [], 0.0, Work([], [], []);
    }

    /** The hello that a client is sent carries who controls at that moment. */
    method Welcome(p: nat) returns (hello: Message)
      requires Enabled(State(), Greet(p))
      modifies this
      ensures State() == Next(old(State()), Greet(p))
      ensures hello == Hello(controllerId) && peers[p].wire == old(peers)[p].wire + [hello]
    {
      hello := Hello(controllerId);
      peers := peers[p := Peer(Greeted, peers[p].wire + [hello])];
    }

    method Add(p: nat)
      requires Enabled(State(), Enter(p))
      modifies this
      ensures State() == Next(old(State()), Enter(p))
    {
      sessions := sessions + {p};
      peers := peers[p := Peer(Serving, peers[p].wire + [])];
    }

    method Discard(p: nat)
      requires Enabled(State(), Disconnect(p))
      modifies this
      ensures State() == Next(old(State()), Disconnect(p))
    {
      sessions := sessions - {p};
      peers := peers[p := Peer(Closing, peers[p].wire + [])];
    }

    /** Once the writer is closed: whether to sleep for the grace period. */
    method CheckHolder(p: nat) returns (sleep: bool)
      requires Enabled(State(), Closed(p))
      modifies this
      ensures State() == Next(old(State()), Closed(p))
      ensures sleep <==> peers[p].stage.Grace?
    {
      sleep := controllerId == Some(p);
      peers := peers[p := Peer(if sleep then Grace(now) else Gone, peers[p].wire + [])];
    }

    /** After the grace period: the lease ends if the session still holds it, and everybody is told. */
    method EndGrace(p: nat) returns (told: Option<Message>)
      requires Enabled(State(), Expire(p))
      modifies this
      ensures State() == Next(old(State()), Expire(p))
      ensures told == if old(controllerId) == Some(p) then Some(Control(None)) else None
    {
      told := None;
      peers := peers[p := Peer(Gone, peers[p].wire + [])];
      if controllerId == Some(p) {
        controllerId := None;
        told := Some(Control(controllerId));
        work := work.(casts := work.casts + [Cast(Control(controllerId), sessions)]);
      }
    }

    /** The first part of a handler: whether the request is granted; an unknown command raises ValueError. */
    method HandleRequest(ghost t: nat, session: nat, command: Command) returns (granted: bool)
      requires Enabled(State(), Handle(t))
      requires work.tasks[t].session == session && work.tasks[t].command == command
      modifies this
      ensures State() == Next(old(State()), Handle(t))
      ensures granted <==> match command
                           case Acquire => old(controllerId) in {None, Some(session)}
                           case Steer(_) => old(controllerId) == Some(session)
                           case Unknown(_) => false
                           case _ => true
    {
      work := work.(tasks := work.tasks[t := work.tasks[t].(done := true)]);
      granted := true;
      match command
      case Acquire =>
        if controllerId == None || controllerId == Some(session) {
          controllerId := Some(session);
          work := work.(casts := work.casts + [Cast(Control(controllerId), sessions)]);
        } else {
          granted := false;
        }
      case Release =>
        if controllerId == Some(session) {
          controllerId := None;
          work := work.(casts := work.casts + [Cast(Control(controllerId), sessions)]);
        }
      case Steer(name) =>
        if controllerId == Some(session) {
          work := work.(started := work.started + [Started(session, name)]);
        } else {
          granted := false;
        }
      case Unknown(_) =>
        granted := false;
      case Query(_) =>
    }
  }
}
