/**
 The inbound demultiplexer (`inboundDemuxServer`): the accept loop, one worker
 goroutine per connection, the HTTP queue, the HTTP server and `Shutdown`, as a
 step relation in which every lock section is one step and steps of different
 goroutines interleave freely.

 Class `DemuxServer` implements the sections guarded by the server's mutex.
 */
module InboundDemux {
  import CL = ConnListener

  type Conn = CL.Conn

  /** What the accept loop holds between `Accept` and dispatching it. */
  datatype Hand = Empty | Holds(conn: Conn)

  /**
   A worker from its registration in the wait group to its `Done`.  The last two
   phases before `Leaving` are the failure path after the sniff entry was removed,
   and after both entries were removed.
   */
  datatype Phase =
    | Registered
    | TrackedActive
    | Sniffing
    | SniffFailed
    | Sniffed
    | NoHandler
    | Unserved
    | ServingSocks
    | Enqueueing
    | Refused
    | Leaving

  datatype Shutdown =
    | NotCalled
    | FlagSet
    | OuterClosed
    | ClosingSniffed(rest: set<Conn>)
    | StoppingHttp
    | ClosingActive(left: set<Conn>)
    | Waiting
    | Returned

  /** The data guarded by the server's mutex, with the sockets closed so far. */
  datatype Server = Server(
    shuttingDown: bool,
    active: set<Conn>,
    sniffing: set<Conn>,
    closed: set<Conn>)

  /** The accept loop: whether `Serve` has started, its listener is open, the loop has
      ended, and the connection in its hand. */
  datatype AcceptLoop = AcceptLoop(serving: bool, outerOpen: bool, ended: bool, hand: Hand)

  /** The HTTP side: the queue, the connections `Close` took out of it, those the HTTP
      server has accepted, and whether its goroutine has registered the queue. */
  datatype HttpSide = HttpSide(l: CL.Listener, dropping: seq<Conn>, served: set<Conn>, registered: bool)

  /** `Shutdown`: where it is, whether it set its flag before `Serve` had started, and
      whether it reached `http.Server.Shutdown` before the queue was registered. */
  datatype Stopping = Stopping(at: Shutdown, unserved: bool, unregistered: bool)

  /** `released` are the connections nobody serves any more and `viaSocks` those handed to
      the SOCKS5 handler. */
  datatype State = State(
    next: nat,
    accept: AcceptLoop,
    srv: Server,
    workers: map<Conn, Phase>,
    side: HttpSide,
    released: set<Conn>,
    viaSocks: set<Conn>,
    stop: Stopping)

  function Init(): State {
    State(0, AcceptLoop(false, false, false, Empty), Server(false, {}, {}, {}), map[],
          HttpSide(CL.Listener([], false), [], {}, false), {}, {}, Stopping(NotCalled, false, false))
  }

  // ---------------------------------------------------------------------------
  // The sections under the server's mutex

  /** A worker is registered only while no shutdown has begun. */
  predicate MayStartWorker(srv: Server) {
    !srv.shuttingDown
  }

  function TrackActive(srv: Server, c: Conn): Server {
    srv.(active := srv.active + {c})
  }

  function UntrackActive(srv: Server, c: Conn): Server {
    srv.(active := srv.active - {c})
  }

  function TrackSniff(srv: Server, c: Conn): Server {
    srv.(sniffing := srv.sniffing + {c})
  }

  function UntrackSniff(srv: Server, c: Conn): Server {
    srv.(sniffing := srv.sniffing - {c})
  }

  function CloseSocket(srv: Server, c: Conn): Server {
    srv.(closed := srv.closed + {c})
  }

  class DemuxServer {
    var shuttingDown: bool
    var active: set<Conn>
    var sniffing: set<Conn>
    var closed: set<Conn>
    var workerCount: nat

    ghost function Value(): Server
      reads this
    {
      Server(shuttingDown, active, sniffing, closed)
    }

    constructor ()
      ensures Value() == Server(false, {}, {}, {}) && workerCount == 0
    {
      shuttingDown, active, sniffing, closed, workerCount := false, {}, {}, {}, 0;
    }

    method TryStartConnWorker() returns (started: bool)
      modifies this`workerCount
      ensures started <==> MayStartWorker(Value())
      ensures workerCount == old(workerCount) + (if started then 1 else 0)
    {
      if shuttingDown {
        return false;
      }
      workerCount := workerCount + 1;
      started := true;
    }

    method TrackActiveConn(c: Conn)
      modifies this`active
      ensures Value() == TrackActive(old(Value()), c)
    {
      active := active + {c};
    }

    method UntrackActiveConn(c: Conn)
      modifies this`active
      ensures Value() == UntrackActive(old(Value()), c)
    {
      active := active - {c};
    }

    /** Every tracked connection ends up closed and no other one does; the set starts
        afresh. */
    method CloseActiveConns()
      modifies this`active, this`closed
      ensures active == {} && closed == old(closed) + old(active)
    {
      var conns := active;
      active := {};
      while conns != {}
        invariant active == {} && conns <= old(active)
        invariant closed == old(closed) + (old(active) - conns)
        decreases conns
      {
        var c :| c in conns;
        closed := closed + {c};
        conns := conns - {c};
      }
    }

    method CloseSniffConns()
      modifies this`sniffing, this`closed
      ensures sniffing == {} && closed == old(closed) + old(sniffing)
    {
      var conns := sniffing;
      sniffing := {};
      while conns != {}
        invariant sniffing == {} && conns <= old(sniffing)
        invariant closed == old(closed) + (old(sniffing) - conns)
        decreases conns
      {
        var c :| c in conns;
        closed := closed + {c};
        conns := conns - {c};
      }
    }
  }

  // ---------------------------------------------------------------------------
  // Steps

  datatype LoopStep =
    | ServeStarts
    | LoopAccepts
    | LoopDispatches
    | LoopEnds

  datatype WorkerStep =
    | Tracks
    | TracksSniff
    | PeekFails
    | PeekSucceeds
    | UntracksFailedSniff
    | StartsSocks
    | LacksSocks
    | UntracksUnserved
    | ClosesUnserved
    | SocksReturns(closes: bool)
    | StartsEnqueue
    | EnqueueSucceeds
    | EnqueueFails
    | ClosesRefused
    | Panics
    | Exits

  datatype HttpStep =
    | Registers
    | HttpAccepts
    | HttpCloses(conn: Conn)
    | ListenerCloses
    | ClosesDropped

  datatype ShutdownStep =
    | SetsFlag
    | ClosesOuter
    | SnapshotsSniffing
    | ClosesSniffed(conn: Conn)
    | StartsHttpShutdown
    | HttpShutdownReturns
    | ClosesActive(conn: Conn)
    | StartsWait
    | TimesOut
    | WaitReturns

  datatype Step =
    | Loop(loop: LoopStep)
    | Worker(c: Conn, worker: WorkerStep)
    | Http(http: HttpStep)
    | Shut(shut: ShutdownStep)

  predicate LoopEnabled(s: State, step: LoopStep) {
    match step
    case ServeStarts => !s.accept.serving
    case LoopAccepts => s.accept.serving && !s.accept.ended && s.accept.outerOpen && s.accept.hand == Empty
    case LoopDispatches => s.accept.hand.Holds?
    case LoopEnds => s.accept.serving && !s.accept.ended && s.accept.hand == Empty
  }

  function ApplyLoop(s: State, step: LoopStep): State
    requires LoopEnabled(s, step)
  {
    match step
    case ServeStarts =>
      s.(accept := s.accept.(serving := true, outerOpen := true), srv := s.srv.(shuttingDown := false))
    case LoopAccepts => s.(accept := s.accept.(hand := Holds(s.next)), next := s.next + 1)
    case LoopDispatches =>
      var c := s.accept.hand.conn;
      if MayStartWorker(s.srv) then s.(accept := s.accept.(hand := Empty), workers := s.workers[c := Registered])
      else s.(accept := s.accept.(hand := Empty), srv := CloseSocket(s.srv, c), released := s.released + {c})
    case LoopEnds => s.(accept := s.accept.(ended := true))
  }

  /** The phase a worker must be in for the step. */
  function Before(step: WorkerStep): set<Phase> {
    match step
    case Tracks => {Registered}
    case TracksSniff => {TrackedActive}
    case PeekFails => {Sniffing}
    case PeekSucceeds => {Sniffing}
    case UntracksFailedSniff => {SniffFailed}
    case StartsSocks => {Sniffed}
    case LacksSocks => {Sniffed}
    case UntracksUnserved => {NoHandler}
    case ClosesUnserved => {Unserved}
    case SocksReturns(_) => {ServingSocks}
    case StartsEnqueue => {Sniffed}
    case EnqueueSucceeds => {Enqueueing}
    case EnqueueFails => {Enqueueing}
    case ClosesRefused => {Refused}
    case Panics => {Registered, TrackedActive, Sniffing, SniffFailed, Sniffed, NoHandler, Unserved, ServingSocks, Enqueueing, Refused}
    case Exits => {Leaving}
  }

  predicate WorkerEnabled(s: State, c: Conn, step: WorkerStep) {
    && c in s.workers && s.workers[c] in Before(step)
    && (step.EnqueueSucceeds? ==> CL.EnqueuePass(s.side.l, c).1 == CL.Enqueued)
    && (step.EnqueueFails? ==> CL.EnqueuePass(s.side.l, c).1 == CL.EnqueueClosed)
  }

  /** The phase the step leads to; `Exits` takes the worker out instead. */
  function After(step: WorkerStep): Phase {
    match step
    case Tracks => TrackedActive
    case TracksSniff => Sniffing
    case PeekFails => SniffFailed
    case PeekSucceeds => Sniffed
    case UntracksFailedSniff => NoHandler
    case StartsSocks => ServingSocks
    case LacksSocks => NoHandler
    case UntracksUnserved => Unserved
    case StartsEnqueue => Enqueueing
    case EnqueueFails => Refused
    case _ => Leaving
  }

  /** What the step does to the data under the server's mutex and to the socket. */
  function WorkerEffect(srv: Server, phase: Phase, c: Conn, step: WorkerStep): Server {
    match step
    case Tracks => TrackActive(srv, c)
    case TracksSniff => TrackSniff(srv, c)
    case PeekSucceeds => UntrackSniff(srv, c)
    case UntracksFailedSniff => UntrackSniff(srv, c)
    case UntracksUnserved => UntrackActive(srv, c)
    case ClosesUnserved => CloseSocket(srv, c)
    case SocksReturns(closes) =>
      if closes then CloseSocket(UntrackActive(srv, c), c) else UntrackActive(srv, c)
    case ClosesRefused => CloseSocket(UntrackActive(srv, c), c)
    case Panics =>
      if phase == ServingSocks then CloseSocket(UntrackActive(srv, c), c) else CloseSocket(srv, c)
    case _ => srv
  }

  /** The step after which nobody serves the connection any more. */
  predicate Releases(step: WorkerStep) {
    step.ClosesUnserved? || step.SocksReturns? || step.ClosesRefused? || step.Panics?
  }

  function ApplyWorker(s: State, c: Conn, step: WorkerStep): State
    requires WorkerEnabled(s, c, step)
  {
    s.(srv := WorkerEffect(s.srv, s.workers[c], c, step),
       workers := if step.Exits? then s.workers - {c} else s.workers[c := After(step)],
       released := if Releases(step) then s.released + {c} else s.released,
       viaSocks := if step.StartsSocks? then s.viaSocks + {c} else s.viaSocks,
       side := if step.EnqueueSucceeds? then s.side.(l := CL.EnqueuePass(s.side.l, c).0) else s.side)
  }

  /** `http.Server.Shutdown` has begun: the server accepts no new listener. */
  predicate HttpStopping(s: State) {
    s.stop.at.StoppingHttp? || PastSnapshot(s)
  }

  /** `Shutdown` has taken its snapshot of the active set. */
  predicate PastSnapshot(s: State) {
    s.stop.at.ClosingActive? || s.stop.at.Waiting? || s.stop.at.Returned?
  }

  /** What closes the queue: `Serve`'s deferred call, `http.Server.Shutdown` if the queue is
      registered, and otherwise `http.Server.Serve` itself, which returns at once when it
      comes too late to register. */
  predicate HttpEnabled(s: State, step: HttpStep) {
    match step
    case Registers => s.accept.serving && !s.side.registered && !HttpStopping(s)
    case HttpAccepts => s.side.registered && s.side.l.conns != []
    case HttpCloses(c) => c in s.side.served
    case ListenerCloses =>
      && !s.side.l.closed
      && (|| s.accept.ended || (s.side.registered && s.stop.at.StoppingHttp?)
          || (s.accept.serving && !s.side.registered && HttpStopping(s)))
    case ClosesDropped => s.side.dropping != []
  }

  function ApplyHttp(s: State, step: HttpStep): State
    requires HttpEnabled(s, step)
  {
    match step
    case Registers => s.(side := s.side.(registered := true))
    case HttpAccepts =>
      s.(side := s.side.(l := CL.AcceptPass(s.side.l).0, served := s.side.served + {s.side.l.conns[0]}))
    case HttpCloses(c) =>
      s.(srv := CloseSocket(UntrackActive(s.srv, c), c), side := s.side.(served := s.side.served - {c}), released := s.released + {c})
    case ListenerCloses =>
      s.(side := s.side.(l := CL.ClosePass(s.side.l).0, dropping := s.side.dropping + CL.ClosePass(s.side.l).1))
    case ClosesDropped =>
      var c := s.side.dropping[0];
      s.(srv := CloseSocket(UntrackActive(s.srv, c), c), side := s.side.(dropping := s.side.dropping[1..]), released := s.released + {c})
  }

  predicate ShutdownEnabled(s: State, step: ShutdownStep) {
    match step
    case SetsFlag => s.stop.at == NotCalled
    case ClosesOuter => s.stop.at == FlagSet
    case SnapshotsSniffing => s.stop.at == OuterClosed
    case ClosesSniffed(c) => s.stop.at.ClosingSniffed? && c in s.stop.at.rest
    case StartsHttpShutdown => s.stop.at == ClosingSniffed({})
    case HttpShutdownReturns => s.stop.at == StoppingHttp && (s.side.registered ==> s.side.l.closed)
    case ClosesActive(c) => s.stop.at.ClosingActive? && c in s.stop.at.left
    case StartsWait => s.stop.at == ClosingActive({})
    case TimesOut => s.stop.at == Waiting
    case WaitReturns => s.stop.at == Waiting && s.workers == map[]
  }

  /** `ClosesOuter` closes the listener that `Shutdown` read when it set the flag. */
  function ApplyShutdown(s: State, step: ShutdownStep): State
    requires ShutdownEnabled(s, step)
  {
    match step
    case SetsFlag =>
      s.(srv := s.srv.(shuttingDown := true), stop := s.stop.(at := FlagSet, unserved := !s.accept.serving))
    case ClosesOuter =>
      s.(accept := if s.stop.unserved then s.accept else s.accept.(outerOpen := false), stop := s.stop.(at := OuterClosed))
    case SnapshotsSniffing =>
      s.(stop := s.stop.(at := ClosingSniffed(s.srv.sniffing)), srv := s.srv.(sniffing := {}))
    case ClosesSniffed(c) =>
      s.(stop := s.stop.(at := ClosingSniffed(s.stop.at.rest - {c})), srv := CloseSocket(s.srv, c))
    case StartsHttpShutdown => s.(stop := s.stop.(at := StoppingHttp, unregistered := !s.side.registered))
    case HttpShutdownReturns =>
      s.(stop := s.stop.(at := ClosingActive(s.srv.active)), srv := s.srv.(active := {}))
    case ClosesActive(c) =>
      s.(stop := s.stop.(at := ClosingActive(s.stop.at.left - {c})), srv := CloseSocket(s.srv, c))
    case StartsWait => s.(stop := s.stop.(at := Waiting))
    case TimesOut =>
      s.(stop := s.stop.(at := ClosingActive(s.srv.active)), srv := s.srv.(active := {}))
    case WaitReturns => s.(stop := s.stop.(at := Returned))
  }

  predicate Enabled(s: State, step: Step) {
    match step
    case Loop(x) => LoopEnabled(s, x)
    case Worker(c, x) => WorkerEnabled(s, c, x)
    case Http(x) => HttpEnabled(s, x)
    case Shut(x) => ShutdownEnabled(s, x)
  }

  function Apply(s: State, step: Step): State
    requires Enabled(s, step)
  {
    match step
    case Loop(x) => ApplyLoop(s, x)
    case Worker(c, x) => ApplyWorker(s, c, x)
    case Http(x) => ApplyHttp(s, x)
    case Shut(x) => ApplyShutdown(s, x)
  }

  ghost predicate Runs(s: State, steps: seq<Step>, t: State)
    decreases |steps|
  {
    if steps == [] then s == t
    else Enabled(s, steps[0]) && Runs(Apply(s, steps[0]), steps[1..], t)
  }

  /** Some run leads from `s` to `t`. */
  ghost predicate Leads(s: State, t: State) {
    exists steps :: Runs(s, steps, t)
  }

  ghost predicate Reachable(t: State) {
    Leads(Init(), t)
  }

  // ---------------------------------------------------------------------------
  // One owner per connection

  ghost function One(b: bool): nat {
    if b then 1 else 0
  }

  /** How often `c` is in the queue, taken out of it to be closed, or served. */
  ghost function OnSide(side: HttpSide, c: Conn): nat {
    multiset(side.l.conns)[c] + multiset(side.dropping)[c] + One(c in side.served)
  }

  /** How many of the accept loop, the workers, the HTTP side and the finished connections
      hold `c`. */
  ghost function Owners(s: State, c: Conn): nat {
    One(s.accept.hand == Holds(c)) + One(c in s.workers && s.workers[c] != Leaving) + OnSide(s.side, c) + One(c in s.released)
  }

  ghost predicate OneOwner(s: State) {
    && (forall c: Conn :: Owners(s, c) == One(c < s.next))
    && (forall c :: c in s.workers ==> c < s.next)
    && (s.accept.hand.Holds? ==> s.accept.hand.conn !in s.workers)
    && |s.side.l.conns| <= CL.CAPACITY
    && (s.side.l.closed ==> s.side.l.conns == [])
  }

  lemma LoopOwners(s: State, step: LoopStep, c: Conn)
    requires Owners(s, c) == One(c < s.next) && LoopEnabled(s, step)
    requires s.accept.hand.Holds? ==> s.accept.hand.conn !in s.workers
    ensures Owners(ApplyLoop(s, step), c) == One(c < ApplyLoop(s, step).next)
  {
  }

  lemma LoopKeepsOwners(s: State, step: LoopStep)
    requires OneOwner(s) && LoopEnabled(s, step)
    ensures OneOwner(ApplyLoop(s, step))
  {
    forall c: Conn ensures Owners(ApplyLoop(s, step), c) == One(c < ApplyLoop(s, step).next) {
      assert Owners(s, c) == One(c < s.next);
      LoopOwners(s, step, c);
    }
    if s.accept.hand.Holds? {
      assert Owners(s, s.accept.hand.conn) == One(s.accept.hand.conn < s.next);
    }
  }

  lemma WorkerOwners(s: State, d: Conn, step: WorkerStep, c: Conn)
    requires OneOwner(s) && WorkerEnabled(s, d, step)
    ensures Owners(ApplyWorker(s, d, step), c) == Owners(s, c)
  {
    var t := ApplyWorker(s, d, step);
    if c != d {
      assert c in t.workers <==> c in s.workers;
      assert OnSide(t.side, c) == OnSide(s.side, c);
    } else {
      assert Owners(s, c) == One(c < s.next);
    }
  }

  lemma WorkerKeepsOwners(s: State, d: Conn, step: WorkerStep)
    requires OneOwner(s) && WorkerEnabled(s, d, step)
    ensures OneOwner(ApplyWorker(s, d, step))
  {
    var t := ApplyWorker(s, d, step);
    forall c: Conn ensures Owners(t, c) == One(c < t.next) {
      assert Owners(s, c) == One(c < s.next);
      WorkerOwners(s, d, step, c);
    }
  }

  lemma FirstOf(conns: seq<Conn>, c: Conn)
    requires conns != []
    ensures multiset(conns)[c] == One(c == conns[0]) + multiset(conns[1..])[c]
  {
    assert conns == [conns[0]] + conns[1..];
  }

  lemma HttpOwners(s: State, step: HttpStep, c: Conn)
    requires OneOwner(s) && HttpEnabled(s, step)
    ensures Owners(ApplyHttp(s, step), c) == Owners(s, c)
  {
    assert Owners(s, c) == One(c < s.next);
    match step
    case HttpAccepts => FirstOf(s.side.l.conns, c);
    case ClosesDropped => FirstOf(s.side.dropping, c);
    case _ =>
  }

  lemma HttpKeepsOwners(s: State, step: HttpStep)
    requires OneOwner(s) && HttpEnabled(s, step)
    ensures OneOwner(ApplyHttp(s, step))
  {
    var t := ApplyHttp(s, step);
    forall c: Conn ensures Owners(t, c) == One(c < t.next) {
      assert Owners(s, c) == One(c < s.next);
      HttpOwners(s, step, c);
    }
  }

  lemma ShutdownKeepsOwners(s: State, step: ShutdownStep)
    requires OneOwner(s) && ShutdownEnabled(s, step)
    ensures OneOwner(ApplyShutdown(s, step))
  {
    var t := ApplyShutdown(s, step);
    forall c: Conn ensures Owners(t, c) == One(c < t.next) {
      assert Owners(s, c) == One(c < s.next);
    }
  }

  // ---------------------------------------------------------------------------
  // Tracking and closing

  /** The phases in which the worker's connection is in the active set. */
  predicate TracksConn(p: Phase) {
    p != Registered && p != Unserved && p != Leaving
  }

  /** Connections on the HTTP side: queued, being dropped or accepted. */
  ghost predicate OnHttpSide(s: State, c: Conn) {
    c in s.side.l.conns || c in s.side.dropping || c in s.side.served
  }

  /** A connection nobody serves any more was closed, or was the SOCKS5 handler's. */
  ghost predicate ReleasedClosed(s: State) {
    && (forall c :: c in s.released ==> c in s.srv.closed || c in s.viaSocks)
    && (forall c :: c in s.workers && s.workers[c] == ServingSocks ==> c in s.viaSocks)
  }

  /** The queue is closed before the snapshot if it was registered, and only a registered
      queue is accepted from. */
  predicate FlagsAgree(s: State) {
    && (s.stop.unregistered ==> HttpStopping(s))
    && (HttpStopping(s) ==> (s.side.registered <==> !s.stop.unregistered))
    && (PastSnapshot(s) && s.side.registered ==> s.side.l.closed)
    && (!s.side.registered ==> s.side.served == {})
    && (!s.stop.unserved && s.stop.at != NotCalled ==> s.accept.serving && s.srv.shuttingDown)
  }

  /** Before the snapshot an open connection on the HTTP side is tracked, and so is
      one that its worker may still hand over. */
  ghost predicate Tracked(s: State) {
    !PastSnapshot(s) ==>
      && (forall c :: OnHttpSide(s, c) ==> c in s.srv.closed || c in s.srv.active)
      && (forall c :: c in s.workers && TracksConn(s.workers[c]) ==> c in s.srv.active)
  }

  /** After it an open connection on the HTTP side is in the part of the snapshot that
      is still to be closed. */
  ghost predicate Closing(s: State) {
    PastSnapshot(s) && s.side.registered ==>
      forall c :: OnHttpSide(s, c) ==>
        c in s.srv.closed || (s.stop.at.ClosingActive? && c in s.stop.at.left)
  }

  ghost predicate Covered(s: State) {
    ReleasedClosed(s) && FlagsAgree(s) && Tracked(s) && Closing(s)
  }

  lemma OwnedOnce(s: State, c: Conn)
    requires OneOwner(s) && c in s.workers && s.workers[c] != Leaving
    ensures !OnHttpSide(s, c) && c !in s.released
  {
    assert Owners(s, c) == One(c < s.next);
  }

  lemma WorkerKeepsTracked(s: State, d: Conn, step: WorkerStep)
    requires OneOwner(s) && Tracked(s) && WorkerEnabled(s, d, step)
    ensures Tracked(ApplyWorker(s, d, step))
  {
    var t := ApplyWorker(s, d, step);
    if s.workers[d] != Leaving {
      OwnedOnce(s, d);
    }
    if !PastSnapshot(t) {
      forall c | OnHttpSide(t, c) ensures c in t.srv.closed || c in t.srv.active {
        assert OnHttpSide(s, c) || c == d;
      }
    }
  }

  lemma WorkerKeepsCovered(s: State, d: Conn, step: WorkerStep)
    requires OneOwner(s) && Covered(s) && WorkerEnabled(s, d, step)
    ensures Covered(ApplyWorker(s, d, step))
  {
    WorkerKeepsTracked(s, d, step);
  }

  lemma HttpKeepsCovered(s: State, step: HttpStep)
    requires OneOwner(s) && Covered(s) && HttpEnabled(s, step)
    ensures Covered(ApplyHttp(s, step))
  {
    forall c | c in s.workers && s.workers[c] != Leaving ensures !OnHttpSide(s, c) {
      OwnedOnce(s, c);
    }
  }

  lemma ShutdownKeepsCovered(s: State, step: ShutdownStep)
    requires OneOwner(s) && Covered(s) && ShutdownEnabled(s, step)
    ensures Covered(ApplyShutdown(s, step))
  {
  }

  // ---------------------------------------------------------------------------
  // Whole runs

  ghost predicate Inv(s: State) {
    OneOwner(s) && Covered(s)
  }

  lemma StepKeepsInv(s: State, step: Step)
    requires Inv(s) && Enabled(s, step)
    ensures Inv(Apply(s, step))
  {
    match step
    case Loop(x) => LoopKeepsOwners(s, x);
    case Worker(c, x) => WorkerKeepsOwners(s, c, x); WorkerKeepsCovered(s, c, x);
    case Http(x) => HttpKeepsOwners(s, x); HttpKeepsCovered(s, x);
    case Shut(x) => ShutdownKeepsOwners(s, x); ShutdownKeepsCovered(s, x);
  }

  lemma {:induction false} RunKeepsInv(s: State, steps: seq<Step>, t: State)
    requires Inv(s) && Runs(s, steps, t)
    ensures Inv(t)
    decreases |steps|
  {
    if steps != [] {
      StepKeepsInv(s, steps[0]);
      RunKeepsInv(Apply(s, steps[0]), steps[1..], t);
    }
  }

  lemma ReachableInv(t: State)
    requires Reachable(t)
    ensures Inv(t)
  {
    var steps :| Runs(Init(), steps, t);
    RunKeepsInv(Init(), steps, t);
  }

  /** In every interleaving every accepted connection has exactly one owner. */
  lemma EveryConnHasOneOwner(t: State, c: Conn)
    requires Reachable(t)
    ensures Owners(t, c) == One(c < t.next)
    ensures |t.side.l.conns| <= CL.CAPACITY
  {
    ReachableInv(t);
  }

  /** Once `Shutdown` has set its flag after `Serve` started, no step adds a worker. */
  lemma {:induction false} NoWorkerStartsAfterFlag(s: State, steps: seq<Step>, t: State)
    requires Inv(s) && Runs(s, steps, t) && s.stop.at != NotCalled && !s.stop.unserved
    ensures t.workers.Keys <= s.workers.Keys
    ensures t.stop.at != NotCalled && !t.stop.unserved
    decreases |steps|
  {
    if steps != [] {
      StepKeepsInv(s, steps[0]);
      NoWorkerStartsAfterFlag(Apply(s, steps[0]), steps[1..], t);
    }
  }

  /** Nothing is being served: no worker runs, the queue is closed and empty, and each
      accepted connection is closed, was finished by the SOCKS5 handler, or is in
      the accept loop's hand, which will close it. */
  ghost predicate Drained(s: State) {
    s.workers == map[] && s.side.l == CL.Listener([], true) && s.srv.shuttingDown && AllButQueued(s, {})
  }

  /** Every accepted connection outside `left` is closed, was finished by the SOCKS5
      handler, or is in the accept loop's hand. */
  ghost predicate AllButQueued(s: State, left: set<Conn>) {
    forall c: Conn :: c < s.next && c !in left ==>
      c in s.srv.closed || (c in s.released && c in s.viaSocks) || s.accept.hand == Holds(c)
  }

  ghost function Queued(s: State): set<Conn> {
    (set c | c in s.side.l.conns) + (set c | c in s.side.dropping)
  }

  lemma ReturnedIsDrained(s: State)
    requires Inv(s) && s.stop.at == Returned && s.workers == map[]
    ensures AllButQueued(s, if s.side.registered then {} else Queued(s))
  {
    forall c: Conn | c < s.next && (s.side.registered || c !in Queued(s))
      ensures c in s.srv.closed || (c in s.released && c in s.viaSocks) || s.accept.hand == Holds(c)
    {
      assert Owners(s, c) == One(c < s.next);
      if !OnHttpSide(s, c) && s.accept.hand != Holds(c) {
        assert c in s.released;
      }
    }
  }

  lemma {:induction false} ReturnedHasNoWorkers(s: State, steps: seq<Step>, t: State)
    requires Inv(s) && Runs(s, steps, t) && (s.stop.at == Returned && !s.stop.unserved ==> s.workers == map[])
    ensures t.stop.at == Returned && !t.stop.unserved ==> t.workers == map[]
    decreases |steps|
  {
    if steps != [] {
      StepKeepsInv(s, steps[0]);
      ReturnedHasNoWorkers(Apply(s, steps[0]), steps[1..], t);
    }
  }

  /** When `Shutdown` returns, and in every state after that, everything is drained,
      provided `Serve` had started before `Shutdown` set its flag and the queue was
      registered before it reached `http.Server.Shutdown`. */
  lemma ShutdownDrains(t: State)
    requires Reachable(t) && t.stop.at == Returned && !t.stop.unserved && !t.stop.unregistered
    ensures Drained(t)
  {
    var steps :| Runs(Init(), steps, t);
    ReachableInv(t);
    ReturnedHasNoWorkers(Init(), steps, t);
    ReturnedIsDrained(t);
  }

  /** Without the registration no worker runs and nothing is open but what waits in the
      queue, and everything is drained once the queue has been closed and emptied. */
  lemma OnlyTheQueueIsLeft(t: State)
    requires Reachable(t) && t.stop.at == Returned && !t.stop.unserved
    ensures t.workers == map[] && AllButQueued(t, Queued(t))
    ensures t.side.l.closed && t.side.dropping == [] ==> Drained(t)
    ensures !t.side.l.closed ==> Enabled(t, Http(ListenerCloses))
  {
    var steps :| Runs(Init(), steps, t);
    ReachableInv(t);
    ReturnedHasNoWorkers(Init(), steps, t);
    ReturnedIsDrained(t);
    if t.side.l.closed && t.side.dropping == [] {
      assert Queued(t) == {};
    }
  }

  // ---------------------------------------------------------------------------
  // Runs that do not drain

  lemma Here(t: State)
    ensures Leads(t, t)
  {
    assert Runs(t, [], t);
  }

  lemma Prepend(s: State, step: Step, t: State)
    requires Enabled(s, step) && Leads(Apply(s, step), t)
    ensures Leads(s, t)
  {
    var rest :| Runs(Apply(s, step), rest, t);
    var steps := [step] + rest;
    assert steps[1..] == rest;
    assert Runs(s, steps, t);
  }

  /** Before `Serve`, with `Shutdown` at the given point. */
  function Idle(at: Shutdown, unregistered: bool): State {
    Init().(srv := Init().srv.(shuttingDown := true), stop := Stopping(at, true, unregistered))
  }

  /** `Serve` clears the flag again, so a worker can start although `Shutdown` has
      returned. */
  lemma ServesAfterwards(s: State) returns (t: State)
    requires s.accept.serving && s.accept.outerOpen && !s.accept.ended && s.accept.hand == Empty && !s.srv.shuttingDown && s.stop.at == Returned
    ensures Leads(s, t) && t.workers != map[]
    ensures t.stop.at == Returned && t.stop.unserved == s.stop.unserved && t.stop.unregistered == s.stop.unregistered
  {
    var s1 := ApplyLoop(s, LoopAccepts);
    t := ApplyLoop(s1, LoopDispatches);
    assert s.next in t.workers;
    Here(t);
    Prepend(s1, Loop(LoopDispatches), t);
    Prepend(s, Loop(LoopAccepts), t);
  }

  lemma FlagBeforeServe(s: State, t: State)
    requires s == Idle(ClosingSniffed({}), false) && Leads(s, t)
    ensures Leads(Init(), t)
  {
    Prepend(Idle(OuterClosed, false), Shut(SnapshotsSniffing), t);
    Prepend(Idle(FlagSet, false), Shut(ClosesOuter), t);
    Prepend(Init(), Shut(SetsFlag), t);
  }

  /** `Shutdown` returns before `Serve` starts. */
  lemma ShutdownBeforeServeDoesNotDrain() returns (t: State)
    ensures Reachable(t) && t.stop.at == Returned && t.stop.unserved && t.stop.unregistered && !Drained(t)
  {
    t := ServesAfterwards(ApplyLoop(Idle(Returned, true), ServeStarts));
    Prepend(Idle(Returned, true), Loop(ServeStarts), t);
    Prepend(Idle(Waiting, true), Shut(WaitReturns), t);
    Prepend(Idle(ClosingActive({}), true), Shut(StartsWait), t);
    Prepend(Idle(StoppingHttp, true), Shut(HttpShutdownReturns), t);
    Prepend(Idle(ClosingSniffed({}), false), Shut(StartsHttpShutdown), t);
    FlagBeforeServe(Idle(ClosingSniffed({}), false), t);
  }

  /** `Serve` starts between the flag and `http.Server.Shutdown`. */
  function Between(at: Shutdown, registered: bool, closed: bool): State {
    Init().(accept := AcceptLoop(true, true, false, Empty), stop := Stopping(at, true, false),
            side := HttpSide(CL.Listener([], closed), [], {}, registered))
  }

  lemma ServeDuringShutdownDoesNotDrain() returns (t: State)
    ensures Reachable(t) && t.stop == Stopping(Returned, true, false) && !Drained(t)
  {
    t := ServesAfterwards(Between(Returned, true, true));
    Prepend(Between(Waiting, true, true), Shut(WaitReturns), t);
    Prepend(Between(ClosingActive({}), true, true), Shut(StartsWait), t);
    Prepend(Between(StoppingHttp, true, true), Shut(HttpShutdownReturns), t);
    assert ApplyHttp(Between(StoppingHttp, true, false), ListenerCloses).side.dropping == [];
    Prepend(Between(StoppingHttp, true, false), Http(ListenerCloses), t);
    Prepend(Between(ClosingSniffed({}), true, false), Shut(StartsHttpShutdown), t);
    Prepend(Between(ClosingSniffed({}), false, false), Http(Registers), t);
    Prepend(Idle(ClosingSniffed({}), false), Loop(ServeStarts), t);
    FlagBeforeServe(Idle(ClosingSniffed({}), false), t);
  }

  /** `Serve` runs and has accepted connection 0, the HTTP goroutine has not registered. */
  function Early(stop: Stopping, workers: map<Conn, Phase>, srv: Server, conns: seq<Conn>): State {
    State(1, AcceptLoop(true, stop.at.NotCalled? || stop.at.FlagSet?, false, Empty),
          srv.(shuttingDown := !stop.at.NotCalled?), workers, HttpSide(CL.Listener(conns, false), [], {}, false), {}, {}, stop)
  }

  const WAITING := Stopping(Waiting, false, true)

  const UNTRACKED := Server(false, {}, {}, {})
  const TRACKED := Server(false, {0}, {}, {})
  const SNIFFED := Server(false, {0}, {0}, {})

  /** A step of the worker while `Shutdown` waits. */
  lemma WorkerStepsLate(phase: Phase, srv: Server, conns: seq<Conn>, step: WorkerStep, srv': Server, t: State)
    requires phase in Before(step) && !step.Exits? && !Releases(step) && !step.StartsSocks? && !step.EnqueueFails?
    requires |conns| < CL.CAPACITY && WorkerEffect(srv, phase, 0, step) == srv'
    requires Leads(Early(WAITING, map[0 := After(step)], srv', if step.EnqueueSucceeds? then conns + [0] else conns), t)
    ensures Leads(Early(WAITING, map[0 := phase], srv, conns), t)
  {
    var s := Early(WAITING, map[0 := phase], srv, conns);
    var u := Early(WAITING, map[0 := After(step)], srv', if step.EnqueueSucceeds? then conns + [0] else conns);
    assert s.workers[0 := After(step)] == u.workers;
    assert WorkerEffect(s.srv, phase, 0, step) == u.srv;
    Prepend(s, Worker(0, step), t);
  }

  lemma WorkerLeavesLate() returns (t: State)
    ensures Leads(Early(WAITING, map[0 := Leaving], TRACKED, [] + [0]), t)
    ensures t == Early(Stopping(Returned, false, true), map[], TRACKED, [0])
  {
    assert [] + [0] == [0 as Conn];
    t := Early(Stopping(Returned, false, true), map[], TRACKED, [0]);
    Here(t);
    Prepend(Early(WAITING, map[], TRACKED, [0]), Shut(WaitReturns), t);
    Prepend(Early(WAITING, map[0 := Leaving], TRACKED, [0]), Worker(0, Exits), t);
  }

  /** While `Shutdown` waits, the worker hands its connection to the open queue. */
  lemma WorkerEnqueuesLate() returns (t: State)
    ensures Leads(Early(WAITING, map[0 := Registered], UNTRACKED, []), t)
    ensures t == Early(Stopping(Returned, false, true), map[], TRACKED, [0])
  {
    t := WorkerLeavesLate();
    WorkerStepsLate(Enqueueing, TRACKED, [], EnqueueSucceeds, TRACKED, t);
    WorkerStepsLate(Sniffed, TRACKED, [], StartsEnqueue, TRACKED, t);
    WorkerStepsLate(Sniffing, SNIFFED, [], PeekSucceeds, TRACKED, t);
    WorkerStepsLate(TrackedActive, TRACKED, [], TracksSniff, SNIFFED, t);
    WorkerStepsLate(Registered, UNTRACKED, [], Tracks, TRACKED, t);
  }

  /** `Shutdown` finds no registered queue and an empty active set. */
  lemma ShutdownFindsNothing(t: State)
    requires Leads(Early(WAITING, map[0 := Registered], UNTRACKED, []), t)
    ensures Leads(Early(Stopping(OuterClosed, false, false), map[0 := Registered], UNTRACKED, []), t)
  {
    var one := map[0 := Registered];
    Prepend(Early(Stopping(ClosingActive({}), false, true), one, UNTRACKED, []), Shut(StartsWait), t);
    Prepend(Early(Stopping(StoppingHttp, false, true), one, UNTRACKED, []), Shut(HttpShutdownReturns), t);
    Prepend(Early(Stopping(ClosingSniffed({}), false, false), one, UNTRACKED, []), Shut(StartsHttpShutdown), t);
    Prepend(Early(Stopping(OuterClosed, false, false), one, UNTRACKED, []), Shut(SnapshotsSniffing), t);
  }

  /** `Serve` accepts and dispatches one connection before `Shutdown` sets its flag. */
  lemma ServesOne(t: State)
    requires Leads(Early(Stopping(OuterClosed, false, false), map[0 := Registered], UNTRACKED, []), t)
    ensures Leads(Init(), t)
  {
    var before := Stopping(NotCalled, false, false);
    var one := map[0 := Registered];
    Prepend(Early(Stopping(FlagSet, false, false), one, UNTRACKED, []), Shut(ClosesOuter), t);
    Prepend(Early(before, one, UNTRACKED, []), Shut(SetsFlag), t);
    Prepend(Early(before, map[], UNTRACKED, []).(accept := AcceptLoop(true, true, false, Holds(0))),
            Loop(LoopDispatches), t);
    Prepend(Early(before, map[], UNTRACKED, []).(next := 0), Loop(LoopAccepts), t);
    Prepend(Init(), Loop(ServeStarts), t);
  }

  /** `Shutdown` reaches `http.Server.Shutdown` before the queue is registered. */
  lemma ShutdownBeforeRegistrationDoesNotDrain() returns (t: State)
    ensures Reachable(t) && t.stop.at == Returned && !t.stop.unserved && t.stop.unregistered && !Drained(t)
  {
    t := WorkerEnqueuesLate();
    ShutdownFindsNothing(t);
    ServesOne(t);
  }

  /** Draining is guaranteed exactly for a `Shutdown` whose flag follows the start of
      `Serve` and whose call of `http.Server.Shutdown` follows the registration of the
      queue. */
  lemma ShutdownDrainsIff(unserved: bool, unregistered: bool)
    ensures (forall t :: Reachable(t) && t.stop.at == Returned && t.stop.unserved == unserved && t.stop.unregistered == unregistered
                         ==> Drained(t)) <==> !unserved && !unregistered
  {
    if !unserved && !unregistered {
      forall t | Reachable(t) && t.stop.at == Returned && !t.stop.unserved && !t.stop.unregistered ensures Drained(t) {
        ShutdownDrains(t);
      }
    } else if unserved && unregistered {
      var t := ShutdownBeforeServeDoesNotDrain();
    } else if unserved {
      var t := ServeDuringShutdownDoesNotDrain();
    } else {
      var t := ShutdownBeforeRegistrationDoesNotDrain();
    }
  }

  // ---------------------------------------------------------------------------
  // Shutdown gets to its end

  /** The steps of `Shutdown`, of the workers, of the accept loop once it accepts nothing
      more, and the closing of the queue. */
  predicate Helps(step: Step) {
    match step
    case Loop(x) => x.LoopDispatches? || x.LoopEnds?
    case Worker(_, _) => true
    case Http(x) => x.ListenerCloses?
    case Shut(x) => !x.SetsFlag? && !x.TimesOut?
  }

  function PhaseRank(p: Phase): nat {
    match p
    case Registered => 9
    case TrackedActive => 7
    case Sniffing => 5
    case SniffFailed => 4
    case Sniffed => 4
    case NoHandler => 3
    case Enqueueing => 3
    case Unserved => 2
    case ServingSocks => 2
    case Refused => 2
    case Leaving => 1
  }

  function WorkersRank(workers: map<Conn, Phase>, n: nat): nat {
    if n == 0 then 0
    else WorkersRank(workers, n - 1) + if n - 1 in workers then PhaseRank(workers[n - 1]) else 0
  }

  function ShutdownRank(x: Shutdown): nat {
    match x
    case NotCalled => 7
    case FlagSet => 6
    case OuterClosed => 5
    case ClosingSniffed(rest) => 4 + |rest|
    case StoppingHttp => 3
    case ClosingActive(left) => 2 + |left|
    case Waiting => 1
    case Returned => 0
  }

  function SetsRank(srv: Server): nat {
    |srv.active| + |srv.sniffing|
  }

  function LoopRank(accept: AcceptLoop): nat {
    (if accept.hand.Holds? then 1 else 0) + (if accept.ended then 0 else 1)
  }

  /** An upper bound on the steps before `Shutdown` returns. */
  function Rank(s: State): nat {
    ShutdownRank(s.stop.at) + SetsRank(s.srv) + WorkersRank(s.workers, s.next) + LoopRank(s.accept)
    + if s.side.l.closed then 0 else 1
  }

  lemma {:induction false} WorkersRankChange(v: map<Conn, Phase>, w: map<Conn, Phase>, d: Conn, n: nat)
    requires d in v && forall c :: c != d ==> (c in v <==> c in w) && (c in v ==> v[c] == w[c])
    ensures WorkersRank(v, n) - WorkersRank(w, n) ==
            if d < n then PhaseRank(v[d]) - (if d in w then PhaseRank(w[d]) else 0) else 0
    decreases n
  {
    if n > 0 {
      WorkersRankChange(v, w, d, n - 1);
    }
  }

  lemma SizeAfter(x: set<Conn>, c: Conn)
    ensures |x + {c}| <= |x| + 1 && |x - {c}| <= |x| && (c in x ==> |x - {c}| == |x| - 1)
  {
    if c in x {
      assert x + {c} == x;
    }
    assert x == (x - {c}) + (if c in x then {c} else {});
  }

  lemma EffectOnSets(srv: Server, phase: Phase, c: Conn, step: WorkerStep)
    ensures var after := WorkerEffect(srv, phase, c, step);
            && |after.active| <= |srv.active| + (if step.Tracks? then 1 else 0)
            && |after.sniffing| <= |srv.sniffing| + (if step.TracksSniff? then 1 else 0)
  {
    SizeAfter(srv.active, c);
    SizeAfter(srv.sniffing, c);
  }

  /** What a worker adds to the sets is less than what it gets nearer to its end. */
  lemma PhasePays(phase: Phase, step: WorkerStep)
    requires phase in Before(step)
    ensures (if step.Exits? then 0 else PhaseRank(After(step))) + (if step.Tracks? || step.TracksSniff? then 1 else 0)
            < PhaseRank(phase)
  {
  }

  lemma WorkerRankFalls(s: State, c: Conn, step: WorkerStep)
    requires OneOwner(s) && WorkerEnabled(s, c, step)
    ensures Rank(ApplyWorker(s, c, step)) < Rank(s)
  {
    var t := ApplyWorker(s, c, step);
    WorkersRankChange(s.workers, t.workers, c, s.next);
    EffectOnSets(s.srv, s.workers[c], c, step);
    PhasePays(s.workers[c], step);
    assert t.side.l.closed == s.side.l.closed;
  }

  /** A snapshot moves the members of a set into the phase that closes them. */
  lemma SnapshotRankFalls(s: State, step: ShutdownStep)
    requires ShutdownEnabled(s, step) && (step.SnapshotsSniffing? || step.HttpShutdownReturns?)
    ensures Rank(ApplyShutdown(s, step)) < Rank(s)
  {
    var t := ApplyShutdown(s, step);
    assert ShutdownRank(t.stop.at) + SetsRank(t.srv) == ShutdownRank(s.stop.at) + SetsRank(s.srv) - 1;
  }

  lemma CloseRankFalls(s: State, step: ShutdownStep)
    requires ShutdownEnabled(s, step) && (step.ClosesSniffed? || step.ClosesActive?)
    ensures Rank(ApplyShutdown(s, step)) < Rank(s)
  {
    SizeAfter(if step.ClosesSniffed? then s.stop.at.rest else s.stop.at.left, step.conn);
  }

  lemma ShutdownRankFalls(s: State, step: ShutdownStep)
    requires ShutdownEnabled(s, step) && !step.SetsFlag? && !step.TimesOut?
    ensures Rank(ApplyShutdown(s, step)) < Rank(s)
  {
    if step.SnapshotsSniffing? || step.HttpShutdownReturns? {
      SnapshotRankFalls(s, step);
    } else if step.ClosesSniffed? || step.ClosesActive? {
      CloseRankFalls(s, step);
    } else {
      PlainRankFalls(s, step);
    }
  }

  lemma PlainRankFalls(s: State, step: ShutdownStep)
    requires ShutdownEnabled(s, step)
    requires step.ClosesOuter? || step.StartsHttpShutdown? || step.StartsWait? || step.WaitReturns?
    ensures Rank(ApplyShutdown(s, step)) < Rank(s)
  {
    var t := ApplyShutdown(s, step);
    assert t.srv == s.srv && LoopRank(t.accept) == LoopRank(s.accept);
  }

  /** `Shutdown` is under way in a server that `Serve` had started. */
  predicate UnderWay(s: State) {
    s.stop.at != NotCalled && !s.stop.unserved
  }

  lemma RankFalls(s: State, step: Step)
    requires Inv(s) && UnderWay(s) && Helps(step) && Enabled(s, step)
    ensures Rank(Apply(s, step)) < Rank(s) && Inv(Apply(s, step)) && UnderWay(Apply(s, step))
  {
    StepKeepsInv(s, step);
    match step
    case Worker(c, x) => WorkerRankFalls(s, c, x);
    case Shut(x) => ShutdownRankFalls(s, x);
    case _ =>
  }

  /** The next step of a worker whose read or handler returns; it waits for the queue only
      while that can still be closed. */
  lemma WorkerProgresses(s: State, c: Conn)
    requires c in s.workers && s.side.l.closed
    ensures exists x :: WorkerEnabled(s, c, x)
  {
    var x := match s.workers[c]
      case Registered => Tracks
      case TrackedActive => TracksSniff
      case Sniffing => PeekFails
      case SniffFailed => UntracksFailedSniff
      case Sniffed => StartsEnqueue
      case NoHandler => UntracksUnserved
      case Unserved => ClosesUnserved
      case ServingSocks => SocksReturns(true)
      case Enqueueing => EnqueueFails
      case Refused => ClosesRefused
      case Leaving => Exits;
    assert WorkerEnabled(s, c, x);
  }

  lemma ShutdownProgresses(s: State)
    requires Inv(s) && UnderWay(s) && s.stop.at != Returned
    ensures exists step :: Helps(step) && Enabled(s, step)
  {
    var step;
    match s.stop.at {
      case FlagSet => step := Shut(ClosesOuter);
      case OuterClosed => step := Shut(SnapshotsSniffing);
      case ClosingSniffed(rest) =>
        if rest == {} {
          step := Shut(StartsHttpShutdown);
        } else {
          var c :| c in rest;
          step := Shut(ClosesSniffed(c));
        }
      case StoppingHttp => step := if s.side.registered && !s.side.l.closed then Http(ListenerCloses) else Shut(HttpShutdownReturns);
      case ClosingActive(left) =>
        if left == {} {
          step := Shut(StartsWait);
        } else {
          var c :| c in left;
          step := Shut(ClosesActive(c));
        }
      case Waiting =>
        if s.workers == map[] {
          step := Shut(WaitReturns);
        } else if !s.side.l.closed {
          step := Http(ListenerCloses);
        } else {
          var c :| c in s.workers;
          WorkerProgresses(s, c);
          var x :| WorkerEnabled(s, c, x);
          step := Worker(c, x);
        }
    }
    assert Helps(step) && Enabled(s, step);
  }

  /** Once reads and SOCKS5 handlers return, `Shutdown` gets to its end: no run of these
      steps is longer than the rank of the state it starts in, and none gets stuck
      before `Shutdown` has returned, registered or not. */
  lemma {:induction false} ShutdownIsNear(s: State, steps: seq<Step>, t: State)
    requires Inv(s) && UnderWay(s) && Runs(s, steps, t) && forall x :: x in steps ==> Helps(x)
    ensures |steps| + Rank(t) <= Rank(s) && UnderWay(t)
    ensures t.stop.at != Returned ==> exists step :: Helps(step) && Enabled(t, step)
    decreases |steps|
  {
    if steps == [] {
      if s.stop.at != Returned {
        ShutdownProgresses(s);
      }
    } else {
      assert steps[0] in steps;
      RankFalls(s, steps[0]);
      ShutdownIsNear(Apply(s, steps[0]), steps[1..], t);
    }
  }
}
