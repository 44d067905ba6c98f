/**
 The bounded queue between the demux workers and the HTTP server
 (`connChannelListener`): one mutex, one condition variable, producers in
 `Enqueue`, one consumer in `Accept`, and `Close`.

 `Listener` is the data the mutex guards and the three `...Pass` functions are
 what one holder of the mutex does to it, from acquiring the mutex until it
 returns or parks in `cond.Wait`.  Class `ConnChannelListener` implements them.
 `State`, `Step` and `Apply` put any number of producers and the consumer around
 that data, with the condition variable's parked goroutines made explicit, so
 that a `Signal` that reaches the wrong goroutine is part of the model.
 */
module ConnListener {

  /** Connections are numbered in the order in which they reach the protocol. */
  type Conn = nat

  const CAPACITY: nat := 128

  datatype Listener = Listener(conns: seq<Conn>, closed: bool)

  datatype AcceptOutcome = AcceptWaits | AcceptClosed | Accepted(conn: Conn)

  datatype EnqueueOutcome = EnqueueWaits | EnqueueClosed | Enqueued

  function AcceptPass(l: Listener): (r: (Listener, AcceptOutcome)) {
    if l.conns == [] && !l.closed then (l, AcceptWaits)
    else if l.conns == [] then (l, AcceptClosed)
    else (l.(conns := l.conns[1..]), Accepted(l.conns[0]))
  }

  function EnqueuePass(l: Listener, c: Conn): (r: (Listener, EnqueueOutcome)) {
    if |l.conns| >= CAPACITY && !l.closed then (l, EnqueueWaits)
    else if l.closed then (l, EnqueueClosed)
    else (l.(conns := l.conns + [c]), Enqueued)
  }

  /** The new value and the connections `Close` takes out of the queue to close. */
  function ClosePass(l: Listener): (r: (Listener, seq<Conn>)) {
    if l.closed then (l, []) else (Listener([], true), l.conns)
  }

  class ConnChannelListener {
    var conns: seq<Conn>
    var closed: bool

    ghost function Value(): Listener
      reads this
    {
      Listener(conns, closed)
    }

    constructor ()
      ensures Value() == Listener([], false)
    {
      conns, closed := [], false;
    }

    method Accept() returns (r: AcceptOutcome)
      modifies this
      ensures (Value(), r) == AcceptPass(old(Value()))
    {
      if |conns| == 0 && !closed {
        return AcceptWaits;
      }
      if |conns| == 0 {
        return AcceptClosed;
      }
      r := Accepted(conns[0]);
      conns := conns[1..];
    }

    method Enqueue(c: Conn) returns (r: EnqueueOutcome)
      modifies this
      ensures (Value(), r) == EnqueuePass(old(Value()), c)
    {
      if |conns| >= CAPACITY && !closed {
        return EnqueueWaits;
      }
      if closed {
        return EnqueueClosed;
      }
      conns := conns + [c];
      r := Enqueued;
    }

    method Close() returns (pending: seq<Conn>)
      modifies this
      ensures (Value(), pending) == ClosePass(old(Value()))
    {
      if closed {
        return [];
      }
      closed := true;
      pending := conns;
      conns := [];
    }
  }

  // ---------------------------------------------------------------------------
  // The protocol around the listener

  /** A goroutine parked in `cond.Wait`. */
  datatype Waiter = Producer(conn: Conn) | Consumer

  /** Where the HTTP server's accept loop is: outside `Accept`, about to take the
      mutex inside it, or parked. */
  datatype ConsumerPhase = Away | Ready | Parked

  /**
   `ready` holds the producers that are inside `Enqueue` and about to take the
   mutex, because they just arrived or because a signal released them; `waiters`
   holds the parked goroutines, oldest first.  The remaining fields record what
   has happened so far.
   */
  datatype State = State(
    l: Listener,
    ready: seq<Conn>,
    waiters: seq<Waiter>,
    consumer: ConsumerPhase,
    next: nat,
    enqueued: seq<Conn>,
    delivered: seq<Conn>,
    dropped: seq<Conn>,
    refused: seq<Conn>)

  /** `i` selects the producer that gets the mutex, `pick` the goroutine a signal
      releases. */
  datatype Step =
    | Arrive
    | ProducerPass(i: nat, pick: nat)
    | ConsumerCalls
    | ConsumerPass(pick: nat)
    | Close

  function Init(): State {
    State(Listener([], false), [], [], Away, 0, [], [], [], [])
  }

  function RemoveAt<T>(s: seq<T>, i: nat): (r: seq<T>)
    requires i < |s|
    ensures |r| == |s| - 1
  {
    s[..i] + s[i + 1..]
  }

  /** `cond.Signal`: releases one parked goroutine if there is one. */
  function Signal(s: State, pick: nat): State
    requires s.waiters == [] || pick < |s.waiters|
  {
    if s.waiters == [] then s
    else
      var rest := s.(waiters := RemoveAt(s.waiters, pick));
      match s.waiters[pick]
      case Producer(c) => rest.(ready := s.ready + [c])
      case Consumer => rest.(consumer := Ready)
  }

  function Producers(ws: seq<Waiter>): seq<Conn> {
    if ws == [] then []
    else if ws[0].Producer? then [ws[0].conn] + Producers(ws[1..])
    else Producers(ws[1..])
  }

  /** The number of goroutines inside `Enqueue`. */
  function Enqueuers(s: State): int {
    |s.ready| + |s.waiters| - (if s.consumer == Parked then 1 else 0)
  }

  predicate Possible(s: State, step: Step) {
    match step
    case Arrive => true
    case ProducerPass(i, pick) =>
      i < |s.ready| && (s.waiters == [] || pick < |s.waiters|)
    case ConsumerCalls => s.consumer == Away
    case ConsumerPass(pick) =>
      s.consumer == Ready && (s.waiters == [] || pick < |s.waiters|)
    case Close => true
  }

  /** At most `limit` goroutines are inside `Enqueue` at any time. */
  predicate Enabled(s: State, step: Step, limit: nat) {
    Possible(s, step) && (step.Arrive? ==> Enqueuers(s) < limit)
  }

  function Apply(s: State, step: Step): State
    requires Possible(s, step)
  {
    match step
    case Arrive => s.(ready := s.ready + [s.next], next := s.next + 1)
    case ProducerPass(i, pick) =>
      var c := s.ready[i];
      var t := s.(ready := RemoveAt(s.ready, i));
      var (l, r) := EnqueuePass(s.l, c);
      (match r
       case EnqueueWaits => t.(waiters := s.waiters + [Producer(c)])
       case EnqueueClosed => t.(refused := s.refused + [c])
       case Enqueued => Signal(t.(l := l, enqueued := s.enqueued + [c]), pick))
    case ConsumerCalls => s.(consumer := Ready)
    case ConsumerPass(pick) =>
      var (l, r) := AcceptPass(s.l);
      (match r
       case AcceptWaits => s.(consumer := Parked, waiters := s.waiters + [Consumer])
       case AcceptClosed => s.(consumer := Away)
       case Accepted(c) =>
         Signal(s.(l := l, consumer := Away, delivered := s.delivered + [c]), pick))
    case Close =>
      if s.l.closed then s
      else
        s.(l := ClosePass(s.l).0,
           dropped := s.dropped + ClosePass(s.l).1,
           ready := s.ready + Producers(s.waiters),
           waiters := [],
           consumer := if s.consumer == Parked then Ready else s.consumer)
  }

  ghost predicate Runs(s: State, steps: seq<Step>, t: State, limit: nat)
    decreases |steps|
  {
    if steps == [] then s == t
    else Enabled(s, steps[0], limit) && Runs(Apply(s, steps[0]), steps[1..], t, limit)
  }

  ghost predicate Reachable(t: State, limit: nat) {
    exists steps :: Runs(Init(), steps, t, limit)
  }

  lemma {:induction false} RunsConcat(s: State, a: seq<Step>, t: State, b: seq<Step>, u: State, limit: nat)
    requires Runs(s, a, t, limit) && Runs(t, b, u, limit)
    ensures Runs(s, a + b, u, limit)
    decreases |a|
  {
    if a == [] {
      assert a + b == b;
    } else {
      RunsConcat(Apply(s, a[0]), a[1..], t, b, u, limit);
      assert (a + b)[1..] == a[1..] + b;
    }
  }

  // ---------------------------------------------------------------------------
  // Conservation and order

  /** How many times a connection is held or has been disposed of. */
  ghost function Held(s: State, c: Conn): nat {
    multiset(s.ready)[c] + multiset(Producers(s.waiters))[c] + multiset(s.l.conns)[c]
    + multiset(s.delivered)[c] + multiset(s.dropped)[c] + multiset(s.refused)[c]
  }

  ghost predicate HeldOnce(s: State) {
    forall c: Conn :: Held(s, c) == if c < s.next then 1 else 0
  }

  /** What was enqueued is what was delivered, dropped by `Close` and is queued, in
      that order. */
  predicate InOrder(s: State) {
    && s.enqueued == s.delivered + s.dropped + s.l.conns
    && |s.l.conns| <= CAPACITY
    && (s.dropped != [] ==> s.l.closed)
    && (s.l.closed ==> s.l.conns == [])
  }

  lemma RemoveAtMultiset<T>(s: seq<T>, i: nat)
    requires i < |s|
    ensures multiset(s) == multiset(RemoveAt(s, i)) + multiset{s[i]}
  {
    assert s == s[..i] + [s[i]] + s[i + 1..];
  }

  lemma {:induction false} ProducersConcat(a: seq<Waiter>, b: seq<Waiter>)
    ensures Producers(a + b) == Producers(a) + Producers(b)
    decreases |a|
  {
    if a == [] {
      assert a + b == b;
    } else {
      ProducersConcat(a[1..], b);
      assert (a + b)[1..] == a[1..] + b;
    }
  }

  lemma {:induction false} ProducersRemoveAt(ws: seq<Waiter>, i: nat)
    requires i < |ws|
    ensures multiset(Producers(ws)) ==
            multiset(Producers(RemoveAt(ws, i))) + (if ws[i].Producer? then multiset{ws[i].conn} else multiset{})
  {
    var a, x, b := ws[..i], [ws[i]], ws[i + 1..];
    assert ws == a + (x + b);
    ProducersConcat(a, x + b);
    ProducersConcat(x, b);
    ProducersConcat(a, b);
    assert Producers(x) == if ws[i].Producer? then [ws[i].conn] else [] by {
      assert x[1..] == [];
    }
  }

  lemma {:induction false} SignalHeld(s: State, pick: nat, c: Conn)
    requires s.waiters == [] || pick < |s.waiters|
    ensures Held(Signal(s, pick), c) == Held(s, c)
  {
    if s.waiters != [] {
      ProducersRemoveAt(s.waiters, pick);
    }
  }

  lemma {:induction false} ProducerPassHeld(s: State, i: nat, pick: nat, c: Conn)
    requires Possible(s, ProducerPass(i, pick))
    ensures Held(Apply(s, ProducerPass(i, pick)), c) == Held(s, c)
  {
    var d := s.ready[i];
    RemoveAtMultiset(s.ready, i);
    match EnqueuePass(s.l, d).1
    case EnqueueWaits =>
      ProducersConcat(s.waiters, [Producer(d)]);
      assert Producers([Producer(d)]) == [d];
    case EnqueueClosed =>
    case Enqueued =>
      var t := s.(ready := RemoveAt(s.ready, i), l := EnqueuePass(s.l, d).0, enqueued := s.enqueued + [d]);
      SignalHeld(t, pick, c);
  }

  lemma {:induction false} ConsumerPassHeld(s: State, pick: nat, c: Conn)
    requires Possible(s, ConsumerPass(pick))
    ensures Held(Apply(s, ConsumerPass(pick)), c) == Held(s, c)
  {
    match AcceptPass(s.l).1
    case AcceptWaits =>
      ProducersConcat(s.waiters, [Consumer]);
      assert Producers([Consumer]) == [];
    case AcceptClosed =>
    case Accepted(d) =>
      assert s.l.conns == [d] + s.l.conns[1..];
      SignalHeld(s.(l := AcceptPass(s.l).0, consumer := Away, delivered := s.delivered + [d]), pick, c);
  }

  lemma {:induction false} StepHeld(s: State, step: Step, c: Conn)
    requires HeldOnce(s) && Possible(s, step)
    ensures Held(Apply(s, step), c) == if c < Apply(s, step).next then 1 else 0
  {
    assert Held(s, c) == if c < s.next then 1 else 0;
    match step
    case Arrive =>
    case ProducerPass(i, pick) => ProducerPassHeld(s, i, pick, c);
    case ConsumerCalls =>
    case ConsumerPass(pick) => ConsumerPassHeld(s, pick, c);
    case Close =>
  }

  lemma {:induction false} StepKeepsOrder(s: State, step: Step)
    requires InOrder(s) && Possible(s, step)
    ensures InOrder(Apply(s, step))
  {
    if step.ConsumerPass? && s.l.conns != [] {
      assert s.l.conns == [s.l.conns[0]] + s.l.conns[1..];
    }
  }

  lemma {:induction false} RunConserves(s: State, steps: seq<Step>, t: State, limit: nat)
    requires HeldOnce(s) && InOrder(s) && Runs(s, steps, t, limit)
    ensures HeldOnce(t) && InOrder(t)
    decreases |steps|
  {
    if steps != [] {
      forall c: Conn {
        StepHeld(s, steps[0], c);
      }
      StepKeepsOrder(s, steps[0]);
      RunConserves(Apply(s, steps[0]), steps[1..], t, limit);
    }
  }

  /** In every reachable state each connection that entered `Enqueue` is in exactly
      one place, the queue delivers in arrival order and holds at most CAPACITY. */
  lemma QueueNeverLosesOrReorders(t: State, limit: nat)
    requires Reachable(t, limit)
    ensures HeldOnce(t) && InOrder(t)
  {
    var steps :| Runs(Init(), steps, t, limit);
    RunConserves(Init(), steps, t, limit);
  }

  // ---------------------------------------------------------------------------
  // Lost wake-ups

  /** The consumer sleeps although the queue is full. */
  predicate Dead(s: State) {
    s.consumer == Parked && |s.l.conns| == CAPACITY && !s.l.closed
  }

  /** Nothing but `Close` ends such a state: later producers find the queue full and
      park, so nothing is delivered any more. */
  lemma {:induction false} DeadUntilClose(s: State, steps: seq<Step>, t: State, limit: nat)
    requires Dead(s) && Runs(s, steps, t, limit) && Close !in steps
    ensures Dead(t) && t.delivered == s.delivered && t.l == s.l
    decreases |steps|
  {
    if steps != [] {
      assert steps[0] in steps;
      assert forall x :: x in steps[1..] ==> x in steps;
      DeadUntilClose(Apply(s, steps[0]), steps[1..], t, limit);
    }
  }

  /** The number of producers parked in `cond.Wait`. */
  function Blocked(s: State): int {
    |s.waiters| - (if s.consumer == Parked then 1 else 0)
  }

  ghost predicate Awake(s: State, limit: nat) {
    && multiset(s.waiters)[Consumer] == (if s.consumer == Parked then 1 else 0)
    && |s.l.conns| <= CAPACITY
    && Enqueuers(s) <= limit
    && (s.l.closed ==> s.waiters == [])
    && (Blocked(s) > 0 ==> |s.ready| >= CAPACITY - |s.l.conns|)
    && (s.consumer == Parked ==> |s.l.conns| + Blocked(s) < CAPACITY)
    && (s.consumer == Parked && s.l.conns != [] ==> |s.ready| >= CAPACITY - |s.l.conns|)
  }

  lemma {:induction false} ProducersLength(ws: seq<Waiter>)
    ensures |Producers(ws)| == |ws| - multiset(ws)[Consumer]
    decreases |ws|
  {
    if ws != [] {
      assert ws == [ws[0]] + ws[1..];
      ProducersLength(ws[1..]);
    }
  }

  /** What a signal does to the counts, whichever goroutine it releases; with no
      producer parked it can only reach the consumer. */
  lemma {:induction false} SignalCounts(s: State, pick: nat)
    requires s.waiters == [] || pick < |s.waiters|
    requires multiset(s.waiters)[Consumer] == (if s.consumer == Parked then 1 else 0)
    ensures var t := Signal(s, pick);
            && multiset(t.waiters)[Consumer] == (if t.consumer == Parked then 1 else 0)
            && t.l == s.l && Enqueuers(t) == Enqueuers(s)
            && (if t.consumer == s.consumer
                then Blocked(t) == (if Blocked(s) > 0 then Blocked(s) - 1 else 0)
                else s.consumer == Parked && t.consumer == Ready && Blocked(t) == Blocked(s))
            && (s.consumer == Parked && Blocked(s) == 0 ==> t.consumer == Ready)
  {
    if s.waiters != [] {
      RemoveAtMultiset(s.waiters, pick);
      if |s.waiters| == 1 {
        assert s.waiters == [s.waiters[0]];
      }
    }
  }

  lemma {:induction false} ProducerPassStaysAwake(s: State, i: nat, pick: nat, limit: nat)
    requires Awake(s, limit) && limit < 2 * CAPACITY && Possible(s, ProducerPass(i, pick))
    ensures Awake(Apply(s, ProducerPass(i, pick)), limit)
  {
    var d := s.ready[i];
    if EnqueuePass(s.l, d).1 == Enqueued {
      var t := s.(ready := RemoveAt(s.ready, i), l := EnqueuePass(s.l, d).0, enqueued := s.enqueued + [d]);
      SignalCounts(t, pick);
    }
  }

  lemma {:induction false} ConsumerPassStaysAwake(s: State, pick: nat, limit: nat)
    requires Awake(s, limit) && limit < 2 * CAPACITY && Possible(s, ConsumerPass(pick))
    ensures Awake(Apply(s, ConsumerPass(pick)), limit)
  {
    if s.l.conns != [] {
      SignalCounts(s.(l := AcceptPass(s.l).0, consumer := Away, delivered := s.delivered + [s.l.conns[0]]), pick);
    }
  }

  lemma StepStaysAwake(s: State, step: Step, limit: nat)
    requires Awake(s, limit) && limit < 2 * CAPACITY && Enabled(s, step, limit)
    ensures Awake(Apply(s, step), limit)
  {
    match step
    case Arrive =>
    case ProducerPass(i, pick) => ProducerPassStaysAwake(s, i, pick, limit);
    case ConsumerCalls =>
    case ConsumerPass(pick) => ConsumerPassStaysAwake(s, pick, limit);
    case Close => ProducersLength(s.waiters);
  }

  lemma {:induction false} RunStaysAwake(s: State, steps: seq<Step>, t: State, limit: nat)
    requires Awake(s, limit) && limit < 2 * CAPACITY && Runs(s, steps, t, limit)
    ensures Awake(t, limit)
    decreases |steps|
  {
    if steps != [] {
      StepStaysAwake(s, steps[0], limit);
      RunStaysAwake(Apply(s, steps[0]), steps[1..], t, limit);
    }
  }

  /** With fewer than 2 * CAPACITY simultaneous enqueuers no wake-up is lost: a parked
      consumer beside a non-empty queue, or parked producers beside a free slot,
      always leave some producer about to take the mutex, and its pass either
      wakes the consumer or leaves fewer producers parked. */
  lemma NoLostWakeup(t: State, limit: nat, i: nat, pick: nat)
    requires Reachable(t, limit) && limit < 2 * CAPACITY
    ensures t.consumer == Parked && t.l.conns != [] ==> t.ready != []
    ensures Blocked(t) > 0 && |t.l.conns| < CAPACITY ==> t.ready != []
    ensures t.consumer == Parked && Enabled(t, ProducerPass(i, pick), limit) ==>
              var u := Apply(t, ProducerPass(i, pick));
              u.consumer == Ready || (u.consumer == Parked && Blocked(u) < Blocked(t))
  {
    var steps :| Runs(Init(), steps, t, limit);
    RunStaysAwake(Init(), steps, t, limit);
    if t.consumer == Parked && Possible(t, ProducerPass(i, pick)) {
      var d := t.ready[i];
      SignalCounts(t.(ready := RemoveAt(t.ready, i), l := EnqueuePass(t.l, d).0, enqueued := t.enqueued + [d]), pick);
    }
  }

  // The converse: a run that loses every wake-up once 2 * CAPACITY producers wait.

  /** The step releases the goroutine that has been parked longest. */
  predicate Fifo(step: Step) {
    (step.ProducerPass? || step.ConsumerPass?) ==> step.pick == 0
  }

  predicate AllProducers(ws: seq<Waiter>) {
    forall i :: 0 <= i < |ws| ==> ws[i].Producer?
  }

  /** `n` queued connections, `r` ready and `w` parked producers, consumer away. */
  predicate Shape(s: State, n: nat, r: nat, w: nat) {
    && !s.l.closed && |s.l.conns| == n && |s.ready| == r
    && |s.waiters| == w && AllProducers(s.waiters) && s.consumer == Away
  }

  lemma OneStep(s: State, step: Step, limit: nat)
    requires Enabled(s, step, limit)
    ensures Runs(s, [step], Apply(s, step), limit)
  {
  }

  lemma TwoSteps(s: State, a: Step, b: Step, limit: nat)
    requires Enabled(s, a, limit) && Enabled(Apply(s, a), b, limit)
    ensures Runs(s, [a, b], Apply(Apply(s, a), b), limit)
  {
  }

  /** CAPACITY connections queue up, then `w` more producers park. */
  lemma {:induction false} FillAndPark(n: nat, w: nat, limit: nat) returns (steps: seq<Step>, t: State)
    requires n <= CAPACITY && (w > 0 ==> n == CAPACITY) && w <= limit && 0 < limit
    ensures Runs(Init(), steps, t, limit) && Shape(t, n, 0, w)
    ensures forall x :: x in steps ==> Fifo(x)
    decreases n + w
  {
    if n + w == 0 {
      return [], Init();
    }
    var before, s := FillAndPark(if w > 0 then n else n - 1, if w > 0 then w - 1 else 0, limit);
    var u := Apply(s, Arrive);
    TwoSteps(s, Arrive, ProducerPass(0, 0), limit);
    t := Apply(u, ProducerPass(0, 0));
    RunsConcat(Init(), before, s, [Arrive, ProducerPass(0, 0)], t, limit);
    steps := before + [Arrive, ProducerPass(0, 0)];
  }

  /** The consumer takes `k` connections before any released producer runs. */
  lemma {:induction false} Drain(s: State, k: nat, limit: nat) returns (steps: seq<Step>, t: State)
    requires k <= CAPACITY && Shape(s, CAPACITY, 0, 2 * CAPACITY)
    ensures Runs(s, steps, t, limit) && Shape(t, CAPACITY - k, k, 2 * CAPACITY - k)
    ensures forall x :: x in steps ==> Fifo(x)
    decreases k
  {
    if k == 0 {
      return [], s;
    }
    var before, m := Drain(s, k - 1, limit);
    TwoSteps(m, ConsumerCalls, ConsumerPass(0), limit);
    t := Apply(Apply(m, ConsumerCalls), ConsumerPass(0));
    RunsConcat(s, before, m, [ConsumerCalls, ConsumerPass(0)], t, limit);
    steps := before + [ConsumerCalls, ConsumerPass(0)];
  }

  /** The consumer is parked behind `w` producers beside `n` queued connections. */
  predicate Behind(s: State, n: nat, w: nat) {
    && !s.l.closed && |s.l.conns| == n && |s.ready| == CAPACITY && s.consumer == Parked
    && |s.waiters| == w + 1 && AllProducers(s.waiters[..w]) && s.waiters[w] == Consumer
  }

  /** The released producers refill the queue; each signal reaches another producer. */
  lemma {:induction false} Refill(s: State, k: nat, limit: nat) returns (steps: seq<Step>, t: State)
    requires k <= CAPACITY && Behind(s, 0, CAPACITY)
    ensures Runs(s, steps, t, limit) && Behind(t, k, CAPACITY - k)
    ensures forall x :: x in steps ==> Fifo(x)
    decreases k
  {
    if k == 0 {
      return [], s;
    }
    var before, m := Refill(s, k - 1, limit);
    var w := CAPACITY - k;
    assert m.waiters[0] == m.waiters[..w + 1][0];
    OneStep(m, ProducerPass(0, 0), limit);
    t := Apply(m, ProducerPass(0, 0));
    assert t.waiters == m.waiters[1..];
    assert t.waiters[..w] == m.waiters[..w + 1][1..];
    RunsConcat(s, before, m, [ProducerPass(0, 0)], t, limit);
    steps := before + [ProducerPass(0, 0)];
  }

  lemma LostWakeupRun(limit: nat) returns (steps: seq<Step>, t: State)
    requires limit >= 2 * CAPACITY
    ensures Runs(Init(), steps, t, limit) && Dead(t)
    ensures forall x :: x in steps ==> Fifo(x)
  {
    var a, s1 := FillAndPark(CAPACITY, 2 * CAPACITY, limit);
    var b, s2 := Drain(s1, CAPACITY, limit);
    TwoSteps(s2, ConsumerCalls, ConsumerPass(0), limit);
    var s3 := Apply(Apply(s2, ConsumerCalls), ConsumerPass(0));
    assert s3.waiters[..CAPACITY] == s2.waiters;
    var d, s4 := Refill(s3, CAPACITY, limit);
    RunsConcat(Init(), a, s1, b, s2, limit);
    RunsConcat(Init(), a + b, s2, [ConsumerCalls, ConsumerPass(0)], s3, limit);
    RunsConcat(Init(), a + b + [ConsumerCalls, ConsumerPass(0)], s3, d, s4, limit);
    steps, t := a + b + [ConsumerCalls, ConsumerPass(0)] + d, s4;
  }

  /** The listener can fall asleep on a full queue exactly when 2 * CAPACITY (256)
      goroutines may be inside `Enqueue` at once, whichever parked goroutine a
      signal releases. */
  lemma LostWakeupIff(limit: nat)
    ensures (exists t :: Reachable(t, limit) && Dead(t)) <==> limit >= 2 * CAPACITY
  {
    if limit >= 2 * CAPACITY {
      var steps, t := LostWakeupRun(limit);
      assert Reachable(t, limit);
    } else {
      forall t | Reachable(t, limit) ensures !Dead(t) {
        var steps :| Runs(Init(), steps, t, limit);
        RunStaysAwake(Init(), steps, t, limit);
      }
    }
  }
}
