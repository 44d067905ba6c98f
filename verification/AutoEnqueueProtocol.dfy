/**
 The coalescer under concurrency: `offer` calls, the loop, its timer, `stop` and
 `flush` calls from outside interleave step by step.
 */
module AutoEnqueueProtocol {
  import opened Text
  import opened AutoEnqueue
  import Jobs = AutoEnqueueJobs

  /** An `offer` call with its trimmed arguments: before its first lock section, before
      the overflow signal that precedes its second one, before that section, and before
      its final signal. */
  datatype OfferPhase =
    | Entering(sub: string, hash: string)
    | MakingRoom(sub: string, hash: string)
    | Retrying(sub: string, hash: string)
    | SignalsWake
    | SignalsOverflow

  /** The loop: at its `select`, between a received token and the swap in `flush`, or
      creating the jobs of the batch it took; `last` marks the flush after `stop`. */
  datatype LoopPhase =
    | NotStarted
    | Selecting
    | Flushing(last: bool)
    | Creating(last: bool)
    | Exited

  datatype Timer = Idle | Running | Fired

  datatype Pair = Pair(sub: string, hash: string)

  /**
   `inserted` lists the pairs that lock sections added to the buffer and `batches`
   what the flushes took out of it, both in order.
   */
  datatype State = State(
    pending: Buckets,
    wake: bool,
    overflow: bool,
    offers: map<nat, OfferPhase>,
    loop: LoopPhase,
    armed: bool,
    timer: Timer,
    stopped: bool,
    inserted: seq<Pair>,
    batches: seq<Buckets>)

  datatype Step =
    | OfferStarts(id: nat, sub: string, hash: string)
    | OfferSteps(id: nat)
    | LoopStarts
    | Stops
    | ReceivesStop
    | ReceivesOverflow
    | ReceivesWake
    | ReceivesTimer
    | TimerFires
    | LoopSwaps
    | LoopFinishes
    | OutsideFlushSwaps

  function Init(): State {
    State(map[], false, false, map[], NotStarted, false, Idle, false, [], [])
  }

  predicate Enabled(s: State, step: Step) {
    match step
    case OfferStarts(id, sub, hash) => id !in s.offers && TrimSpace(sub) != "" && TrimSpace(hash) != ""
    case OfferSteps(id) => id in s.offers
    case LoopStarts => s.loop == NotStarted
    case Stops => true
    case ReceivesStop => s.loop == Selecting && s.stopped
    case ReceivesOverflow => s.loop == Selecting && s.overflow
    case ReceivesWake => s.loop == Selecting && s.wake
    case ReceivesTimer => s.loop == Selecting && s.timer == Fired
    case TimerFires => s.timer == Running
    case LoopSwaps => s.loop.Flushing?
    case LoopFinishes => s.loop.Creating?
    case OutsideFlushSwaps => true
  }

  function OffersAfter(offers: map<nat, OfferPhase>, id: nat, pair: Pair, o: OfferOutcome): map<nat, OfferPhase> {
    match o
    case NeedsRoom => offers[id := MakingRoom(pair.sub, pair.hash)]
    case Dropped => offers - {id}
    case Known => offers - {id}
    case Buffered => offers[id := SignalsWake]
    case Overflows => offers[id := SignalsOverflow]
  }

  /** The state after a lock section of `offer` that left `p` and decided `o`. */
  function AfterSection(s: State, id: nat, pair: Pair, p: Buckets, o: OfferOutcome): State {
    s.(pending := p,
       offers := OffersAfter(s.offers, id, pair, o),
       inserted := if o == Buffered || o == Overflows then s.inserted + [pair] else s.inserted)
  }

  function ApplyOffer(s: State, cfg: Config, id: nat): State
    requires id in s.offers
  {
    match s.offers[id]
    case Entering(sub, hash) =>
      var Section(p, o) := FirstSection(s.pending, cfg, sub, hash);
      AfterSection(s, id, Pair(sub, hash), p, o)
    case MakingRoom(sub, hash) => s.(overflow := true, offers := s.offers[id := Retrying(sub, hash)])
    case Retrying(sub, hash) =>
      var Section(p, o) := RetrySection(s.pending, cfg, sub, hash);
      AfterSection(s, id, Pair(sub, hash), p, o)
    case SignalsWake => s.(wake := true, offers := s.offers - {id})
    case SignalsOverflow => s.(overflow := true, offers := s.offers - {id})
  }

  function SwapOut(s: State): State {
    s.(pending := map[], batches := s.batches + [s.pending])
  }

  function Apply(s: State, cfg: Config, step: Step): State
    requires Enabled(s, step)
  {
    match step
    case OfferStarts(id, sub, hash) => s.(offers := s.offers[id := Entering(TrimSpace(sub), TrimSpace(hash))])
    case OfferSteps(id) => ApplyOffer(s, cfg, id)
    case LoopStarts => s.(loop := Selecting)
    case Stops => s.(stopped := true)
    case ReceivesStop => s.(loop := Flushing(true))
    case ReceivesOverflow =>
      s.(overflow := false, armed := false, timer := if s.armed then Idle else s.timer, loop := Flushing(false))
    case ReceivesWake =>
      s.(wake := false, armed := true, timer := if s.armed then s.timer else Running)
    case ReceivesTimer => s.(timer := Idle, armed := false, loop := Flushing(false))
    case TimerFires => s.(timer := Fired)
    case LoopSwaps => SwapOut(s).(loop := Creating(s.loop.last))
    case LoopFinishes => s.(loop := if s.loop.last then Exited else Selecting)
    case OutsideFlushSwaps => SwapOut(s)
  }

  ghost predicate Runs(s: State, cfg: Config, steps: seq<Step>, t: State)
    decreases |steps|
  {
    if steps == [] then s == t
    else Enabled(s, steps[0]) && Runs(Apply(s, cfg, steps[0]), cfg, steps[1..], t)
  }

  ghost predicate Reachable(cfg: Config, t: State) {
    exists steps :: Runs(Init(), cfg, steps, t)
  }

  // ---------------------------------------------------------------------------
  // Bound and conservation

  ghost function One(b: bool): nat {
    if b then 1 else 0
  }

  /** How many batches took the pair. */
  ghost function TimesTaken(batches: seq<Buckets>, pair: Pair): nat {
    if batches == [] then 0
    else TimesTaken(batches[..|batches| - 1], pair)
         + One(Contains(batches[|batches| - 1], pair.sub, pair.hash))
  }

  ghost predicate Conserves(s: State, pair: Pair) {
    multiset(s.inserted)[pair] ==
    One(Contains(s.pending, pair.sub, pair.hash)) + TimesTaken(s.batches, pair)
  }

  /** An insertion adds exactly its own pair. */
  lemma InsertAdds(p: Buckets, cfg: Config, sub: string, hash: string, pair: Pair)
    ensures var Section(q, o) := Insert(p, cfg, sub, hash);
            && Contains(q, pair.sub, pair.hash) == (Contains(p, pair.sub, pair.hash) || pair == Pair(sub, hash))
            && (o == Known <==> Contains(p, sub, hash)) && Taken(o)
  {
  }

  /** A lock section on `p` for `own` inserts that pair or leaves the buffer alone. */
  ghost predicate Adds(p: Buckets, r: Section, own: Pair, pair: Pair) {
    if r.outcome == Buffered || r.outcome == Overflows then
      && !Contains(p, own.sub, own.hash)
      && Contains(r.buckets, pair.sub, pair.hash) == (Contains(p, pair.sub, pair.hash) || pair == own)
    else r.buckets == p
  }

  lemma SectionsAdd(p: Buckets, cfg: Config, own: Pair, pair: Pair)
    ensures Adds(p, FirstSection(p, cfg, own.sub, own.hash), own, pair)
    ensures Adds(p, RetrySection(p, cfg, own.sub, own.hash), own, pair)
  {
    InsertAdds(p, cfg, own.sub, own.hash, pair);
  }

  lemma SectionConserves(s: State, id: nat, own: Pair, r: Section, pair: Pair)
    requires Conserves(s, pair) && Adds(s.pending, r, own, pair)
    ensures Conserves(AfterSection(s, id, own, r.buckets, r.outcome), pair)
  {
  }

  lemma OfferConserves(s: State, cfg: Config, id: nat, pair: Pair)
    requires Conserves(s, pair) && id in s.offers
    ensures Conserves(ApplyOffer(s, cfg, id), pair)
  {
    match s.offers[id]
    case Entering(sub, hash) =>
      SectionsAdd(s.pending, cfg, Pair(sub, hash), pair);
      SectionConserves(s, id, Pair(sub, hash), FirstSection(s.pending, cfg, sub, hash), pair);
    case Retrying(sub, hash) =>
      SectionsAdd(s.pending, cfg, Pair(sub, hash), pair);
      SectionConserves(s, id, Pair(sub, hash), RetrySection(s.pending, cfg, sub, hash), pair);
    case _ =>
  }

  lemma StepConserves(s: State, cfg: Config, step: Step, pair: Pair)
    requires Conserves(s, pair) && Enabled(s, step)
    ensures Conserves(Apply(s, cfg, step), pair)
  {
    if step.OfferSteps? {
      OfferConserves(s, cfg, step.id, pair);
    }
  }

  lemma SectionsKeepBound(p: Buckets, cfg: Config, sub: string, hash: string)
    requires |p| <= cfg.maxSubs
    ensures |FirstSection(p, cfg, sub, hash).buckets| <= cfg.maxSubs
    ensures |RetrySection(p, cfg, sub, hash).buckets| <= cfg.maxSubs
  {
  }

  lemma OfferKeepsBound(s: State, cfg: Config, id: nat)
    requires |s.pending| <= cfg.maxSubs && id in s.offers
    ensures |ApplyOffer(s, cfg, id).pending| <= cfg.maxSubs
  {
    match s.offers[id]
    case Entering(sub, hash) => SectionsKeepBound(s.pending, cfg, sub, hash);
    case Retrying(sub, hash) => SectionsKeepBound(s.pending, cfg, sub, hash);
    case _ =>
  }

  lemma StepKeepsBound(s: State, cfg: Config, step: Step)
    requires |s.pending| <= cfg.maxSubs && Enabled(s, step)
    ensures |Apply(s, cfg, step).pending| <= cfg.maxSubs
  {
    if step.OfferSteps? {
      OfferKeepsBound(s, cfg, step.id);
    }
  }

  // ---------------------------------------------------------------------------
  // No lost wake-up

  /** Some `offer` call is between its last unlock and its signal. */
  ghost predicate Signalling(s: State) {
    exists id :: id in s.offers && (s.offers[id].SignalsWake? || s.offers[id].SignalsOverflow?)
  }

  /** The flush that follows `stop` has not swapped the buffer yet. */
  predicate LoopAlive(s: State) {
    !s.loop.Exited? && !(s.loop.Creating? && s.loop.last)
  }

  ghost predicate WakeUpPending(s: State) {
    s.wake || s.overflow || s.armed || s.loop.Flushing? || Signalling(s)
  }

  ghost predicate NoneLost(s: State) {
    && (s.armed <==> s.timer != Idle)
    && (LoopAlive(s) && s.pending != map[] ==> WakeUpPending(s))
  }

  /** Only `id` changes among the offers, so another one that is about to signal still is. */
  lemma StillSignalling(s: State, t: State, id: nat)
    requires Signalling(s) && forall x :: x in s.offers && x != id ==> x in t.offers && t.offers[x] == s.offers[x]
    ensures Signalling(t) || (id in s.offers && (s.offers[id].SignalsWake? || s.offers[id].SignalsOverflow?))
  {
  }

  lemma SectionLosesNothing(s: State, id: nat, own: Pair, p: Buckets, o: OfferOutcome)
    requires NoneLost(s) && id in s.offers && !s.offers[id].SignalsWake? && !s.offers[id].SignalsOverflow?
    requires o == Buffered || o == Overflows || p == s.pending
    ensures NoneLost(AfterSection(s, id, own, p, o))
  {
    var t := AfterSection(s, id, own, p, o);
    if o == Buffered || o == Overflows {
      assert id in t.offers && (t.offers[id].SignalsWake? || t.offers[id].SignalsOverflow?);
    } else if Signalling(s) {
      StillSignalling(s, t, id);
    }
  }

  lemma OfferLosesNothing(s: State, cfg: Config, id: nat)
    requires NoneLost(s) && id in s.offers
    ensures NoneLost(ApplyOffer(s, cfg, id))
  {
    var o := s.offers[id];
    match o
    case Entering(sub, hash) =>
      var Section(p, r) := FirstSection(s.pending, cfg, sub, hash);
      SectionLosesNothing(s, id, Pair(sub, hash), p, r);
    case Retrying(sub, hash) =>
      var Section(p, r) := RetrySection(s.pending, cfg, sub, hash);
      SectionLosesNothing(s, id, Pair(sub, hash), p, r);
    case _ =>
  }

  lemma StepLosesNothing(s: State, cfg: Config, step: Step)
    requires NoneLost(s) && Enabled(s, step)
    ensures NoneLost(Apply(s, cfg, step))
  {
    var t := Apply(s, cfg, step);
    if step.OfferSteps? {
      OfferLosesNothing(s, cfg, step.id);
    } else if Signalling(s) {
      var x :| x in s.offers && (s.offers[x].SignalsWake? || s.offers[x].SignalsOverflow?);
      assert x in t.offers && t.offers[x] == s.offers[x];
    }
  }

  // ---------------------------------------------------------------------------
  // Whole runs

  lemma {:induction false} RunKeeps(s: State, cfg: Config, steps: seq<Step>, t: State)
    requires |s.pending| <= cfg.maxSubs && NoneLost(s) && (forall pair :: Conserves(s, pair))
    requires Runs(s, cfg, steps, t)
    ensures |t.pending| <= cfg.maxSubs && NoneLost(t) && (forall pair :: Conserves(t, pair))
    decreases |steps|
  {
    if steps != [] {
      forall pair {
        StepConserves(s, cfg, steps[0], pair);
      }
      StepKeepsBound(s, cfg, steps[0]);
      StepLosesNothing(s, cfg, steps[0]);
      RunKeeps(Apply(s, cfg, steps[0]), cfg, steps[1..], t);
    }
  }

  /** In every interleaving the buffer stays within its bound, and every insertion of a
      pair is either still in the buffer or was taken by exactly one flush. */
  lemma EveryPairAccountedFor(cfg: Config, t: State, pair: Pair)
    requires Reachable(cfg, t)
    ensures |t.pending| <= cfg.maxSubs
    ensures multiset(t.inserted)[pair] ==
            One(Contains(t.pending, pair.sub, pair.hash)) + TimesTaken(t.batches, pair)
  {
    var steps :| Runs(Init(), cfg, steps, t);
    RunKeeps(Init(), cfg, steps, t);
    assert Conserves(t, pair);
  }

  /** Until the flush after `stop`, a non-empty buffer always has a wake-up on its way. */
  lemma NoWakeUpIsLost(cfg: Config, t: State)
    requires Reachable(cfg, t) && LoopAlive(t) && t.pending != map[]
    ensures WakeUpPending(t) && (t.armed <==> t.timer != Idle)
  {
    var steps :| Runs(Init(), cfg, steps, t);
    RunKeeps(Init(), cfg, steps, t);
  }

  // ---------------------------------------------------------------------------
  // The loop gets to the flush

  /** Steps of the loop goroutine before the swap, and of its timer. */
  predicate LoopStep(step: Step) {
    step.ReceivesStop? || step.ReceivesOverflow? || step.ReceivesWake? || step.ReceivesTimer? || step.TimerFires?
  }

  function TimerRank(t: Timer): nat {
    match t
    case Fired => 0
    case Running => 1
    case Idle => 2
  }

  /** An upper bound on the loop and timer steps before the next flush. */
  function Rank(s: State): nat {
    if s.loop.Flushing? then (if s.timer == Running then 1 else 0)
    else (if s.wake then 3 else 1) + TimerRank(s.timer)
  }

  /** The loop is at its `select` or already past it, and no signal is outstanding. */
  ghost predicate Ready(s: State) {
    (s.loop.Selecting? || s.loop.Flushing?) && NoneLost(s) && s.pending != map[] && !Signalling(s)
  }

  lemma LoopProgresses(s: State, cfg: Config)
    requires Ready(s) && s.loop.Selecting?
    ensures exists step :: LoopStep(step) && Enabled(s, step)
  {
    if s.overflow {
      assert Enabled(s, ReceivesOverflow);
    } else if s.wake {
      assert Enabled(s, ReceivesWake);
    } else if s.timer == Fired {
      assert Enabled(s, ReceivesTimer);
    } else {
      assert Enabled(s, TimerFires);
    }
  }

  lemma RankFalls(s: State, cfg: Config, step: Step)
    requires Ready(s) && LoopStep(step) && Enabled(s, step)
    ensures var t := Apply(s, cfg, step);
            t.offers == s.offers && t.pending == s.pending && Ready(t) && Rank(t) < Rank(s)
  {
    StepLosesNothing(s, cfg, step);
  }

  /** Once the offers have sent their signals, no run of the loop and its timer alone
      takes more than five steps without reaching the flush, and it cannot get stuck
      before: the next swap takes everything that is buffered. */
  lemma {:induction false} FlushIsNear(s: State, cfg: Config, steps: seq<Step>, t: State)
    requires Ready(s) && Runs(s, cfg, steps, t) && forall x :: x in steps ==> LoopStep(x)
    ensures Ready(t) && t.pending == s.pending
    ensures |steps| + Rank(t) <= Rank(s) <= 5
    ensures t.loop.Selecting? ==> exists step :: LoopStep(step) && Enabled(t, step)
    decreases |steps|
  {
    if steps == [] {
      if s.loop.Selecting? {
        LoopProgresses(s, cfg);
      }
    } else {
      assert steps[0] in steps;
      RankFalls(s, cfg, steps[0]);
      FlushIsNear(Apply(s, cfg, steps[0]), cfg, steps[1..], t);
    }
  }

  /** The swap that ends the wait leaves nothing behind. */
  lemma SwapTakesAll(s: State, cfg: Config, pair: Pair)
    requires s.loop.Flushing? && Contains(s.pending, pair.sub, pair.hash)
    ensures var t := Apply(s, cfg, LoopSwaps);
            t.pending == map[] && TimesTaken(t.batches, pair) == TimesTaken(s.batches, pair) + 1
  {
  }

  // ---------------------------------------------------------------------------
  // From an offer to a job

  predicate CleanPair(sub: string, hash: string) {
    Trimmed(sub) && sub != "" && Trimmed(hash) && hash != ""
  }

  predicate CleanOffer(o: OfferPhase) {
    o.SignalsWake? || o.SignalsOverflow? || CleanPair(o.sub, o.hash)
  }

  /** Everything that offers carry, that is buffered and that was taken is trimmed and
      not empty, which is what a flush relies on. */
  ghost predicate Clean(s: State) {
    && AllClean(s.pending)
    && (forall i :: 0 <= i < |s.batches| ==> AllClean(s.batches[i]))
    && (forall id :: id in s.offers ==> CleanOffer(s.offers[id]))
  }

  lemma SectionsKeepClean(p: Buckets, cfg: Config, sub: string, hash: string)
    requires AllClean(p) && CleanPair(sub, hash)
    ensures AllClean(FirstSection(p, cfg, sub, hash).buckets) && AllClean(RetrySection(p, cfg, sub, hash).buckets)
  {
  }

  lemma SectionKeepsClean(s: State, id: nat, own: Pair, p: Buckets, o: OfferOutcome)
    requires Clean(s) && CleanPair(own.sub, own.hash) && AllClean(p)
    ensures Clean(AfterSection(s, id, own, p, o))
  {
  }

  lemma OfferKeepsClean(s: State, cfg: Config, id: nat)
    requires Clean(s) && id in s.offers
    ensures Clean(ApplyOffer(s, cfg, id))
  {
    assert CleanOffer(s.offers[id]);
    match s.offers[id]
    case Entering(sub, hash) =>
      var Section(p, o) := FirstSection(s.pending, cfg, sub, hash);
      SectionsKeepClean(s.pending, cfg, sub, hash);
      SectionKeepsClean(s, id, Pair(sub, hash), p, o);
    case Retrying(sub, hash) =>
      var Section(p, o) := RetrySection(s.pending, cfg, sub, hash);
      SectionsKeepClean(s.pending, cfg, sub, hash);
      SectionKeepsClean(s, id, Pair(sub, hash), p, o);
    case MakingRoom(sub, hash) => assert CleanOffer(Retrying(sub, hash));
    case _ =>
  }

  lemma StepKeepsClean(s: State, cfg: Config, step: Step)
    requires Clean(s) && Enabled(s, step)
    ensures Clean(Apply(s, cfg, step))
  {
    if step.OfferSteps? {
      OfferKeepsClean(s, cfg, step.id);
    } else if step.OfferStarts? {
      var _, _ := TrimSpaceCuts(step.sub);
      var _, _ := TrimSpaceCuts(step.hash);
    }
  }

  lemma {:induction false} RunKeepsClean(s: State, cfg: Config, steps: seq<Step>, t: State)
    requires Clean(s) && Runs(s, cfg, steps, t)
    ensures Clean(t)
    decreases |steps|
  {
    if steps != [] {
      StepKeepsClean(s, cfg, steps[0]);
      RunKeepsClean(Apply(s, cfg, steps[0]), cfg, steps[1..], t);
    }
  }

  /** How many of the jobs are to look at the pair. */
  function TimesInJobs(jobs: seq<Jobs.Job>, pair: Pair): nat {
    if jobs == [] then 0
    else
      var last := jobs[|jobs| - 1];
      TimesInJobs(jobs[..|jobs| - 1], pair) + if last.id == pair.sub && pair.hash in last.hashes then 1 else 0
  }

  function JobsWith(outcomes: seq<Jobs.Outcome>, pair: Pair): nat {
    if outcomes == [] then 0
    else JobsWith(outcomes[..|outcomes| - 1], pair) + TimesInJobs(outcomes[|outcomes| - 1].jobs, pair)
  }

  lemma {:induction false} InOneJob(jobs: seq<Jobs.Job>, pair: Pair)
    requires Distinct(Jobs.JobIds(jobs))
    ensures pair.sub !in Jobs.JobIds(jobs) ==> TimesInJobs(jobs, pair) == 0
    ensures forall j :: 0 <= j < |jobs| && jobs[j].id == pair.sub ==>
              TimesInJobs(jobs, pair) == if pair.hash in jobs[j].hashes then 1 else 0
    decreases |jobs|
  {
    if jobs != [] {
      var front := jobs[..|jobs| - 1];
      var ids, before := Jobs.JobIds(jobs), Jobs.JobIds(front);
      assert ids == before + [jobs[|jobs| - 1].id];
      assert Distinct(before) by {
        assert forall i :: 0 <= i < |before| ==> before[i] == ids[i];
      }
      InOneJob(front, pair);
      assert forall i :: 0 <= i < |before| ==> before[i] == ids[i] != ids[|before|];
      forall j | 0 <= j < |jobs| && jobs[j].id == pair.sub
        ensures TimesInJobs(jobs, pair) == if pair.hash in jobs[j].hashes then 1 else 0
      {
        if j < |front| {
          assert before[j] == pair.sub;
        }
      }
    }
  }

  /** The call of a flush: the flags and the manager of that moment, and what it returned. */
  datatype FlushCall = FlushCall(lookup: string -> bool, manager: Jobs.Manager, r: Jobs.Outcome)

  /** The flush is to make a job for the subscription: its flag is set and the manager
      runs. */
  predicate Due(call: FlushCall, sub: string) {
    call.manager.Running? && call.lookup(sub)
  }

  /** It is and was told no error. */
  predicate Honoured(call: FlushCall, sub: string) {
    Due(call, sub) && call.r.error == Jobs.NoError
  }

  /** A flush gives a pair of its batch one job if it was to make one and nothing was
      refused, none if it was not to make one, and never more than one. */
  lemma FlushGivesOneJob(batch: Buckets, call: FlushCall, pair: Pair)
    requires Flushed(batch, call.lookup, call.manager, call.r)
    ensures TimesInJobs(call.r.jobs, pair) <= One(Due(call, pair.sub) && Contains(batch, pair.sub, pair.hash))
    ensures TimesInJobs(call.r.jobs, pair) >= One(Honoured(call, pair.sub) && Contains(batch, pair.sub, pair.hash))
  {
    var jobs := call.r.jobs;
    InOneJob(jobs, pair);
    var ids := Jobs.JobIds(jobs);
    if pair.sub in ids {
      var j :| 0 <= j < |ids| && ids[j] == pair.sub;
      assert jobs[j].id == pair.sub;
      assert pair.hash in jobs[j].hashes <==> pair.hash in Elements(jobs[j].hashes);
    } else if Honoured(call, pair.sub) && pair.sub in batch {
      JobOfId(batch, call.lookup, jobs, pair.sub);
    }
  }

  ghost predicate Results(batches: seq<Buckets>, calls: seq<FlushCall>) {
    && |calls| == |batches|
    && forall i :: 0 <= i < |calls| ==> Flushed(batches[i], calls[i].lookup, calls[i].manager, calls[i].r)
  }

  function Outcomes(calls: seq<FlushCall>): seq<Jobs.Outcome> {
    seq(|calls|, i requires 0 <= i < |calls| => calls[i].r)
  }

  /** How many flushes took the pair and were to make a job for it; those without an
      error only, if so asked. */
  ghost function TimesDue(batches: seq<Buckets>, calls: seq<FlushCall>, pair: Pair, honoured: bool): nat
    requires |calls| == |batches|
  {
    if calls == [] then 0
    else
      var n := |calls| - 1;
      TimesDue(batches[..n], calls[..n], pair, honoured)
      + One((if honoured then Honoured(calls[n], pair.sub) else Due(calls[n], pair.sub)) && Contains(batches[n], pair.sub, pair.hash))
  }

  /** No flush that was to make a job for the subscription was told an error. */
  predicate NoneFailed(calls: seq<FlushCall>, sub: string) {
    forall i :: 0 <= i < |calls| && Due(calls[i], sub) ==> Honoured(calls[i], sub)
  }

  lemma {:induction false} JobsOfBatches(batches: seq<Buckets>, calls: seq<FlushCall>, pair: Pair)
    requires Results(batches, calls)
    ensures TimesDue(batches, calls, pair, true) <= JobsWith(Outcomes(calls), pair) <= TimesDue(batches, calls, pair, false)
    ensures TimesDue(batches, calls, pair, false) <= TimesTaken(batches, pair)
    ensures NoneFailed(calls, pair.sub) ==> TimesDue(batches, calls, pair, true) == TimesDue(batches, calls, pair, false)
    ensures (forall i :: 0 <= i < |calls| ==> Honoured(calls[i], pair.sub)) ==>
              TimesDue(batches, calls, pair, true) == TimesTaken(batches, pair)
    decreases |calls|
  {
    if calls != [] {
      var n := |calls| - 1;
      assert Outcomes(calls)[..n] == Outcomes(calls[..n]);
      JobsOfBatches(batches[..n], calls[..n], pair);
      FlushGivesOneJob(batches[n], calls[n], pair);
    }
  }

  /** From end to end, in every interleaving and whenever the manager was switched on and
      off: what each flush takes is what its job creation relies on; a pair has at most
      one job for each insertion that a flush took with the manager running and the
      flag set, and exactly one if none of these flushes was told an error; and if every
      flush was such a one, every insertion that is no longer buffered has its job. */
  lemma EveryPairReachesOneJob(cfg: Config, t: State, calls: seq<FlushCall>, pair: Pair)
    requires Reachable(cfg, t) && Results(t.batches, calls)
    ensures forall i :: 0 <= i < |t.batches| ==> AllClean(t.batches[i])
    ensures TimesDue(t.batches, calls, pair, true) <= JobsWith(Outcomes(calls), pair) <= TimesDue(t.batches, calls, pair, false)
    ensures One(Contains(t.pending, pair.sub, pair.hash)) + TimesDue(t.batches, calls, pair, false) <= multiset(t.inserted)[pair]
    ensures NoneFailed(calls, pair.sub) ==>
              JobsWith(Outcomes(calls), pair) == TimesDue(t.batches, calls, pair, false)
    ensures (forall i :: 0 <= i < |calls| ==> Honoured(calls[i], pair.sub)) ==>
              One(Contains(t.pending, pair.sub, pair.hash)) + JobsWith(Outcomes(calls), pair) == multiset(t.inserted)[pair]
  {
    var steps :| Runs(Init(), cfg, steps, t);
    RunKeepsClean(Init(), cfg, steps, t);
    EveryPairAccountedFor(cfg, t, pair);
    JobsOfBatches(t.batches, calls, pair);
  }
}
