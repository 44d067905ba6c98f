/**
 The coalescer that buffers freshly added nodes and flushes them as jobs
 (`autoEnqueueQueue`), one call at a time.  `FirstSection` and `RetrySection` are what
 one holder of the mutex does in `offer`, and `Flushed` is what a flush makes of the
 buffer it took; class `AutoEnqueueQueue` implements them.
 */
module AutoEnqueue {
  import opened Text
  import opened AutoEnqueueJobs

  const DEFAULT_SUBSCRIPTIONS: nat := 512

  type Buckets = map<string, set<string>>

  datatype Config = Config(maxNodes: nat, maxSubs: nat)

  /** `newAutoEnqueueQueue` replaces an unusable bound by its default. */
  function NewConfig(maxNodesPerBatch: int, maxSubscriptions: int): (c: Config)
    ensures c.maxNodes > 0 && c.maxSubs > 0
  {
    Config(if maxNodesPerBatch <= 0 then MAX_NODES_PER_JOB else maxNodesPerBatch,
           if maxSubscriptions <= 0 then DEFAULT_SUBSCRIPTIONS else maxSubscriptions)
  }

  datatype OfferOutcome = NeedsRoom | Dropped | Known | Buffered | Overflows

  /** The buffer after a lock section of `offer`, and what the section decided. */
  datatype Section = Section(buckets: Buckets, outcome: OfferOutcome)

  function Bucket(p: Buckets, sub: string): set<string> {
    if sub in p then p[sub] else {}
  }

  /** A hash that is new to its bucket makes it one larger. */
  function Insert(p: Buckets, cfg: Config, sub: string, hash: string): Section {
    var bucket := Bucket(p, sub);
    if hash in bucket then Section(p, Known)
    else Section(p[sub := bucket + {hash}], if |bucket| + 1 >= cfg.maxNodes then Overflows else Buffered)
  }

  /** The first lock section of `offer`. */
  function FirstSection(p: Buckets, cfg: Config, sub: string, hash: string): Section {
    if sub !in p && |p| >= cfg.maxSubs then Section(p, NeedsRoom) else Insert(p, cfg, sub, hash)
  }

  /** The second one, after the overflow signal was sent. */
  function RetrySection(p: Buckets, cfg: Config, sub: string, hash: string): Section {
    if |p| >= cfg.maxSubs then Section(p, Dropped) else Insert(p, cfg, sub, hash)
  }

  predicate Taken(o: OfferOutcome) {
    o == Known || o == Buffered || o == Overflows
  }

  ghost predicate Contains(p: Buckets, sub: string, hash: string) {
    sub in p && hash in p[sub]
  }

  class AutoEnqueueQueue {
    const cfg: Config
    var pending: Buckets
    var created: nat
    var skipped: nat
    var dropped: nat
    var failed: nat
    var wake: bool
    var overflow: bool

    /** The buffer is bounded and clean. */
    ghost predicate Valid()
      reads this
    {
      cfg.maxSubs > 0 && Bounded(pending, cfg)
    }

    constructor (maxNodesPerBatch: int, maxSubscriptions: int)
      ensures Valid()
      ensures cfg == NewConfig(maxNodesPerBatch, maxSubscriptions)
      ensures pending == map[] && !wake && !overflow
      ensures created == skipped == dropped == failed == 0
    {
      cfg := NewConfig(maxNodesPerBatch, maxSubscriptions);
      pending, wake, overflow := map[], false, false;
      created, skipped, dropped, failed := 0, 0, 0, 0;
    }

    /** `offer` when nothing else runs between its lock sections. */
    method Offer(subscriptionID: string, nodeHash: string) returns (accepted: bool)
      requires Valid()
      modifies this`pending, this`dropped, this`wake, this`overflow
      ensures Valid()
      ensures var sub, hash := TrimSpace(subscriptionID), TrimSpace(nodeHash);
              if sub == "" || hash == "" then
                !accepted && pending == old(pending) && dropped == old(dropped)
                && wake == old(wake) && overflow == old(overflow)
              else
                var Section(p, o) := FirstSection(old(pending), cfg, sub, hash);
                && pending == p
                && accepted == (o != NeedsRoom)
                && (accepted ==> Contains(pending, sub, hash))
                && dropped == old(dropped) + (if o == NeedsRoom then 1 else 0)
                && overflow == (old(overflow) || o == NeedsRoom || o == Overflows)
                && wake == (old(wake) || o == Buffered)
    {
      var sub, hash := TrimSpace(subscriptionID), TrimSpace(nodeHash);
      if sub == "" || hash == "" {
        return false;
      }
      OfferKeepsBounded(pending, cfg, subscriptionID, nodeHash);
      var bucket := {};
      if sub in pending {
        bucket := pending[sub];
      } else if |pending| >= cfg.maxSubs {
        overflow := true;
        dropped := dropped + 1;
        return false;
      }
      if hash in bucket {
        return true;
      }
      pending := pending[sub := bucket + {hash}];
      if |bucket + {hash}| >= cfg.maxNodes {
        overflow := true;
      } else {
        wake := true;
      }
      accepted := true;
    }

    /** `flush`: swaps the buffer out, creates the jobs and counts.  `lookup` is the
        auto_intel flag of a subscription. */
    method Flush(lookup: string -> bool, manager: Manager) returns (r: Outcome)
      requires Valid()
      modifies this`pending, this`created, this`skipped, this`failed
      ensures Valid() && pending == map[]
      ensures created == old(created) + r.created && skipped == old(skipped) + r.skipped
      ensures failed == old(failed) + (if r.error == NoError then 0 else 1)
      ensures Flushed(old(pending), lookup, manager, r)
    {
      var batch := pending;
      pending := map[];
      r := FlushBatch(batch, lookup, manager);
      created, skipped := created + r.created, skipped + r.skipped;
      if r.error != NoError {
        failed := failed + 1;
      }
    }
  }

  // ---------------------------------------------------------------------------
  // What a flush makes of its buckets

  /** Every job carries exactly the hashes of a bucket whose flag is set. */
  ghost predicate JobsOnlyFor(batch: Buckets, lookup: string -> bool, jobs: seq<Job>) {
    forall j :: 0 <= j < |jobs| ==>
      jobs[j].id in batch && lookup(jobs[j].id) && jobs[j].hashes == Sorted(batch[jobs[j].id])
  }

  /** Every bucket whose flag is set has its job. */
  ghost predicate JobsForAll(batch: Buckets, lookup: string -> bool, jobs: seq<Job>) {
    forall sub :: sub in batch && lookup(sub) ==> Job(sub, Sorted(batch[sub])) in jobs
  }

  /** The buckets whose flag is set. */
  function Flagged(batch: Buckets, lookup: string -> bool): set<string> {
    set sub | sub in batch && lookup(sub)
  }

  /** No bucket is too large and the manager accepts one job for each of them. */
  predicate NothingRefused(batch: Buckets, lookup: string -> bool, create: nat -> CreateResult) {
    && (forall sub :: sub in Flagged(batch, lookup) ==> |batch[sub]| <= MAX_NODES_PER_JOB)
    && (forall i :: 0 <= i < |Flagged(batch, lookup)| ==> create(i) == Created)
  }

  /**
   A job carries exactly the hashes of one bucket whose flag is set, and no two jobs are
   for the same bucket.  A running manager serves all those buckets, and the counts
   add up to the buckets taken, exactly if it refuses nothing; without one nothing is
   counted, and one that is switched off is an error unless there was nothing to do.
   */
  ghost predicate Flushed(batch: Buckets, lookup: string -> bool, manager: Manager, r: Outcome) {
    && r.created == |r.jobs| && JobsOnlyFor(batch, lookup, r.jobs) && Distinct(JobIds(r.jobs))
    && (manager.Running? ==>
          && (r.error == NoError <==> NothingRefused(batch, lookup, manager.create))
          && (r.error == NoError <==> JobsForAll(batch, lookup, r.jobs))
          && (r.error == NoError <==> r.created + r.skipped == |batch|))
    && (manager.NoManager? ==> r == Outcome(0, 0, NoError, []))
    && (manager.SwitchedOff? ==> r == Outcome(0, 0, if batch == map[] then NoError else Disabled, []))
  }

  /** A bucket whose flag is set was taken out of the buffer and has no job. */
  ghost predicate Loses(batch: Buckets, lookup: string -> bool, r: Outcome) {
    exists sub :: sub in Flagged(batch, lookup) && sub !in JobIds(r.jobs)
  }

  /** The manager runs and makes a job for every bucket whose flag is set. */
  predicate Serving(batch: Buckets, lookup: string -> bool, manager: Manager) {
    manager.Running? && NothingRefused(batch, lookup, manager.create)
  }

  /** A flush loses a bucket exactly if some bucket has its flag set and the manager is
      missing, is switched off or refuses something. */
  lemma LosesIff(batch: Buckets, lookup: string -> bool, manager: Manager, r: Outcome)
    requires Flushed(batch, lookup, manager, r)
    ensures Loses(batch, lookup, r) <==> Flagged(batch, lookup) != {} && !Serving(batch, lookup, manager)
  {
    forall sub | sub in Flagged(batch, lookup)
      ensures Job(sub, Sorted(batch[sub])) in r.jobs <==> sub in JobIds(r.jobs)
    {
      JobOfId(batch, lookup, r.jobs, sub);
    }
    if manager.Running? && !NothingRefused(batch, lookup, manager.create) {
      var sub :| sub in batch && lookup(sub) && Job(sub, Sorted(batch[sub])) !in r.jobs;
      assert sub in Flagged(batch, lookup);
    } else if !manager.Running? && Flagged(batch, lookup) != {} {
      var sub :| sub in Flagged(batch, lookup);
      assert sub !in JobIds(r.jobs);
    }
  }

  /** One that does: two buckets, and a manager that refuses its second job. */
  lemma SecondJobRefused() returns (batch: Buckets, lookup: string -> bool, create: nat -> CreateResult)
    ensures AllClean(batch)
    ensures forall r :: Flushed(batch, lookup, Running(create), r) ==> Loses(batch, lookup, r)
  {
    batch, lookup := map["a" := {"h"}, "b" := {"h"}], _ => true;
    create := (n: nat) => if n == 0 then Created else RefusedOther;
    assert Flagged(batch, lookup) == {"a", "b"};
    assert create(1) == RefusedOther;
    forall r | Flushed(batch, lookup, Running(create), r) ensures Loses(batch, lookup, r) {
      LosesIff(batch, lookup, Running(create), r);
    }
  }

  /** While the manager is switched off or missing, a flush loses every bucket whose flag
      is set, however small. */
  lemma SwitchedOffLosesAll(batch: Buckets, lookup: string -> bool, manager: Manager, r: Outcome, sub: string)
    requires Flushed(batch, lookup, manager, r) && !manager.Running? && sub in Flagged(batch, lookup)
    ensures Loses(batch, lookup, r) && sub !in JobIds(r.jobs) && r.created == r.skipped == 0
    ensures r.error == NoError <==> manager.NoManager?
  {
    assert sub !in JobIds(r.jobs);
  }

  lemma JobOfId(batch: Buckets, lookup: string -> bool, jobs: seq<Job>, sub: string)
    requires JobsOnlyFor(batch, lookup, jobs) && sub in batch
    ensures Job(sub, Sorted(batch[sub])) in jobs <==> sub in JobIds(jobs)
  {
    if sub in JobIds(jobs) {
      var j :| 0 <= j < |jobs| && JobIds(jobs)[j] == sub;
      assert jobs[j] == Job(sub, Sorted(batch[sub]));
    }
    if Job(sub, Sorted(batch[sub])) in jobs {
      var j :| 0 <= j < |jobs| && jobs[j] == Job(sub, Sorted(batch[sub]));
      assert JobIds(jobs)[j] == sub;
    }
  }

  /** What `offer` puts into the buffer: trimmed names and no empty bucket. */
  ghost predicate CleanBucket(sub: string, hashes: set<string>) {
    Trimmed(sub) && sub != "" && hashes != {} && forall h :: h in hashes ==> Trimmed(h) && h != ""
  }

  ghost predicate AllClean(p: Buckets) {
    forall sub :: sub in p ==> CleanBucket(sub, p[sub])
  }

  ghost predicate Bounded(p: Buckets, cfg: Config) {
    |p| <= cfg.maxSubs && AllClean(p)
  }

  lemma InsertKeepsBounded(p: Buckets, cfg: Config, sub: string, hash: string)
    requires Bounded(p, cfg) && (sub in p || |p| < cfg.maxSubs)
    requires Trimmed(sub) && sub != "" && Trimmed(hash) && hash != ""
    ensures Bounded(Insert(p, cfg, sub, hash).buckets, cfg)
    ensures Contains(Insert(p, cfg, sub, hash).buckets, sub, hash)
  {
  }

  /** Neither lock section lets the buffer outgrow its bound, and a pair that a section
      takes is in the buffer when the section ends. */
  lemma OfferKeepsBounded(p: Buckets, cfg: Config, subscriptionID: string, nodeHash: string)
    requires Bounded(p, cfg)
    requires TrimSpace(subscriptionID) != "" && TrimSpace(nodeHash) != ""
    ensures var sub, hash := TrimSpace(subscriptionID), TrimSpace(nodeHash);
            var Section(q1, o1) := FirstSection(p, cfg, sub, hash);
            var Section(q2, o2) := RetrySection(p, cfg, sub, hash);
            && Bounded(q1, cfg) && (Taken(o1) ==> Contains(q1, sub, hash))
            && Bounded(q2, cfg) && (Taken(o2) ==> Contains(q2, sub, hash))
  {
    var sub, hash := TrimSpace(subscriptionID), TrimSpace(nodeHash);
    var _, _ := TrimSpaceCuts(subscriptionID);
    var _, _ := TrimSpaceCuts(nodeHash);
    if sub in p || |p| < cfg.maxSubs {
      InsertKeepsBounded(p, cfg, sub, hash);
    }
  }

  /** The entry is that of a bucket. */
  predicate IsEntry(e: Entry, batch: Buckets, lookup: string -> bool) {
    e.id in batch && e == Entry(e.id, lookup(e.id), batch[e.id]) && e.id != "" && e.hashes != {}
  }

  ghost predicate HasId(es: seq<Entry>, sub: string) {
    exists i :: 0 <= i < |es| && es[i].id == sub
  }

  /** The list handed to the job manager has one entry per bucket. */
  ghost predicate Lists(batch: Buckets, lookup: string -> bool, es: seq<Entry>) {
    && (forall i :: 0 <= i < |es| ==> IsEntry(es[i], batch, lookup)) && DistinctIds(es)
    && |es| == |batch| && forall sub :: sub in batch ==> HasId(es, sub)
  }

  lemma JobsAreFlagged(batch: Buckets, lookup: string -> bool, es: seq<Entry>, k: nat)
    requires Lists(batch, lookup, es) && k <= |es|
    ensures JobsOnlyFor(batch, lookup, JobsFor(es[..k])) && Distinct(JobIds(JobsFor(es[..k])))
  {
    var jobs := JobsFor(es[..k]);
    forall j | 0 <= j < |jobs|
      ensures jobs[j].id in batch && lookup(jobs[j].id) && jobs[j].hashes == Sorted(batch[jobs[j].id])
    {
      var i := JobsComeFrom(es[..k], j);
      assert IsEntry(es[i], batch, lookup);
    }
    OneJobEach(es[..k]);
  }

  lemma FlaggedHasJob(batch: Buckets, lookup: string -> bool, es: seq<Entry>, sub: string)
    requires Lists(batch, lookup, es) && sub in batch && lookup(sub)
    ensures sub in JobIds(JobsFor(es))
  {
    assert HasId(es, sub);
    var i :| 0 <= i < |es| && es[i].id == sub;
    assert IsEntry(es[i], batch, lookup);
    JobsReach(es, i);
    assert JobIds(JobsFor(es))[|JobsFor(es[..i])|] == sub;
  }

  /** As many jobs as there are buckets whose flag is set, if all of them are served. */
  lemma AllJobs(batch: Buckets, lookup: string -> bool, es: seq<Entry>)
    requires Lists(batch, lookup, es)
    ensures |JobsFor(es)| == |Flagged(batch, lookup)| && JobsForAll(batch, lookup, JobsFor(es))
  {
    var jobs := JobsFor(es);
    assert es[..|es|] == es;
    JobsAreFlagged(batch, lookup, es, |es|);
    forall sub | sub in batch && lookup(sub)
      ensures sub in JobIds(jobs) && Job(sub, Sorted(batch[sub])) in jobs
    {
      FlaggedHasJob(batch, lookup, es, sub);
      JobOfId(batch, lookup, jobs, sub);
    }
    assert Elements(JobIds(jobs)) == Flagged(batch, lookup);
    DistinctSize(JobIds(jobs));
  }

  lemma ServedRefusesNothing(batch: Buckets, lookup: string -> bool, es: seq<Entry>, create: nat -> CreateResult)
    requires Lists(batch, lookup, es) && ServedUpTo(es, |es|, create)
    ensures NothingRefused(batch, lookup, create)
  {
    AllJobs(batch, lookup, es);
    forall i | 0 <= i < |Flagged(batch, lookup)| ensures create(i) == Created {
      var j := JobsComeFrom(es, i);
    }
    forall sub | sub in Flagged(batch, lookup) ensures |batch[sub]| <= MAX_NODES_PER_JOB {
      assert HasId(es, sub);
      var i :| 0 <= i < |es| && es[i].id == sub;
      assert IsEntry(es[i], batch, lookup);
    }
  }

  /** The whole list is served exactly if nothing is refused. */
  lemma ServedIff(batch: Buckets, lookup: string -> bool, es: seq<Entry>, create: nat -> CreateResult)
    requires Lists(batch, lookup, es)
    ensures ServedUpTo(es, |es|, create) <==> NothingRefused(batch, lookup, create)
  {
    if ServedUpTo(es, |es|, create) {
      ServedRefusesNothing(batch, lookup, es, create);
    }
    if NothingRefused(batch, lookup, create) {
      AllJobs(batch, lookup, es);
      forall i | 0 <= i < |es| && Eligible(es[i]) ensures Refusal(es[i], create, |JobsFor(es[..i])|) == NoError {
        assert IsEntry(es[i], batch, lookup);
        JobsReach(es, i);
      }
    }
  }

  /** A list that was not served to its end leaves the refused bucket without a job. */
  lemma RefusedHasNoJob(batch: Buckets, lookup: string -> bool, es: seq<Entry>, k: nat)
    requires Lists(batch, lookup, es) && k < |es| && Eligible(es[k])
    ensures !JobsForAll(batch, lookup, JobsFor(es[..k]))
  {
    var jobs := JobsFor(es[..k]);
    JobsAreFlagged(batch, lookup, es, k);
    assert IsEntry(es[k], batch, lookup);
    JobOfId(batch, lookup, jobs, es[k].id);
    forall j | 0 <= j < |jobs| ensures jobs[j].id != es[k].id {
      var i := JobsComeFrom(es[..k], j);
      assert es[..k][i] == es[i];
    }
    assert es[k].id !in JobIds(jobs);
  }

  lemma ServedJobs(batch: Buckets, lookup: string -> bool, es: seq<Entry>,
                   create: nat -> CreateResult, r: Outcome, k: nat)
    requires Lists(batch, lookup, es) && ServesFirst(es, create, r, k)
    ensures Flushed(batch, lookup, Running(create), r)
  {
    JobsAreFlagged(batch, lookup, es, k);
    ServedIff(batch, lookup, es, create);
    if k == |es| {
      assert es[..k] == es;
      AllJobs(batch, lookup, es);
    } else {
      RefusedHasNoJob(batch, lookup, es, k);
      assert !ServedUpTo(es, |es|, create);
    }
  }

  lemma CleanHashesOfClean(hashes: seq<string>)
    requires forall h :: h in hashes ==> Trimmed(h) && h != ""
    ensures CleanHashes(hashes) == Elements(hashes)
  {
  }

  method BucketSubscription(batch: Buckets, sub: string, lookup: string -> bool) returns (s: Subscription)
    requires sub in batch && AllClean(batch)
    ensures View(s) == Entry(sub, lookup(sub), batch[sub]) && IsEntry(View(s), batch, lookup)
  {
    assert CleanBucket(sub, batch[sub]);
    var hashes := SortedElements(batch[sub]);
    forall h | h in hashes ensures Trimmed(h) && h != "" {
      assert h in Elements(hashes);
    }
    CleanHashesOfClean(hashes);
    TrimSpaceOfTrimmed(sub);
    s := Subscription(sub, lookup(sub), hashes);
  }

  /** The keys of the batch, each once, in whatever order the map yields them. */
  method BatchKeys(batch: Buckets) returns (keys: seq<string>)
    ensures |keys| == |batch| && Elements(keys) == batch.Keys && Distinct(keys)
  {
    keys := [];
    var rest := batch.Keys;
    while rest != {}
      invariant rest <= batch.Keys && |keys| + |rest| == |batch.Keys|
      invariant Elements(keys) == batch.Keys - rest && Distinct(keys)
      decreases rest
    {
      var sub :| sub in rest;
      assert sub !in Elements(keys);
      assert Elements(keys + [sub]) == Elements(keys) + {sub};
      keys := keys + [sub];
      rest := rest - {sub};
    }
  }

  /** One entry per bucket of the batch. */
  method BatchSubscriptions(batch: Buckets, lookup: string -> bool) returns (subs: seq<Subscription>)
    requires AllClean(batch)
    ensures Lists(batch, lookup, Views(subs))
  {
    var keys := BatchKeys(batch);
    subs := [];
    ghost var es: seq<Entry> := [];
    for i := 0 to |keys|
      invariant |subs| == i && es == Views(subs) && Follows(batch, lookup, keys, es)
    {
      assert keys[i] in Elements(keys);
      var entry := BucketSubscription(batch, keys[i], lookup);
      ViewsNext(subs, entry);
      FollowsNext(batch, lookup, keys, es, View(entry));
      es, subs := es + [View(entry)], subs + [entry];
    }
    KeysList(batch, lookup, keys, es);
  }

  /** The entries are those of the first keys, in their order. */
  ghost predicate Follows(batch: Buckets, lookup: string -> bool, keys: seq<string>, es: seq<Entry>) {
    |es| <= |keys| && forall j :: 0 <= j < |es| ==> IsEntry(es[j], batch, lookup) && es[j].id == keys[j]
  }

  lemma FollowsNext(batch: Buckets, lookup: string -> bool, keys: seq<string>, es: seq<Entry>, e: Entry)
    requires Follows(batch, lookup, keys, es) && |es| < |keys| && IsEntry(e, batch, lookup) && e.id == keys[|es|]
    ensures Follows(batch, lookup, keys, es + [e])
  {
  }

  lemma KeysList(batch: Buckets, lookup: string -> bool, keys: seq<string>, es: seq<Entry>)
    requires |keys| == |batch| && Elements(keys) == batch.Keys && Distinct(keys)
    requires Follows(batch, lookup, keys, es) && |es| == |keys|
    ensures Lists(batch, lookup, es)
  {
    forall sub | sub in batch ensures HasId(es, sub) {
      assert sub in Elements(keys);
      var i :| 0 <= i < |keys| && keys[i] == sub;
      assert es[i].id == sub;
    }
  }

  lemma NothingToFlush(lookup: string -> bool, manager: Manager)
    ensures Flushed(map[], lookup, manager, Outcome(0, 0, NoError, []))
  {
    assert Flagged(map[], lookup) == {};
  }

  lemma ServedIsFlushed(batch: Buckets, lookup: string -> bool, es: seq<Entry>, create: nat -> CreateResult, r: Outcome)
    requires Lists(batch, lookup, es) && Serves(es, create, r)
    ensures Flushed(batch, lookup, Running(create), r)
  {
    ServedJobs(batch, lookup, es, create, r, r.created + r.skipped);
  }

  /** `flush` after the swap. */
  method FlushBatch(batch: Buckets, lookup: string -> bool, manager: Manager) returns (r: Outcome)
    requires AllClean(batch)
    ensures Flushed(batch, lookup, manager, r)
  {
    if |batch| == 0 {
      NothingToFlush(lookup, manager);
      return Outcome(0, 0, NoError, []);
    }
    var subs := BatchSubscriptions(batch, lookup);
    r := AutoEnqueueSubscriptions(subs, manager);
    if manager.Running? {
      ServedIsFlushed(batch, lookup, Views(subs), manager.create, r);
    }
  }
}
