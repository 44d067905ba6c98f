/**
 Turning a batch of buffered subscriptions into jobs (`AutoEnqueueSubscriptions`
 and `normalizeSubscriptionHashes`), including the calls that fail.
 */
module AutoEnqueueJobs {
  import opened Text

  const MAX_NODES_PER_JOB: nat := 200_000

  datatype Subscription = Subscription(id: string, autoIntel: bool, hashes: seq<string>)

  datatype Job = Job(id: string, hashes: seq<string>)

  datatype Error = NoError | Disabled | TooManyNodes | CreateFailed

  datatype CreateResult = Created | RefusedDisabled | RefusedOther

  /** The job manager: absent, switched off, or answering the n-th `Create` call. */
  datatype Manager = NoManager | SwitchedOff | Running(create: nat -> CreateResult)

  datatype Outcome = Outcome(created: nat, skipped: nat, error: Error, jobs: seq<Job>)

  /** The hashes a subscription's job must carry. */
  ghost function CleanHashes(hashes: seq<string>): set<string> {
    set h | h in hashes && TrimSpace(h) != "" :: TrimSpace(h)
  }

  method NormalizeSubscriptionHashes(hashes: seq<string>) returns (out: seq<string>)
    ensures StrictlySorted(out) && Elements(out) == CleanHashes(hashes)
  {
    out := [];
    for i := 0 to |hashes|
      invariant StrictlySorted(out) && Elements(out) == CleanHashes(hashes[..i])
    {
      assert hashes[..i + 1] == hashes[..i] + [hashes[i]];
      var hash := TrimSpace(hashes[i]);
      if hash != "" {
        out := InsertSorted(out, hash);
      }
    }
    assert hashes[..|hashes|] == hashes;
  }

  /** The sorted, duplicate-free list with the given elements. */
  ghost function Sorted(s: set<string>): (xs: seq<string>)
    ensures StrictlySorted(xs) && Elements(xs) == s
  {
    SortedExists(s);
    var xs :| StrictlySorted(xs) && Elements(xs) == s;
    xs
  }

  lemma {:induction false} SortedExists(s: set<string>)
    ensures exists xs :: StrictlySorted(xs) && Elements(xs) == s
    decreases s
  {
    if s == {} {
      assert StrictlySorted([]) && Elements([]) == s;
    } else {
      var m := Minimum(s);
      SortedExists(s - {m});
      var rest :| StrictlySorted(rest) && Elements(rest) == s - {m};
      var xs := [m] + rest;
      forall j | 0 < j < |xs| ensures Less(m, xs[j]) {
        assert rest[j - 1] in Elements(rest);
      }
      forall x ensures x in Elements(xs) <==> x in s {
        assert x in rest <==> x in Elements(rest);
      }
      assert Elements(xs) == s;
    }
  }

  lemma {:induction false} Minimum(s: set<string>) returns (m: string)
    requires s != {}
    ensures m in s && forall x :: x in s && x != m ==> Less(m, x)
    decreases s
  {
    m :| m in s;
    if s != {m} {
      var n := Minimum(s - {m});
      LessTotal(m, n);
      if Less(m, n) {
        forall x | x in s && x != m && x != n ensures Less(m, x) {
          LessTrans(m, n, x);
        }
      } else {
        m := n;
      }
    }
  }

  /** What the batch says of a subscription: its trimmed identifier, its flag and the
      hashes its job must carry. */
  datatype Entry = Entry(id: string, flag: bool, hashes: set<string>)

  ghost function View(sub: Subscription): Entry {
    Entry(TrimSpace(sub.id), sub.autoIntel, CleanHashes(sub.hashes))
  }

  ghost function Views(subs: seq<Subscription>): (es: seq<Entry>)
    ensures |es| == |subs|
  {
    seq(|subs|, i requires 0 <= i < |subs| => View(subs[i]))
  }

  lemma ViewsNext(subs: seq<Subscription>, s: Subscription)
    ensures Views(subs + [s]) == Views(subs) + [View(s)]
  {
  }

  /** The subscription gets a job if nothing goes wrong before its turn. */
  predicate Eligible(e: Entry) {
    e.id != "" && e.flag && e.hashes != {}
  }

  ghost function JobFor(e: Entry): Job {
    Job(e.id, Sorted(e.hashes))
  }

  /** One job per eligible subscription, in order. */
  ghost function JobsFor(es: seq<Entry>): seq<Job> {
    if es == [] then []
    else JobsFor(es[..|es| - 1]) + (if Eligible(es[|es| - 1]) then [JobFor(es[|es| - 1])] else [])
  }

  /** Why `Create` is not reached or fails for an eligible subscription; `call` is the
      number of `Create` calls before it. */
  function Refusal(e: Entry, create: nat -> CreateResult, call: nat): Error {
    if |e.hashes| > MAX_NODES_PER_JOB then TooManyNodes
    else match create(call)
      case Created => NoError
      case RefusedDisabled => Disabled
      case RefusedOther => CreateFailed
  }

  /** The first `k` subscriptions are served: every eligible one among them by a job. */
  ghost predicate ServedUpTo(es: seq<Entry>, k: nat, create: nat -> CreateResult) {
    && k <= |es|
    && forall i :: 0 <= i < k && Eligible(es[i]) ==> Refusal(es[i], create, |JobsFor(es[..i])|) == NoError
  }

  datatype Verdict = Skip | Make(job: Job) | Stop(error: Error)

  ghost function VerdictFor(e: Entry, create: nat -> CreateResult, call: nat): Verdict {
    if !Eligible(e) then Skip
    else if Refusal(e, create, call) == NoError then Make(JobFor(e))
    else Stop(Refusal(e, create, call))
  }

  /** One turn of the loop over the batch. */
  method EnqueueOne(sub: Subscription, create: nat -> CreateResult, call: nat) returns (v: Verdict)
    ensures v == VerdictFor(View(sub), create, call)
  {
    var id := TrimSpace(sub.id);
    if id == "" || !sub.autoIntel {
      return Skip;
    }
    var hashes := NormalizeSubscriptionHashes(sub.hashes);
    SortedUnique(hashes, Sorted(CleanHashes(sub.hashes)));
    SortedDistinct(hashes);
    if |hashes| == 0 {
      return Skip;
    }
    assert hashes[0] in Elements(hashes);
    if |hashes| > MAX_NODES_PER_JOB {
      return Stop(TooManyNodes);
    }
    match create(call) {
      case RefusedDisabled => return Stop(Disabled);
      case RefusedOther => return Stop(CreateFailed);
      case Created => return Make(Job(id, hashes));
    }
  }

  /**
   With a running manager the call serves a prefix of the batch: exactly the jobs of
   its eligible members are created, the others are skipped, and it stops early,
   with the error of that subscription, exactly at the first one that is refused.
   */
  ghost predicate Serves(es: seq<Entry>, create: nat -> CreateResult, r: Outcome) {
    ServesFirst(es, create, r, r.created + r.skipped)
  }

  ghost predicate ServesFirst(es: seq<Entry>, create: nat -> CreateResult, r: Outcome, k: nat) {
    && ServedUpTo(es, k, create) && r.created + r.skipped == k
    && r.jobs == JobsFor(es[..k]) && r.created == |r.jobs|
    && (r.error == NoError <==> k == |es|)
    && (k < |es| ==> VerdictFor(es[k], create, |r.jobs|) == Stop(r.error))
  }

  lemma JobsForNext(es: seq<Entry>, i: nat)
    requires i < |es|
    ensures JobsFor(es[..i + 1]) == JobsFor(es[..i]) + (if Eligible(es[i]) then [JobFor(es[i])] else [])
  {
    assert es[..i + 1][..i] == es[..i];
  }

  /** One more turn of the loop, after `k` of them. */
  lemma ServesNext(es: seq<Entry>, create: nat -> CreateResult, k: nat)
    requires k < |es| && ServedUpTo(es, k, create)
    ensures var jobs := JobsFor(es[..k]);
            match VerdictFor(es[k], create, |jobs|)
            case Skip => ServedUpTo(es, k + 1, create) && JobsFor(es[..k + 1]) == jobs
            case Make(job) => ServedUpTo(es, k + 1, create) && JobsFor(es[..k + 1]) == jobs + [job]
            case Stop(error) => error != NoError
  {
    JobsForNext(es, k);
  }

  method ServeAll(subs: seq<Subscription>, create: nat -> CreateResult) returns (r: Outcome)
    ensures Serves(Views(subs), create, r)
  {
    var created, skipped, jobs := 0, 0, [];
    ghost var es := Views(subs);
    for i := 0 to |subs|
      invariant created == |jobs| && created + skipped == i
      invariant jobs == JobsFor(es[..i])
      invariant ServedUpTo(es, i, create)
    {
      ServesNext(es, create, i);
      var v := EnqueueOne(subs[i], create, created);
      assert v == VerdictFor(es[i], create, created);
      match v {
        case Skip => skipped := skipped + 1;
        case Stop(error) => return Outcome(created, skipped, error, jobs);
        case Make(job) => jobs, created := jobs + [job], created + 1;
      }
    }
    r := Outcome(created, skipped, NoError, jobs);
  }

  method AutoEnqueueSubscriptions(subs: seq<Subscription>, manager: Manager) returns (r: Outcome)
    ensures manager.NoManager? ==> r == Outcome(0, 0, NoError, [])
    ensures manager.SwitchedOff? ==> r == Outcome(0, 0, Disabled, [])
    ensures manager.Running? ==> Serves(Views(subs), manager.create, r)
  {
    match manager {
      case NoManager => return Outcome(0, 0, NoError, []);
      case SwitchedOff => return Outcome(0, 0, Disabled, []);
      case Running(create) => r := ServeAll(subs, create);
    }
  }

  /** Job number `j` is the job of one eligible subscription, made by `Create` call `j`. */
  lemma {:induction false} JobsComeFrom(es: seq<Entry>, j: nat) returns (i: nat)
    requires j < |JobsFor(es)|
    ensures i < |es| && Eligible(es[i]) && JobsFor(es)[j] == JobFor(es[i]) && |JobsFor(es[..i])| == j
    decreases |es|
  {
    var front := es[..|es| - 1];
    if j < |JobsFor(front)| {
      i := JobsComeFrom(front, j);
      assert front[..i] == es[..i];
    } else {
      i := |es| - 1;
    }
  }

  /** Every eligible subscription has its job. */
  lemma {:induction false} JobsReach(es: seq<Entry>, i: nat)
    requires i < |es| && Eligible(es[i])
    ensures |JobsFor(es[..i])| < |JobsFor(es)| && JobsFor(es)[|JobsFor(es[..i])|] == JobFor(es[i])
    decreases |es|
  {
    if i < |es| - 1 {
      var front := es[..|es| - 1];
      JobsReach(front, i);
      assert front[..i] == es[..i];
    }
  }

  predicate DistinctIds(es: seq<Entry>) {
    forall i, j :: 0 <= i < j < |es| ==> es[i].id != es[j].id
  }

  function JobIds(jobs: seq<Job>): seq<string> {
    seq(|jobs|, i requires 0 <= i < |jobs| => jobs[i].id)
  }

  /** Subscriptions with different identifiers never share a job. */
  lemma OneJobEach(es: seq<Entry>)
    requires DistinctIds(es)
    ensures Distinct(JobIds(JobsFor(es)))
  {
    var jobs := JobsFor(es);
    forall i, j | 0 <= i < j < |jobs| ensures jobs[i].id != jobs[j].id {
      var a := JobsComeFrom(es, i);
      var b := JobsComeFrom(es, j);
      assert a != b;
      assert a < b || b < a;
    }
  }
}
