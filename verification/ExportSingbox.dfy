/**
 Tags and references of a sing-box export (`exportSingbox`, `claimTag`,
 `rewriteDepRef`) and how `prepareItems` feeds it.

 A decoded JSON object is reduced to what the exporter touches: its "detour" field
 and an opaque `payload` for everything else.
 */
module ExportSingbox {
  import opened Decimal
  import opened Text
  import ExportNames

  const MAX_NAME_VARIANTS: nat := ExportNames.MAX_NAME_VARIANTS

  /** The "detour" field: missing, not a string, or a reference. */
  datatype Ref = NoDetour | OtherDetour | Detour(target: string)

  datatype Obj = Obj(payload: int, detour: Ref)

  /** A prepared item: `mihomo` marks an engine the format cannot carry and `decodes`
      says whether its objects are JSON objects. */
  datatype Item = Item(name: string, mihomo: bool, decodes: bool, endpoint: bool, chain: bool, main: Obj, deps: seq<Obj>)

  datatype Entry = Entry(name: string, endpoint: bool, main: Obj, deps: seq<Obj>)

  /** An emitted object with its tag. */
  datatype Out = Out(tag: string, obj: Obj)

  datatype Document = Document(selector: string, auto: string, members: seq<string>, outbounds: seq<Out>, endpoints: seq<Out>)

  // ---------------------------------------------------------------------------
  // Sequences of tags

  lemma DistinctConcat(a: seq<string>, b: seq<string>)
    ensures Distinct(a + b) <==> Distinct(a) && Distinct(b) && Elements(a) !! Elements(b)
  {
    if Distinct(a + b) {
      forall i, j | 0 <= i < j < |a| ensures a[i] != a[j] {
        assert (a + b)[i] != (a + b)[j];
      }
      forall i, j | 0 <= i < j < |b| ensures b[i] != b[j] {
        assert (a + b)[|a| + i] != (a + b)[|a| + j];
      }
      forall i, j | 0 <= i < |a| && 0 <= j < |b| ensures a[i] != b[j] {
        assert (a + b)[i] != (a + b)[|a| + j];
      }
    }
    if Distinct(a) && Distinct(b) && Elements(a) !! Elements(b) {
      forall i, j | 0 <= i < j < |a + b| ensures (a + b)[i] != (a + b)[j] {
        if i < |a| <= j {
          assert a[i] in Elements(a) && b[j - |a|] in Elements(b);
        }
      }
    }
  }

  // ---------------------------------------------------------------------------
  // claimTag

  function Numbered(tag: string, k: nat): string {
    tag + " #" + Itoa(k)
  }

  function Hashes(m: nat): string {
    if m == 0 then "" else Hashes(m - 1) + "#"
  }

  /** The last resort: the tag, a blank and at least one hash sign. */
  function Hashed(tag: string, m: nat): string {
    tag + " " + Hashes(m + 1)
  }

  ghost predicate NumberedTaken(tag: string, taken: set<string>, k: nat) {
    forall j: nat :: 2 <= j < k ==> Numbered(tag, j) in taken
  }

  /** Which tag is claimed: the tag itself, or the first free " #k", or, with the whole
      budget taken, the first free one with growing hash signs. */
  ghost predicate ClaimRule(tag: string, taken: set<string>, r: string) {
    if tag !in taken then r == tag
    else if !NumberedTaken(tag, taken, MAX_NAME_VARIANTS + 1) then
      exists k: nat :: 2 <= k <= MAX_NAME_VARIANTS && r == Numbered(tag, k) && NumberedTaken(tag, taken, k)
    else
      exists m: nat :: r == Hashed(tag, m) && forall j: nat :: j < m ==> Hashed(tag, j) in taken
  }

  method ClaimTag(tag: string, taken: set<string>) returns (r: string)
    ensures r !in taken && ClaimRule(tag, taken, r)
  {
    if tag !in taken {
      return tag;
    }
    for k := 2 to MAX_NAME_VARIANTS + 1
      invariant NumberedTaken(tag, taken, k)
    {
      r := tag + " #" + Itoa(k);
      assert r == Numbered(tag, k);
      if r !in taken {
        return;
      }
    }
    r := tag + " #";
    ghost var m: nat := 0;
    assert Hashes(1) == Hashes(0) + "#" == "#";
    while r in taken
      invariant r == Hashed(tag, m) && forall j: nat :: j < m ==> Hashed(tag, j) in taken
      decreases |LongerThan(taken, r)|
    {
      ghost var before := r;
      r := r + "#";
      m := m + 1;
      assert LongerThan(taken, r) <= LongerThan(taken, before) - {before};
      SmallerSet(LongerThan(taken, r), LongerThan(taken, before), before);
      assert Hashes(m + 1) == Hashes(m) + "#";
    }
  }

  /** The taken tags at least as long as `r`; each round of the last loop has fewer. */
  ghost function LongerThan(taken: set<string>, r: string): set<string> {
    set t | t in taken && |t| >= |r|
  }

  lemma SmallerSet(a: set<string>, b: set<string>, x: string)
    requires a <= b - {x} && x in b
    ensures |a| < |b|
  {
    SubsetSize(a, b - {x});
    assert |b - {x}| == |b| - 1;
  }

  // ---------------------------------------------------------------------------
  // References

  /** `node.DepTag`. */
  function DepTag(i: nat): string {
    "d" + Itoa(i)
  }

  function Canonical(name: string, i: nat): string {
    name + "/" + DepTag(i)
  }

  function CanonicalDepTag(name: string, detour: string): string {
    if |detour| < 2 || detour[0] != 'd' || !AllDigits(detour[1..]) then "" else name + "/" + detour
  }

  function RewriteDepRef(table: map<string, string>, name: string, detour: string): string {
    var canonical := CanonicalDepTag(name, detour);
    if canonical != "" && canonical in table then table[canonical] else detour
  }

  function RewriteObj(table: map<string, string>, name: string, o: Obj): Obj {
    if o.detour.Detour? then o.(detour := Detour(RewriteDepRef(table, name, o.detour.target))) else o
  }

  predicate NoSlash(s: string) {
    forall i :: 0 <= i < |s| ==> s[i] != '/'
  }

  lemma DepTagShape(i: nat)
    ensures |DepTag(i)| >= 2 && DepTag(i)[0] == 'd' && AllDigits(DepTag(i)[1..]) && NoSlash(DepTag(i))
  {
    ItoaRoundTrip(i);
    assert DepTag(i)[1..] == Itoa(i);
  }

  /** A name may contain slashes itself; the last one still tells where it ends. */
  lemma SplitAtLastSlash(x: string, u: string, y: string, v: string)
    requires x + "/" + u == y + "/" + v && NoSlash(u) && NoSlash(v)
    ensures x == y && u == v
  {
    var w := x + "/" + u;
    assert w == y + "/" + v;
    assert w[|x|] == '/' && forall k :: |x| < k < |w| ==> w[k] == u[k - |x| - 1];
    assert w[|y|] == '/' && forall k :: |y| < k < |w| ==> w[k] == v[k - |y| - 1];
    assert |x| == |y|;
    assert x == w[..|x|] == y && u == w[|x| + 1..] == v;
  }

  lemma CanonicalInjective(x: string, i: nat, y: string, j: nat)
    requires Canonical(x, i) == Canonical(y, j)
    ensures x == y && i == j
  {
    DepTagShape(i);
    DepTagShape(j);
    SplitAtLastSlash(x, DepTag(i), y, DepTag(j));
    assert Itoa(i) == DepTag(i)[1..] == DepTag(j)[1..] == Itoa(j);
    ItoaInjective(i, j);
  }

  /** The reference names dependency `i` of its node. */
  predicate Names(target: string, i: nat) {
    target == DepTag(i)
  }

  /** What a reference must become: the tag of the dependency it names, if it names one
      of the node's dependencies, and itself otherwise. */
  ghost predicate Resolves(tags: seq<string>, target: string, r: string) {
    && (forall i: nat :: i < |tags| && Names(target, i) ==> r == tags[i])
    && ((forall i: nat :: i < |tags| ==> !Names(target, i)) ==> r == target)
  }

  // ---------------------------------------------------------------------------
  // The table of dependency tags

  function NamesOf(plan: seq<Entry>): seq<string> {
    seq(|plan|, i requires 0 <= i < |plan| => plan[i].name)
  }

  /** One tag per dependency of each planned entry. */
  predicate Fits(plan: seq<Entry>, tags: seq<seq<string>>) {
    |tags| <= |plan| && forall a :: 0 <= a < |tags| ==> |tags[a]| == |plan[a].deps|
  }

  /** The table holds the dependencies of the entries with tags, under their canonical
      names, and nothing else. */
  ghost predicate TableHolds(plan: seq<Entry>, tags: seq<seq<string>>, table: map<string, string>)
    requires Fits(plan, tags)
  {
    && (forall a, i :: 0 <= a < |tags| && 0 <= i < |tags[a]| ==>
          HasTag(table, plan[a].name, i, tags[a][i]))
    && (forall key :: key in table ==> exists a, i :: 0 <= a < |tags| && 0 <= i < |tags[a]| && key == Canonical(plan[a].name, i))
  }

  predicate HasTag(table: map<string, string>, name: string, i: nat, tag: string) {
    Canonical(name, i) in table && table[Canonical(name, i)] == tag
  }

  /** With distinct names the table resolves the references of every entry it holds. */
  lemma RewriteResolves(plan: seq<Entry>, tags: seq<seq<string>>, table: map<string, string>, a: nat, target: string)
    requires Fits(plan, tags) && TableHolds(plan, tags, table) && Distinct(NamesOf(plan)) && a < |tags|
    ensures Resolves(tags[a], target, RewriteDepRef(table, plan[a].name, target))
  {
    var name := plan[a].name;
    var r := RewriteDepRef(table, name, target);
    var canonical := CanonicalDepTag(name, target);
    forall i: nat | i < |tags[a]| && Names(target, i) ensures r == tags[a][i] {
      DepTagShape(i);
      assert canonical == Canonical(name, i);
      assert HasTag(table, name, i, tags[a][i]);
    }
    if canonical != "" && canonical in table {
      var b, i :| 0 <= b < |tags| && 0 <= i < |tags[b]| && canonical == Canonical(plan[b].name, i);
      assert NoSlash(target) by {
        assert forall j :: 0 < j < |target| ==> target[j] == target[1..][j - 1];
      }
      DepTagShape(i);
      SplitAtLastSlash(name, target, plan[b].name, DepTag(i));
      assert NamesOf(plan)[a] == NamesOf(plan)[b];
      assert Names(target, i);
    }
  }

  // ---------------------------------------------------------------------------
  // Claiming the dependency tags of one entry

  /** The table after the tags `ts` of the dependencies of `name` were recorded. */
  ghost predicate Recorded(table: map<string, string>, table': map<string, string>, name: string, ts: seq<string>) {
    && (forall i :: 0 <= i < |ts| ==> HasTag(table', name, i, ts[i]))
    && (forall key :: key in table ==> key in table')
    && (forall key :: key in table' ==> key in table || exists i :: 0 <= i < |ts| && key == Canonical(name, i))
    && (forall key :: key in table && (forall i: nat :: key != Canonical(name, i)) ==> table'[key] == table[key])
  }

  lemma RecordedAppend(table: map<string, string>, mid: map<string, string>, name: string, ts: seq<string>, tag: string)
    requires Recorded(table, mid, name, ts)
    ensures Recorded(table, mid[Canonical(name, |ts|) := tag], name, ts + [tag])
  {
    var all, last := ts + [tag], mid[Canonical(name, |ts|) := tag];
    forall i | 0 <= i < |all| ensures HasTag(last, name, i, all[i]) {
      if i < |ts| {
        assert HasTag(mid, name, i, ts[i]);
        if Canonical(name, i) == Canonical(name, |ts|) {
          CanonicalInjective(name, i, name, |ts|);
        }
      }
    }
    forall key | key in last && key !in table ensures exists i :: 0 <= i < |all| && key == Canonical(name, i) {
      if key == Canonical(name, |ts|) {
        assert all[|ts|] == tag;
      } else {
        var i :| 0 <= i < |ts| && key == Canonical(name, i);
        assert all[i] == ts[i];
      }
    }
  }

  method ClaimDeps(name: string, n: nat, taken: set<string>, table: map<string, string>)
    returns (ts: seq<string>, taken': set<string>, table': map<string, string>)
    ensures |ts| == n && Distinct(ts) && Elements(ts) !! taken && taken' == taken + Elements(ts)
    ensures Recorded(table, table', name, ts)
  {
    ts, taken', table' := [], taken, table;
    for i := 0 to n
      invariant |ts| == i && Distinct(ts) && Elements(ts) !! taken && taken' == taken + Elements(ts)
      invariant Recorded(table, table', name, ts)
    {
      var emitted := ClaimTag(name + "/" + DepTag(i), taken');
      RecordedAppend(table, table', name, ts, emitted);
      DistinctConcat(ts, [emitted]);
      assert Elements([emitted]) == {emitted};
      table' := table'[name + "/" + DepTag(i) := emitted];
      ts, taken' := ts + [emitted], taken' + {emitted};
    }
  }

  // ---------------------------------------------------------------------------
  // What the document must carry

  /** The tag of the dependency that the reference names, or the reference itself. */
  ghost function ResolvedTarget(tags: seq<string>, target: string): (r: string)
    ensures Resolves(tags, target, r)
  {
    if exists i: nat :: i < |tags| && Names(target, i) then
      var i: nat :| i < |tags| && Names(target, i);
      assert forall j: nat :: j < |tags| && Names(target, j) ==> j == i by {
        forall j: nat | j < |tags| && Names(target, j) ensures j == i {
          CanonicalInjective("", i, "", j);
        }
      }
      tags[i]
    else target
  }

  ghost function ResolvedObj(tags: seq<string>, o: Obj): Obj {
    if o.detour.Detour? then o.(detour := Detour(ResolvedTarget(tags, o.detour.target))) else o
  }

  ghost function MainOut(e: Entry, ts: seq<string>): Out {
    Out(e.name, ResolvedObj(ts, e.main))
  }

  ghost function DepOuts(e: Entry, ts: seq<string>): seq<Out>
    requires |ts| == |e.deps|
  {
    seq(|ts|, i requires 0 <= i < |ts| => Out(ts[i], ResolvedObj(ts, e.deps[i])))
  }

  /** The outbounds of the entries with tags, in order: the node unless it is an
      endpoint, then its dependencies, every reference resolved. */
  ghost function Outbounds(plan: seq<Entry>, tags: seq<seq<string>>): seq<Out>
    requires Fits(plan, tags)
    decreases |tags|
  {
    if tags == [] then []
    else
      var a := |tags| - 1;
      Outbounds(plan, tags[..a]) + (if plan[a].endpoint then [] else [MainOut(plan[a], tags[a])]) + DepOuts(plan[a], tags[a])
  }

  ghost function Endpoints(plan: seq<Entry>, tags: seq<seq<string>>): seq<Out>
    requires Fits(plan, tags)
    decreases |tags|
  {
    if tags == [] then []
    else
      var a := |tags| - 1;
      Endpoints(plan, tags[..a]) + (if plan[a].endpoint then [MainOut(plan[a], tags[a])] else [])
  }

  lemma RewriteObjResolves(plan: seq<Entry>, tags: seq<seq<string>>, table: map<string, string>, a: nat, o: Obj)
    requires Fits(plan, tags) && TableHolds(plan, tags, table) && Distinct(NamesOf(plan)) && a < |tags|
    ensures RewriteObj(table, plan[a].name, o) == ResolvedObj(tags[a], o)
  {
    if o.detour.Detour? {
      RewriteResolves(plan, tags, table, a, o.detour.target);
    }
  }

  lemma TableGrows(plan: seq<Entry>, tags: seq<seq<string>>, table: map<string, string>, table': map<string, string>, ts: seq<string>)
    requires Fits(plan, tags) && TableHolds(plan, tags, table) && Distinct(NamesOf(plan)) && |tags| < |plan|
    requires |ts| == |plan[|tags|].deps| && Recorded(table, table', plan[|tags|].name, ts)
    ensures Fits(plan, tags + [ts]) && TableHolds(plan, tags + [ts], table')
  {
    var all, n := tags + [ts], |tags|;
    forall a, i | 0 <= a < |all| && 0 <= i < |all[a]| ensures HasTag(table', plan[a].name, i, all[a][i]) {
      if a < n {
        assert HasTag(table, plan[a].name, i, tags[a][i]);
        assert NamesOf(plan)[a] != NamesOf(plan)[n];
        forall j: nat ensures Canonical(plan[a].name, i) != Canonical(plan[n].name, j) {
          if Canonical(plan[a].name, i) == Canonical(plan[n].name, j) {
            CanonicalInjective(plan[a].name, i, plan[n].name, j);
          }
        }
      }
    }
    forall key | key in table'
      ensures exists a, i :: 0 <= a < |all| && 0 <= i < |all[a]| && key == Canonical(plan[a].name, i)
    {
      if key in table {
        var a, i :| 0 <= a < |tags| && 0 <= i < |tags[a]| && key == Canonical(plan[a].name, i);
        assert all[a] == tags[a];
      } else {
        var i :| 0 <= i < |ts| && key == Canonical(plan[n].name, i);
        assert all[n] == ts;
      }
    }
  }

  // ---------------------------------------------------------------------------
  // exportSingbox

  predicate Representable(item: Item) {
    !item.mihomo && item.decodes
  }

  function EntryOf(item: Item): Entry {
    Entry(item.name, item.endpoint, item.main, if item.chain then item.deps else [])
  }

  function Plan(items: seq<Item>): seq<Entry> {
    if items == [] then []
    else Plan(items[..|items| - 1]) +
         (if Representable(items[|items| - 1]) then [EntryOf(items[|items| - 1])] else [])
  }

  /** The first phase: plans the representable items and reserves their names. */
  method PlanItems(items: seq<Item>) returns (plan: seq<Entry>, taken: set<string>)
    ensures plan == Plan(items) && taken == Elements(NamesOf(plan))
  {
    plan, taken := [], {};
    for i := 0 to |items|
      invariant plan == Plan(items[..i]) && taken == Elements(NamesOf(plan))
    {
      assert items[..i + 1][..i] == items[..i];
      if !items[i].mihomo && items[i].decodes {
        var entry := EntryOf(items[i]);
        assert NamesOf(plan + [entry]) == NamesOf(plan) + [entry.name];
        plan, taken := plan + [entry], taken + {entry.name};
      }
    }
    assert items[..|items|] == items;
  }

  method EmitDeps(e: Entry, ts: seq<string>, table: map<string, string>) returns (outs: seq<Out>)
    requires |ts| == |e.deps|
    ensures |outs| == |ts|
    ensures forall i :: 0 <= i < |outs| ==> outs[i] == Out(ts[i], RewriteObj(table, e.name, e.deps[i]))
  {
    outs := [];
    for i := 0 to |ts|
      invariant |outs| == i
      invariant forall j :: 0 <= j < i ==> outs[j] == Out(ts[j], RewriteObj(table, e.name, e.deps[j]))
    {
      outs := outs + [Out(ts[i], RewriteObj(table, e.name, e.deps[i]))];
    }
  }

  function TagsOf(outs: seq<Out>): seq<string> {
    seq(|outs|, i requires 0 <= i < |outs| => outs[i].tag)
  }

  ghost function Flat(tags: seq<seq<string>>): seq<string> {
    if tags == [] then [] else Flat(tags[..|tags| - 1]) + tags[|tags| - 1]
  }

  /** Every tag the document carries. */
  ghost function DocTags(doc: Document): seq<string> {
    [doc.selector, doc.auto] + TagsOf(doc.outbounds) + TagsOf(doc.endpoints)
  }

  /** The state of the second phase after the entries with tags. */
  ghost predicate Phase(plan: seq<Entry>, tags: seq<seq<string>>, taken: set<string>, table: map<string, string>,
                        outbounds: seq<Out>, endpoints: seq<Out>) {
    && Fits(plan, tags)
    && Distinct(Flat(tags)) && Elements(Flat(tags)) !! Elements(NamesOf(plan))
    && taken == Elements(NamesOf(plan)) + Elements(Flat(tags))
    && multiset(TagsOf(outbounds) + TagsOf(endpoints)) == multiset(NamesOf(plan)[..|tags|]) + multiset(Flat(tags))
    && (Distinct(NamesOf(plan)) ==>
          TableHolds(plan, tags, table) && outbounds == Outbounds(plan, tags) && endpoints == Endpoints(plan, tags))
  }

  lemma {:induction false} NextTags(plan: seq<Entry>, tags: seq<seq<string>>, ts: seq<string>)
    requires |tags| < |plan|
    ensures Flat(tags + [ts]) == Flat(tags) + ts
    ensures multiset(NamesOf(plan)[..|tags| + 1]) == multiset(NamesOf(plan)[..|tags|]) + multiset{plan[|tags|].name}
  {
    assert (tags + [ts])[..|tags|] == tags;
    var names, n := NamesOf(plan), |tags|;
    assert names[..n + 1] == names[..n] + [names[n]];
  }

  lemma TagsOfConcat(a: seq<Out>, b: seq<Out>)
    ensures TagsOf(a + b) == TagsOf(a) + TagsOf(b)
  {
  }

  /** The entry's own objects, its node first unless that is an endpoint. */
  function WithEntry(outbounds: seq<Out>, e: Entry, main: Out, deps: seq<Out>): seq<Out> {
    outbounds + (if e.endpoint then [] else [main]) + deps
  }

  function WithEndpoint(endpoints: seq<Out>, e: Entry, main: Out): seq<Out> {
    endpoints + (if e.endpoint then [main] else [])
  }

  lemma NextTagMultiset(outbounds: seq<Out>, endpoints: seq<Out>, e: Entry, main: Out, deps: seq<Out>)
    ensures multiset(TagsOf(WithEntry(outbounds, e, main, deps)) + TagsOf(WithEndpoint(endpoints, e, main))) ==
            multiset(TagsOf(outbounds) + TagsOf(endpoints)) + multiset{main.tag} + multiset(TagsOf(deps))
  {
    var own := if e.endpoint then [] else [main];
    TagsOfConcat(outbounds + own, deps);
    TagsOfConcat(outbounds, own);
    TagsOfConcat(endpoints, if e.endpoint then [main] else []);
    assert TagsOf([main]) == [main.tag];
    assert TagsOf([]) == [];
  }

  lemma NextResolved(plan: seq<Entry>, tags: seq<seq<string>>, ts: seq<string>, table: map<string, string>, main: Out, deps: seq<Out>)
    requires |tags| < |plan| && Fits(plan, tags + [ts]) && Distinct(NamesOf(plan)) && TableHolds(plan, tags + [ts], table)
    requires var e := plan[|tags|];
             && main == Out(e.name, RewriteObj(table, e.name, e.main)) && |deps| == |ts|
             && forall i :: 0 <= i < |deps| ==> deps[i] == Out(ts[i], RewriteObj(table, e.name, e.deps[i]))
    ensures Fits(plan, tags)
    ensures Outbounds(plan, tags + [ts]) == WithEntry(Outbounds(plan, tags), plan[|tags|], main, deps)
    ensures Endpoints(plan, tags + [ts]) == WithEndpoint(Endpoints(plan, tags), plan[|tags|], main)
  {
    var all, n := tags + [ts], |tags|;
    var e := plan[n];
    assert all[..n] == tags && all[n] == ts;
    assert forall a :: 0 <= a < n ==> all[a] == tags[a];
    RewriteObjResolves(plan, all, table, n, e.main);
    forall i | 0 <= i < |deps| ensures deps[i] == DepOuts(e, ts)[i] {
      RewriteObjResolves(plan, all, table, n, e.deps[i]);
    }
    assert deps == DepOuts(e, ts);
  }

  lemma PhaseStep(plan: seq<Entry>, tags: seq<seq<string>>, taken: set<string>, table: map<string, string>,
                  outbounds: seq<Out>, endpoints: seq<Out>,
                  ts: seq<string>, taken': set<string>, table': map<string, string>, main: Out, deps: seq<Out>)
    requires Phase(plan, tags, taken, table, outbounds, endpoints) && |tags| < |plan|
    requires |ts| == |plan[|tags|].deps| && Distinct(ts) && Elements(ts) !! taken && taken' == taken + Elements(ts)
    requires var e := plan[|tags|];
             && Recorded(table, table', e.name, ts)
             && main == Out(e.name, RewriteObj(table', e.name, e.main)) && |deps| == |ts|
             && forall i :: 0 <= i < |deps| ==> deps[i] == Out(ts[i], RewriteObj(table', e.name, e.deps[i]))
    ensures Phase(plan, tags + [ts], taken', table',
                  WithEntry(outbounds, plan[|tags|], main, deps), WithEndpoint(endpoints, plan[|tags|], main))
  {
    var e := plan[|tags|];
    NextTags(plan, tags, ts);
    DistinctConcat(Flat(tags), ts);
    NextTagMultiset(outbounds, endpoints, e, main, deps);
    assert TagsOf(deps) == ts;
    if Distinct(NamesOf(plan)) {
      TableGrows(plan, tags, table, table', ts);
      NextResolved(plan, tags, ts, table', main, deps);
    }
  }

  lemma DistinctIsMultiset(xs: seq<string>)
    ensures Distinct(xs) <==> forall x :: multiset(xs)[x] <= 1
  {
    if xs != [] {
      var front, last := xs[..|xs| - 1], xs[|xs| - 1];
      assert xs == front + [last];
      DistinctIsMultiset(front);
      DistinctConcat(front, [last]);
      assert last in front <==> multiset(front)[last] >= 1;
      if forall x :: multiset(xs)[x] <= 1 {
        assert multiset(xs)[last] <= 1;
        assert forall x :: multiset(front)[x] <= multiset(xs)[x];
      }
    }
  }

  /** The groups, the node names and the dependency tags, in this order. */
  function AllTags(doc: Document, names: seq<string>, flat: seq<string>): seq<string> {
    [doc.selector, doc.auto] + (names + flat)
  }

  /** Whether those are distinct, if the dependency tags are and nothing was claimed
      twice, is up to the node names. */
  lemma AllTagsDistinct(doc: Document, names: seq<string>, flat: seq<string>, taken: set<string>)
    requires Distinct(flat) && Elements(flat) !! Elements(names) && taken == Elements(names) + Elements(flat)
    requires doc.selector !in taken && doc.auto !in taken + {doc.selector}
    ensures Distinct(AllTags(doc, names, flat)) <==> Distinct(names)
  {
    var groups := [doc.selector, doc.auto];
    DistinctConcat(groups, names + flat);
    DistinctConcat(names, flat);
    assert Elements(groups) == {doc.selector, doc.auto};
  }

  lemma SameMultiset(xs: seq<string>, ys: seq<string>)
    requires multiset(xs) == multiset(ys)
    ensures Distinct(xs) <==> Distinct(ys)
    ensures forall x :: x in xs <==> x in ys
  {
    DistinctIsMultiset(xs);
    DistinctIsMultiset(ys);
    assert forall x :: x in xs <==> x in multiset(xs);
    assert forall x :: x in ys <==> x in multiset(ys);
  }

  /** All tags of the document are distinct exactly if the node names are: what the
      exporter claims never collides, but node names are tags as they come. */
  lemma TagsDistinctIff(plan: seq<Entry>, tags: seq<seq<string>>, taken: set<string>, table: map<string, string>, doc: Document)
    requires Phase(plan, tags, taken, table, doc.outbounds, doc.endpoints) && |tags| == |plan|
    requires doc.selector !in taken && doc.auto !in taken + {doc.selector}
    ensures Distinct(DocTags(doc)) <==> Distinct(NamesOf(plan))
    ensures forall n :: n in NamesOf(plan) ==> n in DocTags(doc)
  {
    var names, flat := NamesOf(plan), Flat(tags);
    assert names[..|tags|] == names;
    assert DocTags(doc) == [doc.selector, doc.auto] + (TagsOf(doc.outbounds) + TagsOf(doc.endpoints));
    SameMultiset(DocTags(doc), AllTags(doc, names, flat));
    AllTagsDistinct(doc, names, flat, taken);
  }

  /**
   `exportSingbox` up to the JSON encoding.  `tags` are the tags of the dependencies.
   With distinct node names every reference to a dependency of its own node leads to
   the tag emitted for exactly that dependency and every other one is unchanged.
   */
  method ExportSingbox(items: seq<Item>, selectorTag: string, autoTag: string)
    returns (doc: Document, ghost tags: seq<seq<string>>)
    ensures doc.members == NamesOf(Plan(items)) && forall n :: n in doc.members ==> n in DocTags(doc)
    ensures Distinct(DocTags(doc)) <==> Distinct(NamesOf(Plan(items)))
    ensures var plan := Plan(items);
            && |tags| == |plan| && Fits(plan, tags)
            && (Distinct(NamesOf(plan)) ==>
                  doc.outbounds == Outbounds(plan, tags) && doc.endpoints == Endpoints(plan, tags))
  {
    var plan, taken := PlanItems(items);
    var table: map<string, string> := map[];
    var outbounds: seq<Out>, endpoints: seq<Out> := [], [];
    tags := [];
    assert NamesOf(plan)[..0] == [];
    for a := 0 to |plan|
      invariant |tags| == a && Phase(plan, tags, taken, table, outbounds, endpoints)
    {
      var e := plan[a];
      var ts, taken', table' := ClaimDeps(e.name, |e.deps|, taken, table);
      var main := Out(e.name, RewriteObj(table', e.name, e.main));
      var deps := EmitDeps(e, ts, table');
      PhaseStep(plan, tags, taken, table, outbounds, endpoints, ts, taken', table', main, deps);
      outbounds := WithEntry(outbounds, e, main, deps);
      endpoints := WithEndpoint(endpoints, e, main);
      taken, table := taken', table';
      tags := tags + [ts];
    }
    var selector := ClaimTag(selectorTag, taken);
    var auto := ClaimTag(autoTag, taken + {selector});
    doc := Document(selector, auto, NamesOf(plan), outbounds, endpoints);
    TagsDistinctIff(plan, tags, taken, table, doc);
  }

  // ---------------------------------------------------------------------------
  // Where the items come from

  /** A node to export: `item` carries its own name, and `parses` says whether its
      document can be read. */
  datatype Node = Node(item: Item, parses: bool)

  /** `prepareItems`: drops the nodes without a rendered name and the unreadable ones,
      and passes the others on under their own names. */
  function Prepared(nodes: seq<Node>, names: seq<string>): seq<Item>
    requires |names| == |nodes|
  {
    if nodes == [] then []
    else
      var n := |nodes| - 1;
      Prepared(nodes[..n], names[..n]) + (if names[n] != "" && nodes[n].parses then [nodes[n].item] else [])
  }

  /** The same selection under the rendered names. */
  function Renamed(nodes: seq<Node>, names: seq<string>): seq<Item>
    requires |names| == |nodes|
  {
    if nodes == [] then []
    else
      var n := |nodes| - 1;
      Renamed(nodes[..n], names[..n]) +
      (if names[n] != "" && nodes[n].parses then [nodes[n].item.(name := names[n])] else [])
  }

  lemma PlanAppend(items: seq<Item>, item: Item)
    ensures NamesOf(Plan(items + [item])) == NamesOf(Plan(items)) + (if Representable(item) then [item.name] else [])
  {
  }

  lemma {:induction false} RenamedNames(nodes: seq<Node>, names: seq<string>)
    requires |names| == |nodes|
    requires forall i, j :: 0 <= i < j < |names| && names[i] != "" && names[j] != "" ==> names[i] != names[j]
    ensures Distinct(NamesOf(Plan(Renamed(nodes, names))))
    ensures forall x :: x in NamesOf(Plan(Renamed(nodes, names))) ==> x in names && x != ""
    decreases |nodes|
  {
    if nodes != [] {
      var n := |nodes| - 1;
      var before := Renamed(nodes[..n], names[..n]);
      RenamedNames(nodes[..n], names[..n]);
      assert forall x :: x in names[..n] ==> x in names;
      if names[n] != "" && nodes[n].parses {
        var item := nodes[n].item.(name := names[n]);
        PlanAppend(before, item);
        DistinctConcat(NamesOf(Plan(before)), [item.name]);
        assert NamesOf(Plan(before)) + [] == NamesOf(Plan(before));
      } else {
        assert before + [] == before;
      }
    }
  }

  /** Rendered names are distinct, so an export under them has distinct tags. */
  lemma RenderedNamesWouldDo(nodes: seq<Node>, bases: seq<string>, names: seq<string>)
    requires |names| == |nodes| && ExportNames.AllNamed(bases, names)
    ensures Distinct(NamesOf(Plan(Renamed(nodes, names))))
  {
    forall i, j | 0 <= i < j < |names| && names[i] != "" && names[j] != "" ensures names[i] != names[j] {
      ExportNames.NamesAreDistinct(bases, names, i, j);
    }
    RenamedNames(nodes, names);
  }

  /** `Export` in this format: the tags are distinct exactly if the nodes it carries
      have distinct names of their own. */
  method Export(nodes: seq<Node>, raws: seq<string>, selectorTag: string, autoTag: string)
    returns (doc: Document, names: seq<string>)
    requires |raws| == |nodes|
    ensures ExportNames.Rendered(raws, names)
    ensures Distinct(DocTags(doc)) <==> Distinct(NamesOf(Plan(Prepared(nodes, names))))
  {
    names := ExportNames.RenderNames(raws);
    var items := PrepareItems(nodes, names);
    ghost var tags;
    doc, tags := ExportSingbox(items, selectorTag, autoTag);
  }

  method PrepareItems(nodes: seq<Node>, names: seq<string>) returns (items: seq<Item>)
    requires |names| == |nodes|
    ensures items == Prepared(nodes, names)
  {
    items := [];
    for i := 0 to |nodes|
      invariant items == Prepared(nodes[..i], names[..i])
    {
      assert nodes[..i + 1][..i] == nodes[..i] && names[..i + 1][..i] == names[..i];
      if names[i] != "" && nodes[i].parses {
        items := items + [nodes[i].item];
      }
    }
    assert nodes[..|nodes|] == nodes && names[..|names|] == names;
  }

  lemma PreparedPair(item: Item, names: seq<string>)
    requires |names| == 2 && names[0] != "" && names[1] != ""
    ensures Prepared([Node(item, true), Node(item, true)], names) == [item] + [item]
  {
    var nodes := [Node(item, true), Node(item, true)];
    assert nodes[..1] == [Node(item, true)] && nodes[..1][..0] == [] && names[..1][..0] == [];
    assert Prepared(nodes[..1][..0], names[..1][..0]) == [];
    assert nodes[..1][0] == nodes[0] && names[..1][0] == names[0];
    assert Prepared(nodes[..1], names[..1]) == [] + [item] == [item];
  }

  lemma PreparedTwice(item: Item, names: seq<string>)
    requires Representable(item) && |names| == 2 && names[0] != "" && names[1] != ""
    ensures !Distinct(NamesOf(Plan(Prepared([Node(item, true), Node(item, true)], names))))
  {
    PreparedPair(item, names);
    PlanAppend([], item);
    assert [] + [item] == [item];
    PlanAppend([item], item);
    var all := NamesOf(Plan([item] + [item]));
    assert all == [item.name, item.name];
    assert all[0] == all[1];
  }

  /** Two nodes with one name and one template: their rendered names differ, the tags they
      are exported under do not. */
  method SameNameTwice(item: Item, raw: string, selectorTag: string, autoTag: string)
    returns (doc: Document, names: seq<string>)
    requires Representable(item) && ExportNames.Clamp(raw) != ""
    ensures ExportNames.Rendered([raw, raw], names)
    ensures names[0] != "" && names[1] != "" && names[0] != names[1]
    ensures !Distinct(DocTags(doc))
  {
    doc, names := Export([Node(item, true), Node(item, true)], [raw, raw], selectorTag, autoTag);
    ExportNames.TwoItemsTwoNames([raw, raw], names);
    PreparedTwice(item, names);
  }
}
