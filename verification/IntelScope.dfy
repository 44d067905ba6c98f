/**
 The expansion of an intelligence job's scope into node hashes (`resolveIntelScope`,
 `scopeHashes`, `newNodeFilter`, `nodeFilter.matches`).

 The running pool, the platforms' views and the stored subscription links are inputs
 (`World`); the pool is walked in an arbitrary order.  Names in a node's record are in
 lower case, so that comparing them without regard to case is comparing them.
 */
module IntelScope {
  import opened Text
  import Jobs = AutoEnqueueJobs

  // ---------------------------------------------------------------------------
  // Hashes

  predicate IsHex(c: char) {
    '0' <= c <= '9' || 'a' <= c <= 'f' || 'A' <= c <= 'F'
  }

  /** `node.ParseHex`: sixteen bytes in hexadecimal, in either case. */
  predicate Parses(s: string) {
    |s| == 32 && forall i :: 0 <= i < |s| ==> IsHex(s[i])
  }

  /** What a parsed hash prints as. */
  function Canonical(s: string): string {
    Lower(s)
  }

  predicate IsCanonical(s: string) {
    Parses(s) && Canonical(s) == s
  }

  lemma HashIsTrimmed(s: string)
    requires Parses(s)
    ensures TrimSpace(s) == s && s != ""
  {
  }

  // ---------------------------------------------------------------------------
  // The filter

  datatype Assessment = Unassessed | Assessed(ipType: string, band: string, verdict: string)

  /** What the filter reads of a node; `protocol` is blank while it has no outbound. */
  datatype Entry = Entry(protocol: string, engine: string, region: string, healthy: bool, assessment: Assessment)

  const ENGINE := "singbox"
  const BANDS := {"unknown", "excellent", "clean", "fair", "mixed", "poor"}
  const VERDICTS := {"pending", "favorable", "caution", "incomplete", "review", "conflicting", "high_risk"}
  const IP_TYPES :=
    {"unknown", "residential", "mobile", "business", "wireless", "datacenter", "non_residential", "conflicting"}

  /** What the node of a program that builds outbounds of these types can hold: the one
      engine, a type of its outbound, health only with an outbound, and an assessment
      from the closed lists.  Regions are free text. */
  predicate Real(e: Entry, types: set<string>) {
    && e.engine == ENGINE
    && (e.protocol in types || (e.protocol == "" && !e.healthy))
    && (e.assessment.Assessed? ==>
          e.assessment.ipType in IP_TYPES && e.assessment.band in BANDS && e.assessment.verdict in VERDICTS)
  }

  datatype Filter = Filter(
    protocol: string, engine: string, region: string, ipType: string, band: string,
    verdicts: seq<string>, healthy: bool)

  const FILTER_KEYS := {"protocol", "engine", "region", "ip_type", "purity_band", "verdict", "healthy"}

  function FilterValue(raw: string): string {
    Lower(TrimSpace(raw))
  }

  predicate KnownKeys(raw: map<string, string>) {
    forall k :: k in raw ==> FilterValue(k) in FILTER_KEYS
  }

  function Get(raw: map<string, string>, key: string): string {
    if key in raw then raw[key] else ""
  }

  /** The values of a comma-separated list that are not blank. */
  function ListValues(s: string): seq<string> {
    var k := FirstComma(s);
    var value := FilterValue(s[..k]);
    (if value == "" then [] else [value]) + (if k == |s| then [] else ListValues(s[k + 1..]))
  }

  function FirstComma(s: string): (k: nat)
    ensures k <= |s|
  {
    if s == [] || s[0] == ',' then 0 else 1 + FirstComma(s[1..])
  }

  function NewFilter(raw: map<string, string>): Filter {
    Filter(
      FilterValue(Get(raw, "protocol")), FilterValue(Get(raw, "engine")), FilterValue(Get(raw, "region")),
      FilterValue(Get(raw, "ip_type")), FilterValue(Get(raw, "purity_band")),
      ListValues(Get(raw, "verdict")), FilterValue(Get(raw, "healthy")) == "true")
  }

  predicate Constrained(f: Filter) {
    f.protocol != "" || f.engine != "" || f.region != "" || f.ipType != "" || f.band != "" || f.verdicts != [] || f.healthy
  }

  predicate BandMatches(f: Filter, a: Assessment)
    requires a.Assessed?
  {
    if f.band == "review" then a.verdict == "review" || a.verdict == "conflicting" else a.band == f.band
  }

  predicate Matches(f: Filter, e: Entry) {
    && (f.protocol != "" ==> e.protocol == f.protocol)
    && (f.engine != "" ==> e.engine == f.engine)
    && (f.healthy ==> e.healthy)
    && (f.region != "" ==> e.region == f.region)
    && (f.ipType != "" || f.band != "" || f.verdicts != [] ==>
          && e.assessment.Assessed?
          && (f.ipType != "" ==> e.assessment.ipType == f.ipType)
          && (f.band != "" ==> BandMatches(f, e.assessment))
          && (f.verdicts != [] ==> e.assessment.verdict in f.verdicts))
  }

  // ---------------------------------------------------------------------------
  // What a scope selects

  datatype Scope = Scope(
    all: bool,
    subscriptions: seq<string>,
    platforms: seq<string>,
    hashes: seq<string>,
    filter: map<string, string>)

  datatype Link = Link(subscription: string, hash: string)

  /** The stored links; there may be no state engine, or it may fail. */
  datatype Links = Unavailable | Loaded(links: seq<Link>)

  /** `types` are the types of outbound that the program was built with. */
  datatype World = World(
    hasPool: bool, pool: map<string, Entry>, views: map<string, seq<string>>, links: Links, types: set<string>)

  ghost predicate WorldOk(w: World) {
    && (forall h :: h in w.pool ==> IsCanonical(h) && Real(w.pool[h], w.types))
    && (forall p, i :: p in w.views && 0 <= i < |w.views[p]| ==> IsCanonical(w.views[p][i]))
  }

  predicate Narrowable(scope: Scope) {
    |scope.subscriptions| > 0 || |scope.platforms| > 0
  }

  predicate Walks(w: World, scope: Scope, f: Filter) {
    w.hasPool && (scope.all || (Constrained(f) && !Narrowable(scope)))
  }

  /** A node found through a subscription or a platform passes the filter. */
  predicate Keeps(w: World, f: Filter, hash: string) {
    Constrained(f) ==>
      w.hasPool && Parses(hash) && Canonical(hash) in w.pool && Matches(f, w.pool[Canonical(hash)])
  }

  ghost predicate Named(hashes: seq<string>, n: int, x: string) {
    exists i :: 0 <= i < n <= |hashes| && TrimSpace(hashes[i]) == x && x != ""
  }

  predicate Walked(w: World, f: Filter, x: string) {
    x in w.pool && Matches(f, w.pool[x])
  }

  ghost predicate Wanted(ids: seq<string>, id: string) {
    exists i :: 0 <= i < |ids| && TrimSpace(ids[i]) == id
  }

  ghost predicate LinkSelects(w: World, ids: seq<string>, f: Filter, link: Link, x: string) {
    Wanted(ids, link.subscription) && Parses(x) && TrimSpace(link.hash) == x && Keeps(w, f, link.hash)
  }

  ghost predicate Linked(w: World, ids: seq<string>, f: Filter, links: seq<Link>, n: int, x: string) {
    exists i :: 0 <= i < n <= |links| && LinkSelects(w, ids, f, links[i], x)
  }

  ghost predicate InView(w: World, f: Filter, platform: string, x: string) {
    var p := TrimSpace(platform);
    p in w.views && x in w.views[p] && Keeps(w, f, x)
  }

  ghost predicate Routed(w: World, f: Filter, platforms: seq<string>, n: int, x: string) {
    exists i :: 0 <= i < n <= |platforms| && InView(w, f, platforms[i], x)
  }

  /** The selectors are a union, and the filter narrows all of them but the hashes. */
  ghost predicate Selects(w: World, scope: Scope, f: Filter, x: string) {
    || Named(scope.hashes, |scope.hashes|, x)
    || (Walks(w, scope, f) && Walked(w, f, x))
    || (w.links.Loaded? && Linked(w, scope.subscriptions, f, w.links.links, |w.links.links|, x))
    || (w.hasPool && Routed(w, f, scope.platforms, |scope.platforms|, x))
  }

  // ---------------------------------------------------------------------------
  // The expansion

  datatype Outcome =
    | InvalidJob
    | NoState
    | TooManyNodes(count: nat)
    | Nodes(hashes: seq<string>)

  predicate HashesOk(hashes: seq<string>) {
    forall i :: 0 <= i < |hashes| ==> TrimSpace(hashes[i]) == "" || Parses(TrimSpace(hashes[i]))
  }

  method AddNamed(hashes: seq<string>) returns (selected: set<string>)
    ensures forall x :: x in selected <==> Named(hashes, |hashes|, x)
  {
    selected := {};
    var i := 0;
    while i < |hashes|
      invariant i <= |hashes| && forall x :: x in selected <==> Named(hashes, i, x)
    {
      var trimmed := TrimSpace(hashes[i]);
      ghost var before := selected;
      if trimmed != "" {
        selected := selected + {trimmed};
      }
      forall x ensures x in selected <==> Named(hashes, i + 1, x) {
        assert x in before <==> Named(hashes, i, x);
      }
      i := i + 1;
    }
  }

  /** The walk ends early only beyond the bound. */
  method WalkPool(w: World, f: Filter, order: seq<string>, base: set<string>) returns (selected: set<string>)
    requires WorldOk(w) && Elements(order) == w.pool.Keys
    ensures base <= selected && forall x :: x in selected ==> x in base || Walked(w, f, x)
    ensures |selected| <= Jobs.MAX_NODES_PER_JOB ==> forall x :: Walked(w, f, x) ==> x in selected
  {
    selected := base;
    var i := 0;
    while i < |order|
      invariant i <= |order| && base <= selected
      invariant forall x :: x in selected ==> x in base || Walked(w, f, x)
      invariant forall j :: 0 <= j < i && Walked(w, f, order[j]) ==> order[j] in selected
    {
      var hash := order[i];
      assert hash in Elements(order);
      if Matches(f, w.pool[hash]) {
        HashIsTrimmed(hash);
        selected := selected + {TrimSpace(hash)};
      }
      i := i + 1;
      if |selected| > Jobs.MAX_NODES_PER_JOB {
        return;
      }
    }
    forall x | Walked(w, f, x) ensures x in selected {
      assert x in Elements(order);
    }
  }

  method WantedIds(ids: seq<string>) returns (wanted: set<string>)
    ensures forall id :: id in wanted <==> Wanted(ids, id)
  {
    wanted := {};
    var i := 0;
    while i < |ids|
      invariant i <= |ids| && forall id :: id in wanted <==> Wanted(ids[..i], id)
    {
      ghost var before := wanted;
      wanted := wanted + {TrimSpace(ids[i])};
      forall id ensures id in wanted <==> Wanted(ids[..i + 1], id) {
        assert id in before <==> Wanted(ids[..i], id);
        if id in before {
          var j :| 0 <= j < |ids[..i]| && TrimSpace(ids[..i][j]) == id;
          assert TrimSpace(ids[..i + 1][j]) == id;
        }
        if TrimSpace(ids[i]) == id {
          assert TrimSpace(ids[..i + 1][i]) == id;
        }
        if Wanted(ids[..i + 1], id) {
          var j :| 0 <= j < |ids[..i + 1]| && TrimSpace(ids[..i + 1][j]) == id;
          assert j < i ==> TrimSpace(ids[..i][j]) == id;
        }
      }
      i := i + 1;
    }
    assert ids[..|ids|] == ids;
  }

  method AddLinked(w: World, ids: seq<string>, f: Filter, links: seq<Link>, base: set<string>)
    returns (selected: set<string>)
    ensures forall x :: x in selected <==> x in base || Linked(w, ids, f, links, |links|, x)
  {
    var wanted := WantedIds(ids);
    selected := base;
    var i := 0;
    while i < |links|
      invariant i <= |links|
      invariant forall x :: x in selected <==> x in base || Linked(w, ids, f, links, i, x)
    {
      var link := links[i];
      ghost var before := selected;
      if link.subscription in wanted && Parses(TrimSpace(link.hash)) && Keeps(w, f, link.hash) {
        selected := selected + {TrimSpace(link.hash)};
      }
      forall x ensures x in selected <==> x in base || Linked(w, ids, f, links, i + 1, x) {
        assert x in before <==> x in base || Linked(w, ids, f, links, i, x);
        assert LinkSelects(w, ids, f, links[i], x) <==> x in selected && (x !in before || LinkSelects(w, ids, f, links[i], x));
      }
      i := i + 1;
    }
  }

  method AddView(w: World, f: Filter, platform: string, base: set<string>) returns (selected: set<string>)
    requires WorldOk(w)
    ensures forall x :: x in selected <==> x in base || InView(w, f, platform, x)
  {
    selected := base;
    var p := TrimSpace(platform);
    if p !in w.views {
      return;
    }
    var view := w.views[p];
    var i := 0;
    while i < |view|
      invariant i <= |view|
      invariant forall x :: x in selected <==> x in base || (x in view[..i] && Keeps(w, f, x))
    {
      if Keeps(w, f, view[i]) {
        HashIsTrimmed(view[i]);
        selected := selected + {TrimSpace(view[i])};
      }
      assert view[..i + 1] == view[..i] + [view[i]];
      i := i + 1;
    }
    assert view[..|view|] == view;
  }

  method AddRouted(w: World, f: Filter, platforms: seq<string>, base: set<string>) returns (selected: set<string>)
    requires WorldOk(w)
    ensures forall x :: x in selected <==> x in base || Routed(w, f, platforms, |platforms|, x)
  {
    selected := base;
    var i := 0;
    while i < |platforms|
      invariant i <= |platforms|
      invariant forall x :: x in selected <==> x in base || Routed(w, f, platforms, i, x)
    {
      ghost var before := selected;
      selected := AddView(w, f, platforms[i], selected);
      forall x ensures x in selected <==> x in base || Routed(w, f, platforms, i + 1, x) {
        assert x in before <==> x in base || Routed(w, f, platforms, i, x);
      }
      i := i + 1;
    }
  }

  /** The scope as a whole: a sorted list of exactly the selected hashes, each once; or
      an error, which is the limit error exactly when more than the limit are selected. */
  method ResolveIntelScope(w: World, order: seq<string>, scope: Scope) returns (r: Outcome)
    requires WorldOk(w) && Elements(order) == w.pool.Keys
    ensures r == InvalidJob <==> !KnownKeys(scope.filter) || !HashesOk(scope.hashes)
    ensures r == NoState <==> r != InvalidJob && |scope.subscriptions| > 0 && w.links.Unavailable?
    ensures r.Nodes? ==>
              && StrictlySorted(r.hashes) && |r.hashes| <= Jobs.MAX_NODES_PER_JOB
              && forall x :: x in r.hashes <==> Selects(w, scope, NewFilter(scope.filter), x)
    ensures r.TooManyNodes? ==>
              exists s: set<string> :: |s| == r.count > Jobs.MAX_NODES_PER_JOB &&
                forall x :: x in s ==> Selects(w, scope, NewFilter(scope.filter), x)
  {
    if !KnownKeys(scope.filter) || !HashesOk(scope.hashes) {
      return InvalidJob;
    }
    var f := NewFilter(scope.filter);
    var selected := AddNamed(scope.hashes);
    if Walks(w, scope, f) {
      selected := WalkPool(w, f, order, selected);
    }
    ghost var walked := selected;
    if |scope.subscriptions| > 0 {
      if w.links.Unavailable? {
        return NoState;
      }
      selected := AddLinked(w, scope.subscriptions, f, w.links.links, selected);
    }
    if w.hasPool {
      selected := AddRouted(w, f, scope.platforms, selected);
    }
    SubsetSize(walked, selected);
    if |selected| > Jobs.MAX_NODES_PER_JOB {
      return TooManyNodes(|selected|);
    }
    var out := SortedElements(selected);
    SortedDistinct(out);
    forall x ensures x in out <==> Selects(w, scope, f, x) {
      assert x in out <==> x in Elements(out);
    }
    return Nodes(out);
  }

  // ---------------------------------------------------------------------------
  // What the filter does

  const ANY := Filter("", "", "", "", "", [], false)

  /** The filter on the engine that every node has. */
  const SINGBOX := ANY.(engine := ENGINE)

  ghost predicate RejectsSome(f: Filter, types: set<string>) {
    exists e :: Real(e, types) && !Matches(f, e)
  }

  /** A filter counts as constraining exactly if it rejects some node, except the one
      filter that asks for the engine every node has: it counts and rejects nothing. */
  lemma ConstrainedIff(f: Filter, types: set<string>)
    ensures RejectsSome(f, types) <==> Constrained(f.(engine := if f.engine == ENGINE then "" else f.engine))
    ensures (Constrained(f) <==> RejectsSome(f, types)) <==> f != SINGBOX
  {
    var e := Entry("", ENGINE, f.region + "x", false, Unassessed);
    assert |e.region| > |f.region|;
    assert Real(e, types);
  }

  /** That filter on its own selects the whole pool, where no filter selects nothing; and
      beside a subscription it drops the links to nodes that are not in the pool. */
  lemma EngineFilterWidens(types: set<string>, x: string) returns (w: World, v: World)
    requires IsCanonical(x)
    ensures WorldOk(w) && WorldOk(v) && w.types == v.types == types && !RejectsSome(SINGBOX, types)
    ensures var alone := Scope(false, [], [], [], map[]);
            Selects(w, alone, SINGBOX, x) && !Selects(w, alone, ANY, x)
    ensures var beside := Scope(false, ["s"], [], [], map[]);
            Selects(v, beside, ANY, x) && !Selects(v, beside, SINGBOX, x)
  {
    w := World(true, map[x := Entry("", ENGINE, "", false, Unassessed)], map[], Loaded([]), types);
    v := World(true, map[], map[], Loaded([Link("s", x)]), types);
    var beside := Scope(false, ["s"], [], [], map[]);
    HashIsTrimmed(x);
    TrimSpaceOfTrimmed("s");
    assert TrimSpace(beside.subscriptions[0]) == "s";
    assert LinkSelects(v, beside.subscriptions, ANY, v.links.links[0], x);
  }

  /** `g` is `f` with more asked for: it lets no node through that `f` does not, and is
      not blank where `f` is not. */
  ghost predicate Stricter(g: Filter, f: Filter, types: set<string>) {
    && (Constrained(f) ==> Constrained(g))
    && forall e :: Real(e, types) && Matches(g, e) ==> Matches(f, e)
  }

  /** A stricter filter never adds a node to a scope that has a selector to narrow, */
  lemma StricterNeverAdds(w: World, scope: Scope, f: Filter, g: Filter, x: string)
    requires WorldOk(w) && Stricter(g, f, w.types) && (scope.all || Narrowable(scope)) && Selects(w, scope, g, x)
    ensures Selects(w, scope, f, x)
  {
    if w.links.Loaded? && Linked(w, scope.subscriptions, g, w.links.links, |w.links.links|, x) {
      var i :| 0 <= i < |w.links.links| && LinkSelects(w, scope.subscriptions, g, w.links.links[i], x);
      assert LinkSelects(w, scope.subscriptions, f, w.links.links[i], x);
    }
    if w.hasPool && Routed(w, g, scope.platforms, |scope.platforms|, x) {
      var i :| 0 <= i < |scope.platforms| && InView(w, g, scope.platforms[i], x);
      assert InView(w, f, scope.platforms[i], x);
    }
  }

  ghost predicate FilterNeverAdds(scope: Scope, x: string) {
    forall w, f, g :: WorldOk(w) && Stricter(g, f, w.types) && Selects(w, scope, g, x) ==> Selects(w, scope, f, x)
  }

  /** while a filter on its own, or beside hashes alone, starts the walk of the pool. */
  lemma FilterAloneAdds(scope: Scope, x: string) returns (w: World, g: Filter)
    requires IsCanonical(x) && !Named(scope.hashes, |scope.hashes|, x) && !scope.all && !Narrowable(scope)
    ensures WorldOk(w) && Stricter(g, ANY, w.types) && Selects(w, scope, g, x) && !Selects(w, scope, ANY, x)
  {
    w := World(true, map[x := Entry("", ENGINE, "us", false, Unassessed)], map[], Loaded([]), {});
    g := ANY.(region := "us");
  }

  /** So adding to a filter can only narrow a scope exactly when the scope names all
      nodes, a subscription or a platform. */
  lemma FilterNeverAddsIff(scope: Scope, x: string)
    requires IsCanonical(x) && !Named(scope.hashes, |scope.hashes|, x)
    ensures FilterNeverAdds(scope, x) <==> scope.all || Narrowable(scope)
  {
    if scope.all || Narrowable(scope) {
      forall w, f, g | WorldOk(w) && Stricter(g, f, w.types) && Selects(w, scope, g, x) ensures Selects(w, scope, f, x) {
        StricterNeverAdds(w, scope, f, g, x);
      }
    } else {
      var w, g := FilterAloneAdds(scope, x);
    }
  }

  /** A node named by hash is taken as given; any other selected node matches the filter
      or the filter constrains nothing. */
  lemma FilterNarrows(w: World, scope: Scope, f: Filter, x: string)
    requires WorldOk(w) && Selects(w, scope, f, x) && Constrained(f) && !Named(scope.hashes, |scope.hashes|, x)
    ensures exists h :: h in w.pool && Matches(f, w.pool[h]) && Canonical(x) == h
  {
    if Walks(w, scope, f) && Walked(w, f, x) {
      assert IsCanonical(x);
    } else if w.links.Loaded? && Linked(w, scope.subscriptions, f, w.links.links, |w.links.links|, x) {
      var i :| 0 <= i < |w.links.links| && LinkSelects(w, scope.subscriptions, f, w.links.links[i], x);
      HashIsTrimmed(w.links.links[i].hash);
    }
  }

  // ---------------------------------------------------------------------------
  // Keys and spellings

  lemma ValueOfTrue()
    ensures FilterValue("true") == "true" && ListValues("true") == ["true"]
  {
    TrimSpaceOfTrimmed("true");
    assert Lower("true") == "true";
    assert FirstComma("true") == 4 by {
      assert "true"[1..] == "rue" && "rue"[1..] == "ue" && "ue"[1..] == "e" && "e"[1..] == "";
      assert FirstComma("") == 0 && FirstComma("e") == 1 && FirstComma("ue") == 2 && FirstComma("rue") == 3;
    }
    assert "true"[..4] == "true";
  }

  /** The check of the keys ignores case and surrounding space, reading them does not: an
      accepted key has an effect exactly when it is spelled as documented. */
  lemma AcceptedKeyWorksIff(key: string)
    requires KnownKeys(map[key := ""])
    ensures (exists v :: Constrained(NewFilter(map[key := v]))) <==> key in FILTER_KEYS
  {
    if key in FILTER_KEYS {
      ValueOfTrue();
      assert Constrained(NewFilter(map[key := "true"]));
    } else {
      forall v ensures !Constrained(NewFilter(map[key := v])) {
        var raw := map[key := v];
        assert forall k :: k in FILTER_KEYS ==> k !in raw;
        assert "protocol" !in raw && "engine" !in raw && "region" !in raw && "ip_type" !in raw
               && "purity_band" !in raw && "verdict" !in raw && "healthy" !in raw;
      }
    }
  }

  /** The accepted key `Healthy` is one that has none. */
  lemma CapitalKeyIsIgnored(v: string)
    ensures KnownKeys(map["Healthy" := v]) && !Constrained(NewFilter(map["Healthy" := v]))
  {
    TrimSpaceOfTrimmed("Healthy");
    assert Lower("Healthy") == "healthy";
    AcceptedKeyWorksIff("Healthy");
  }

  // ---------------------------------------------------------------------------
  // Every node once

  /** The stored links that name a node do so in canonical form. */
  ghost predicate CanonicalLinks(w: World) {
    w.links.Loaded? ==> forall l :: l in w.links.links && Parses(TrimSpace(l.hash)) ==> IsCanonical(TrimSpace(l.hash))
  }

  /** No two of the selected strings stand for one node. */
  ghost predicate SelectsOnce(w: World, scope: Scope, f: Filter) {
    forall x, y :: Selects(w, scope, f, x) && Selects(w, scope, f, y) && Canonical(x) == Canonical(y) ==> x == y
  }

  /** That holds in every world of a program with these types of outbound; `tidy` limits
      it to worlds with canonical links. */
  ghost predicate AlwaysOnce(scope: Scope, f: Filter, types: set<string>, tidy: bool) {
    forall w :: WorldOk(w) && w.types == types && (tidy ==> CanonicalLinks(w)) ==> SelectsOnce(w, scope, f)
  }

  ghost predicate Names(scope: Scope, x: string) {
    Named(scope.hashes, |scope.hashes|, x)
  }

  ghost predicate CanonicalNames(scope: Scope) {
    forall x :: Names(scope, x) ==> IsCanonical(x)
  }

  /** No node is named in two spellings. */
  ghost predicate SpelledOnce(scope: Scope) {
    forall x, y :: Names(scope, x) && Names(scope, y) && Canonical(x) == Canonical(y) ==> x == y
  }

  /** A verdict that the filter allows: one of those listed, and for the band "review",
      which stands for two verdicts, one of these. */
  predicate Allowed(f: Filter, verdict: string) {
    && (f.verdicts != [] ==> verdict in f.verdicts)
    && (f.band == "review" ==> verdict in {"review", "conflicting"})
  }

  /** The values asked for exist: nodes have one engine, the types of outbound come with
      the program, and bands, verdicts and IP types come from closed lists. */
  predicate Satisfiable(f: Filter, types: set<string>) {
    && (f.protocol == "" || f.protocol in types) && (f.healthy ==> types != {})
    && f.engine in {"", ENGINE} && f.ipType in {""} + IP_TYPES && f.band in {"", "review"} + BANDS
    && exists v :: v in VERDICTS && Allowed(f, v)
  }

  /** These are the filters that some node can pass. */
  lemma SatisfiableIff(f: Filter, types: set<string>) returns (e: Entry)
    ensures Satisfiable(f, types) ==> Real(e, types) && Matches(f, e)
    ensures !Satisfiable(f, types) ==> forall x :: Real(x, types) ==> !Matches(f, x)
  {
    e := Entry("", ENGINE, f.region, false, Unassessed);
    if Satisfiable(f, types) {
      var v :| v in VERDICTS && Allowed(f, v);
      var protocol := f.protocol;
      if f.healthy && f.protocol == "" {
        protocol :| protocol in types;
      }
      e := Entry(protocol, ENGINE, f.region, f.healthy,
                 Assessed(if f.ipType == "" then "unknown" else f.ipType,
                          if f.band in BANDS then f.band else "unknown", v));
    } else {
      forall x | Real(x, types) ensures !Matches(f, x) {
        if Matches(f, x) {
          MatchIsAllowed(f, x, types);
          assert false;
        }
      }
    }
  }

  lemma MatchIsAllowed(f: Filter, e: Entry, types: set<string>)
    requires Real(e, types) && Matches(f, e)
    ensures Satisfiable(f, types)
  {
    if f.verdicts == [] && f.band != "review" {
      assert "review" in VERDICTS && Allowed(f, "review");
    } else {
      assert Allowed(f, e.assessment.verdict);
    }
  }

  /** The scope can select nodes that it does not name. */
  predicate Reaches(scope: Scope, f: Filter, types: set<string>) {
    (scope.all || Narrowable(scope) || Constrained(f)) && Satisfiable(f, types)
  }

  lemma SelectedIsCanonical(w: World, scope: Scope, f: Filter, x: string)
    requires WorldOk(w) && Selects(w, scope, f, x) && !Names(scope, x) && (CanonicalLinks(w) || scope.subscriptions == [])
    ensures IsCanonical(x)
  {
  }

  /** Otherwise it selects exactly what it names, in every world. */
  lemma UnreachedIsNamed(w: World, scope: Scope, f: Filter, x: string)
    requires WorldOk(w) && !Reaches(scope, f, w.types)
    ensures Selects(w, scope, f, x) <==> Names(scope, x)
  {
    if Selects(w, scope, f, x) && !Satisfiable(f, w.types) {
      var _ := SatisfiableIff(f, w.types);
      assert Allowed(ANY, "review") && Satisfiable(ANY, w.types);
      if !Names(scope, x) {
        FilterNarrows(w, scope, f, x);
      }
    }
  }

  /** A world in which every selector of the scope reaches the node `x`. */
  function WorldOf(scope: Scope, x: string, e: Entry, links: seq<string>, types: set<string>): World {
    World(true, map[x := e],
          if scope.platforms == [] then map[] else map[TrimSpace(scope.platforms[0]) := [x]],
          Loaded(if scope.subscriptions == [] then []
                 else seq(|links|, i requires 0 <= i < |links| => Link(TrimSpace(scope.subscriptions[0]), links[i]))),
          types)
  }

  lemma WorldOfReaches(scope: Scope, f: Filter, x: string, e: Entry, types: set<string>)
    requires IsCanonical(x) && Real(e, types) && Matches(f, e) && (scope.all || Narrowable(scope) || Constrained(f))
    ensures var w := WorldOf(scope, x, e, [x], types); WorldOk(w) && CanonicalLinks(w) && Selects(w, scope, f, x)
  {
    var w := WorldOf(scope, x, e, [x], types);
    HashIsTrimmed(x);
    if Walks(w, scope, f) {
      assert Walked(w, f, x);
    } else if scope.subscriptions != [] {
      LinkReaches(w, scope, f, 0, x);
    } else {
      assert InView(w, f, scope.platforms[0], x);
    }
  }

  lemma LinkReaches(w: World, scope: Scope, f: Filter, i: nat, x: string)
    requires w.links.Loaded? && i < |w.links.links| && scope.subscriptions != []
    requires w.links.links[i] == Link(TrimSpace(scope.subscriptions[0]), x) && Parses(x) && Keeps(w, f, x)
    ensures Selects(w, scope, f, x)
  {
    HashIsTrimmed(x);
    assert Wanted(scope.subscriptions, TrimSpace(scope.subscriptions[0]));
    assert LinkSelects(w, scope.subscriptions, f, w.links.links[i], x);
  }

  /** A spelling of a hash that is not canonical. */
  function Spelling(letter: char): string {
    seq(32, _ => letter)
  }

  lemma TwoSpellings()
    ensures Parses(Spelling('A')) && IsCanonical(Spelling('a'))
    ensures Canonical(Spelling('A')) == Spelling('a') != Spelling('A')
  {
    assert Spelling('a')[0] != Spelling('A')[0];
  }

  /** Two stored spellings of one hash select it twice. */
  lemma LinksSelectTwice(scope: Scope, f: Filter, e: Entry, types: set<string>)
    requires scope.subscriptions != [] && Real(e, types) && Matches(f, e)
    ensures !AlwaysOnce(scope, f, types, false)
  {
    var x, y := Spelling('a'), Spelling('A');
    TwoSpellings();
    var w := WorldOf(scope, x, e, [x, y], types);
    assert WorldOk(w);
    assert Canonical(x) == x;
    LinkReaches(w, scope, f, 0, x);
    LinkReaches(w, scope, f, 1, y);
    assert !SelectsOnce(w, scope, f);
  }

  /** A name that is not canonical is selected beside the node's own hash. */
  lemma NameSelectsTwice(scope: Scope, f: Filter, e: Entry, types: set<string>, x: string)
    requires Names(scope, x) && Parses(x) && !IsCanonical(x)
    requires Real(e, types) && Matches(f, e) && (scope.all || Narrowable(scope) || Constrained(f))
    ensures !AlwaysOnce(scope, f, types, true)
  {
    var c := Canonical(x);
    var w := WorldOf(scope, c, e, [c], types);
    WorldOfReaches(scope, f, c, e, types);
    assert Selects(w, scope, f, x);
    assert !SelectsOnce(w, scope, f);
  }

  lemma CanonicalSelectsOnce(scope: Scope, f: Filter, types: set<string>, tidy: bool)
    requires CanonicalNames(scope) && (scope.subscriptions != [] ==> tidy)
    ensures AlwaysOnce(scope, f, types, tidy)
  {
    forall w | WorldOk(w) && w.types == types && (tidy ==> CanonicalLinks(w)) ensures SelectsOnce(w, scope, f) {
      forall x | Selects(w, scope, f, x) ensures Canonical(x) == x {
        if !Names(scope, x) {
          SelectedIsCanonical(w, scope, f, x);
        }
      }
    }
  }

  /** A scope that can select more than it names selects every node once, in every world,
      exactly if it names nodes in canonical form and, where it selects by
      subscription, the stored links do so too. */
  lemma ReachingScopeOnceIff(scope: Scope, f: Filter, types: set<string>, tidy: bool)
    requires HashesOk(scope.hashes) && Reaches(scope, f, types)
    ensures AlwaysOnce(scope, f, types, tidy) <==> CanonicalNames(scope) && (scope.subscriptions != [] ==> tidy)
  {
    var e := SatisfiableIff(f, types);
    if !CanonicalNames(scope) {
      var x :| Names(scope, x) && !IsCanonical(x);
      NameSelectsTwice(scope, f, e, types, x);
    } else if scope.subscriptions != [] && !tidy {
      LinksSelectTwice(scope, f, e, types);
    } else {
      CanonicalSelectsOnce(scope, f, types, tidy);
    }
  }

  lemma SpelledTwiceSelectsTwice(scope: Scope, f: Filter, types: set<string>, tidy: bool)
    requires !SpelledOnce(scope)
    ensures !AlwaysOnce(scope, f, types, tidy)
  {
    var x, y :| Names(scope, x) && Names(scope, y) && Canonical(x) == Canonical(y) && x != y;
    var w := World(false, map[], map[], Loaded([]), types);
    assert WorldOk(w) && CanonicalLinks(w);
    assert Selects(w, scope, f, x) && Selects(w, scope, f, y);
    assert !SelectsOnce(w, scope, f);
  }

  /** A scope that selects what it names and nothing else selects every node once exactly
      if it names no node in two spellings. */
  lemma NamingScopeOnceIff(scope: Scope, f: Filter, types: set<string>, tidy: bool)
    requires !Reaches(scope, f, types)
    ensures AlwaysOnce(scope, f, types, tidy) <==> SpelledOnce(scope)
  {
    if SpelledOnce(scope) {
      forall w | WorldOk(w) && w.types == types ensures SelectsOnce(w, scope, f) {
        forall x ensures Selects(w, scope, f, x) <==> Names(scope, x) {
          UnreachedIsNamed(w, scope, f, x);
        }
      }
    } else {
      SpelledTwiceSelectsTwice(scope, f, types, tidy);
    }
  }

  /** Two spellings of one hash select it twice. */
  lemma OtherSpellingSelectsTwice(types: set<string>) returns (scope: Scope)
    ensures HashesOk(scope.hashes) && !Reaches(scope, ANY, types) && !AlwaysOnce(scope, ANY, types, true)
  {
    var x, y := Spelling('a'), Spelling('A');
    TwoSpellings();
    scope := Scope(false, [], [], [x, y], map[]);
    HashIsTrimmed(x);
    HashIsTrimmed(y);
    assert scope.hashes[0] == x && scope.hashes[1] == y;
    assert Names(scope, x) && Names(scope, y);
    NamingScopeOnceIff(scope, ANY, types, true);
  }
}
