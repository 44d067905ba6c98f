/**
 The order and the pages of the node list (`nodeTagSortKey`, `compareNodeSummaries`,
 `compareNodeSortKeyPresence`, `sortNodeSummaries`, `applySortOrder`, `PaginateSlice`).

 The library sort is any method that returns its input as a sorted permutation.
 */
module NodeListing {
  import opened Text

  const MAX_INT64: int := 0x7FFF_FFFF_FFFF_FFFF

  datatype Tag = Tag(created: int, tag: string)

  datatype Score = NoScore | Score(n: int)

  datatype Latency = NoLatency | Latency(ms: real)

  datatype Node = Node(
    hash: string,
    displayTag: string,
    tags: seq<Tag>,
    createdAt: string,
    failures: int,
    region: string,
    purity: Score,
    latency: Latency,
    assessedAt: int)

  datatype Sorting = Sorting(key: string, order: string)

  // ---------------------------------------------------------------------------
  // The tag a node is listed under

  datatype Best = Best(created: int, tag: string)

  function Better(best: Best, t: Tag): Best {
    if t.created < best.created then Best(t.created, t.tag)
    else if t.created == best.created && (best.tag == "" || Less(t.tag, best.tag)) then Best(best.created, t.tag)
    else best
  }

  function BestOf(tags: seq<Tag>): Best {
    if tags == [] then Best(MAX_INT64, "") else Better(BestOf(tags[..|tags| - 1]), tags[|tags| - 1])
  }

  function TagSortKey(n: Node): string {
    if n.displayTag != "" then n.displayTag else BestOf(n.tags).tag
  }

  method NodeTagSortKey(n: Node) returns (key: string)
    ensures key == TagSortKey(n)
  {
    if n.displayTag != "" {
      return n.displayTag;
    }
    var bestCreated, bestTag := MAX_INT64, "";
    var i := 0;
    while i < |n.tags|
      invariant i <= |n.tags| && BestOf(n.tags[..i]) == Best(bestCreated, bestTag)
    {
      var t := n.tags[i];
      assert n.tags[..i + 1][..i] == n.tags[..i];
      if t.created < bestCreated {
        bestCreated, bestTag := t.created, t.tag;
      } else if t.created == bestCreated && (bestTag == "" || Less(t.tag, bestTag)) {
        bestTag := t.tag;
      }
      i := i + 1;
    }
    assert n.tags[..|n.tags|] == n.tags;
    return bestTag;
  }

  /** The creation times are 64-bit numbers. */
  predicate Int64(tags: seq<Tag>) {
    forall t :: t in tags ==> t.created <= MAX_INT64
  }

  predicate NoneOlder(tags: seq<Tag>, created: int) {
    forall x :: x in tags ==> created <= x.created
  }

  predicate Oldest(tags: seq<Tag>, t: Tag) {
    t in tags && NoneOlder(tags, t.created)
  }

  /** The oldest subscription lists the node with a name and without one. */
  ghost predicate Mixed(tags: seq<Tag>) {
    exists t, u :: Oldest(tags, t) && Oldest(tags, u) && t.tag == "" && u.tag != ""
  }

  /** The least tag of the oldest subscription: no tag precedes it. */
  ghost predicate Earliest(tags: seq<Tag>, b: Best) {
    && Tag(b.created, b.tag) in tags
    && forall t :: t in tags ==> b.created < t.created || (b.created == t.created && !Less(t.tag, b.tag))
  }

  lemma SplitLast(tags: seq<Tag>)
    requires tags != []
    ensures forall x :: x in tags <==> x in tags[..|tags| - 1] || x == tags[|tags| - 1]
  {
  }

  lemma {:induction false} BestIsOldest(tags: seq<Tag>)
    requires Int64(tags)
    ensures NoneOlder(tags, BestOf(tags).created)
    ensures tags != [] ==> Tag(BestOf(tags).created, BestOf(tags).tag) in tags
    ensures tags == [] ==> BestOf(tags).created == MAX_INT64
    decreases |tags|
  {
    if tags != [] {
      SplitLast(tags);
      BestIsOldest(tags[..|tags| - 1]);
    }
  }

  /** Unless the oldest subscription has both, the key is its least tag. */
  lemma {:induction false} KeyIsEarliest(tags: seq<Tag>)
    requires tags != [] && Int64(tags) && !Mixed(tags)
    ensures Earliest(tags, BestOf(tags))
    decreases |tags|
  {
    SplitLast(tags);
    var front, last := tags[..|tags| - 1], tags[|tags| - 1];
    var b := BestOf(front);
    BestIsOldest(front);
    if front != [] && b.created <= last.created {
      FrontNotMixed(tags);
      KeyIsEarliest(front);
      OnlyLeast(tags, b);
    } else {
      LessTotal(last.tag, last.tag);
    }
  }

  lemma FrontNotMixed(tags: seq<Tag>)
    requires tags != [] && Int64(tags) && !Mixed(tags)
    requires BestOf(tags[..|tags| - 1]).created <= tags[|tags| - 1].created
    ensures Int64(tags[..|tags| - 1]) && !Mixed(tags[..|tags| - 1])
  {
    SplitLast(tags);
    var front := tags[..|tags| - 1];
    BestIsOldest(front);
    forall t | Oldest(front, t) ensures Oldest(tags, t) {
      assert t.created <= BestOf(front).created;
    }
  }

  /** Taking the smaller of the least tag so far and the next one. */
  lemma OnlyLeast(tags: seq<Tag>, b: Best)
    requires tags != [] && !Mixed(tags)
    requires Earliest(tags[..|tags| - 1], b) && b.created <= tags[|tags| - 1].created
    ensures Earliest(tags, Better(b, tags[|tags| - 1]))
  {
    SplitLast(tags);
    var front, last := tags[..|tags| - 1], tags[|tags| - 1];
    LessTotal(last.tag, b.tag);
    LessTotal(last.tag, last.tag);
    assert Oldest(tags, Tag(b.created, b.tag));
    assert last.created == b.created ==> Oldest(tags, last);
    forall t | t in front && Less(t.tag, last.tag) && Less(last.tag, b.tag) ensures Less(t.tag, b.tag) {
      LessTrans(t.tag, last.tag, b.tag);
    }
  }

  lemma EarliestUnique(tags: seq<Tag>, a: Best, b: Best)
    requires Earliest(tags, a) && Earliest(tags, b)
    ensures a == b
  {
    LessTotal(a.tag, b.tag);
  }

  lemma SameTags(s: seq<Tag>, t: seq<Tag>)
    requires multiset(s) == multiset(t)
    ensures |s| == |t| && forall x :: x in s <==> x in t
  {
    assert |s| == |multiset(s)| == |multiset(t)| == |t|;
    assert forall x :: x in s <==> x in multiset(s);
    assert forall x :: x in t <==> x in multiset(t);
  }

  /** A list that ends with a tag of the oldest subscription: the key is empty exactly if
      that tag is. */
  lemma LastOfTheOldest(rest: seq<Tag>, t: Tag)
    requires Int64(rest + [t]) && Oldest(rest + [t], t)
    ensures BestOf(rest + [t]).tag == "" <==> t.tag == ""
  {
    assert (rest + [t])[..|rest|] == rest;
    assert forall x :: x in rest ==> x in rest + [t];
    BestIsOldest(rest);
    assert t in rest + [t];
  }

  lemma MoveToEnd(tags: seq<Tag>, t: Tag) returns (rest: seq<Tag>)
    requires t in tags
    ensures multiset(rest + [t]) == multiset(tags)
  {
    var i :| 0 <= i < |tags| && tags[i] == t;
    rest := tags[..i] + tags[i + 1..];
    assert tags == tags[..i] + [t] + tags[i + 1..];
  }

  ghost predicate OrderFree(tags: seq<Tag>) {
    forall s :: multiset(s) == multiset(tags) ==> BestOf(s).tag == BestOf(tags).tag
  }

  /** The key of a node does not depend on the order of its tags exactly when its oldest
      subscription does not list it both with a name and without one. */
  lemma OrderFreeIff(tags: seq<Tag>)
    requires Int64(tags)
    ensures OrderFree(tags) <==> !Mixed(tags)
  {
    if Mixed(tags) {
      var t, u :| Oldest(tags, t) && Oldest(tags, u) && t.tag == "" && u.tag != "";
      var xs := MoveToEnd(tags, t);
      var ys := MoveToEnd(tags, u);
      SameTags(xs + [t], tags);
      SameTags(ys + [u], tags);
      LastOfTheOldest(xs, t);
      LastOfTheOldest(ys, u);
    } else {
      forall s | multiset(s) == multiset(tags) ensures BestOf(s).tag == BestOf(tags).tag {
        SameTags(s, tags);
        if tags != [] {
          KeyIsEarliest(tags);
          assert forall t :: Oldest(s, t) ==> Oldest(tags, t);
          KeyIsEarliest(s);
          EarliestUnique(tags, BestOf(tags), BestOf(s));
        }
      }
    }
  }

  // ---------------------------------------------------------------------------
  // The comparison

  function CompareStrings(a: string, b: string): int {
    if Less(a, b) then -1 else if a == b then 0 else 1
  }

  function CompareInts(a: int, b: int): int {
    if a < b then -1 else if a == b then 0 else 1
  }

  function CompareReals(a: real, b: real): int {
    if a < b then -1 else if a == b then 0 else 1
  }

  function PurityScore(n: Node): int {
    if n.purity.NoScore? then 0 else n.purity.n
  }

  function ReferenceLatency(n: Node): real {
    if n.latency.NoLatency? then 0.0 else n.latency.ms
  }

  function CompareKeys(key: string, a: Node, b: Node): int {
    if key == "created_at" then CompareStrings(a.createdAt, b.createdAt)
    else if key == "failure_count" then CompareInts(a.failures, b.failures)
    else if key == "region" then CompareStrings(a.region, b.region)
    else if key == "purity_score" then CompareInts(PurityScore(a), PurityScore(b))
    else if key == "latency" then CompareReals(ReferenceLatency(a), ReferenceLatency(b))
    else if key == "assessed_at" then CompareInts(a.assessedAt, b.assessedAt)
    else CompareStrings(TagSortKey(a), TagSortKey(b))
  }

  function CompareSummaries(key: string, a: Node, b: Node): int {
    var order := CompareKeys(key, a, b);
    if order != 0 then order else CompareStrings(a.hash, b.hash)
  }

  predicate KeyPresent(key: string, n: Node) {
    if key == "purity_score" then n.purity.Score?
    else if key == "latency" then n.latency.Latency?
    else if key == "assessed_at" then n.assessedAt > 0
    else true
  }

  function ComparePresence(key: string, a: Node, b: Node): int {
    if KeyPresent(key, a) == KeyPresent(key, b) then 0 else if KeyPresent(key, a) then -1 else 1
  }

  function ApplySortOrder(order: int, sortOrder: string): int {
    if sortOrder == "desc" then -order else order
  }

  function Compare(sorting: Sorting, a: Node, b: Node): int {
    var order := ComparePresence(sorting.key, a, b);
    if order != 0 then order else ApplySortOrder(CompareSummaries(sorting.key, a, b), sorting.order)
  }

  predicate Before(sorting: Sorting, a: Node, b: Node) {
    Compare(sorting, a, b) < 0
  }

  lemma StringsAntisymmetric(a: string, b: string)
    ensures CompareStrings(a, b) == -CompareStrings(b, a)
  {
    LessTotal(a, b);
  }

  lemma StringsTransitive(a: string, b: string, c: string)
    requires CompareStrings(a, b) <= 0 && CompareStrings(b, c) <= 0
    ensures CompareStrings(a, c) <= 0
    ensures CompareStrings(a, c) == 0 ==> a == b == c
  {
    if Less(a, b) && Less(b, c) {
      LessTrans(a, b, c);
      LessTotal(a, c);
    }
  }

  lemma KeysAntisymmetric(key: string, a: Node, b: Node)
    ensures CompareKeys(key, a, b) == -CompareKeys(key, b, a)
  {
    StringsAntisymmetric(a.createdAt, b.createdAt);
    StringsAntisymmetric(a.region, b.region);
    StringsAntisymmetric(TagSortKey(a), TagSortKey(b));
  }

  lemma KeysTransitive(key: string, a: Node, b: Node, c: Node)
    requires CompareKeys(key, a, b) <= 0 && CompareKeys(key, b, c) <= 0
    ensures CompareKeys(key, a, c) <= 0
    ensures CompareKeys(key, a, c) == 0 ==> CompareKeys(key, a, b) == 0 && CompareKeys(key, b, c) == 0
  {
    if key == "created_at" {
      StringsTransitive(a.createdAt, b.createdAt, c.createdAt);
    } else if key == "failure_count" || key == "purity_score" || key == "latency" || key == "assessed_at" {
    } else if key == "region" {
      StringsTransitive(a.region, b.region, c.region);
    } else {
      StringsTransitive(TagSortKey(a), TagSortKey(b), TagSortKey(c));
    }
  }

  lemma SummariesTransitive(key: string, a: Node, b: Node, c: Node)
    requires CompareSummaries(key, a, b) <= 0 && CompareSummaries(key, b, c) <= 0
    ensures CompareSummaries(key, a, c) <= 0
    ensures CompareSummaries(key, a, c) == 0 ==> a.hash == b.hash == c.hash
  {
    KeysTransitive(key, a, b, c);
    if CompareKeys(key, a, c) == 0 {
      StringsTransitive(a.hash, b.hash, c.hash);
    }
  }

  lemma SummariesAntisymmetric(key: string, a: Node, b: Node)
    ensures CompareSummaries(key, a, b) == -CompareSummaries(key, b, a)
    ensures CompareSummaries(key, a, b) == 0 ==> a.hash == b.hash
  {
    KeysAntisymmetric(key, a, b);
    StringsAntisymmetric(a.hash, b.hash);
  }

  lemma ExactlyOneFirst(sorting: Sorting, a: Node, b: Node)
    ensures a.hash != b.hash ==> (Before(sorting, a, b) <==> !Before(sorting, b, a))
    ensures !(Before(sorting, a, b) && Before(sorting, b, a)) && !Before(sorting, a, a)
    ensures KeyPresent(sorting.key, a) && !KeyPresent(sorting.key, b) ==> Before(sorting, a, b)
    ensures KeyPresent(sorting.key, a) && KeyPresent(sorting.key, b) ==>
              (Before(sorting, a, b) <==> Before(Reversed(sorting), b, a))
  {
    SummariesAntisymmetric(sorting.key, a, b);
    SummariesAntisymmetric(sorting.key, a, a);
  }

  function Reversed(sorting: Sorting): Sorting {
    sorting.(order := if sorting.order == "desc" then "asc" else "desc")
  }

  lemma Transitive(sorting: Sorting, a: Node, b: Node, c: Node)
    requires Before(sorting, a, b) && Before(sorting, b, c)
    ensures Before(sorting, a, c)
  {
    var key := sorting.key;
    if KeyPresent(key, a) == KeyPresent(key, b) == KeyPresent(key, c) {
      if sorting.order == "desc" {
        SummariesAntisymmetric(key, a, b);
        SummariesAntisymmetric(key, b, c);
        SummariesAntisymmetric(key, a, c);
        SummariesTransitive(key, c, b, a);
        SummariesAntisymmetric(key, c, c);
        OneHash(key, c, b, a);
      } else {
        SummariesTransitive(key, a, b, c);
        OneHash(key, a, b, c);
      }
    }
  }

  lemma OneHash(key: string, a: Node, b: Node, c: Node)
    requires CompareSummaries(key, a, b) < 0 && CompareSummaries(key, b, c) < 0
    ensures CompareSummaries(key, a, c) != 0
  {
    KeysTransitive(key, a, b, c);
    if CompareKeys(key, a, c) == 0 {
      StringsTransitive(a.hash, b.hash, c.hash);
      LessTotal(a.hash, a.hash);
    }
  }

  /** The comparison that counts in the given direction. */
  predicate Goes(order: string, less: bool, greater: bool) {
    if order == "desc" then greater else less
  }

  /** For every key and direction the comparison is a strict total order on nodes with
      different hashes.  A node without the key never precedes one with it; among the
      nodes that have it the other direction is the reverse, and what decides is the value
      that the key names. */
  lemma TotalOrder(sorting: Sorting, a: Node, b: Node, c: Node)
    ensures a.hash != b.hash ==> (Before(sorting, a, b) <==> !Before(sorting, b, a))
    ensures !(Before(sorting, a, b) && Before(sorting, b, a)) && !Before(sorting, a, a)
    ensures Before(sorting, a, b) && Before(sorting, b, c) ==> Before(sorting, a, c)
    ensures KeyPresent(sorting.key, a) && !KeyPresent(sorting.key, b) ==> Before(sorting, a, b)
    ensures KeyPresent(sorting.key, a) && KeyPresent(sorting.key, b) ==>
              (Before(sorting, a, b) <==> Before(Reversed(sorting), b, a))
    ensures TextsDecide(sorting.order, a, b) && NumbersDecide(sorting.order, a, b)
  {
    ExactlyOneFirst(sorting, a, b);
    if Before(sorting, a, b) && Before(sorting, b, c) {
      Transitive(sorting, a, b, c);
    }
    TextsAlwaysDecide(sorting.order, a, b);
  }

  predicate TextsDecide(order: string, a: Node, b: Node) {
    && (a.createdAt != b.createdAt ==>
          (Before(Sorting("created_at", order), a, b) <==> Goes(order, Less(a.createdAt, b.createdAt), Less(b.createdAt, a.createdAt))))
    && (a.region != b.region ==>
          (Before(Sorting("region", order), a, b) <==> Goes(order, Less(a.region, b.region), Less(b.region, a.region))))
    && (TagSortKey(a) != TagSortKey(b) ==>
          (Before(Sorting("tag", order), a, b) <==> Goes(order, Less(TagSortKey(a), TagSortKey(b)), Less(TagSortKey(b), TagSortKey(a)))))
  }

  predicate NumbersDecide(order: string, a: Node, b: Node) {
    && (a.failures != b.failures ==>
          (Before(Sorting("failure_count", order), a, b) <==> Goes(order, a.failures < b.failures, a.failures > b.failures)))
    && (a.purity.Score? && b.purity.Score? && a.purity != b.purity ==>
          (Before(Sorting("purity_score", order), a, b) <==> Goes(order, a.purity.n < b.purity.n, a.purity.n > b.purity.n)))
    && (a.latency.Latency? && b.latency.Latency? && a.latency != b.latency ==>
          (Before(Sorting("latency", order), a, b) <==> Goes(order, a.latency.ms < b.latency.ms, a.latency.ms > b.latency.ms)))
    && (a.assessedAt > 0 && b.assessedAt > 0 && a.assessedAt != b.assessedAt ==>
          (Before(Sorting("assessed_at", order), a, b) <==> Goes(order, a.assessedAt < b.assessedAt, a.assessedAt > b.assessedAt)))
  }

  lemma TextsAlwaysDecide(order: string, a: Node, b: Node)
    ensures TextsDecide(order, a, b)
  {
    LessTotal(a.createdAt, b.createdAt);
    LessTotal(a.region, b.region);
    LessTotal(TagSortKey(a), TagSortKey(b));
  }

  // ---------------------------------------------------------------------------
  // The sorted list

  predicate SortedBy(sorting: Sorting, nodes: seq<Node>) {
    forall i, j :: 0 <= i < j < |nodes| ==> Before(sorting, nodes[i], nodes[j])
  }

  predicate DistinctHashes(nodes: seq<Node>) {
    forall i, j :: 0 <= i < j < |nodes| ==> nodes[i].hash != nodes[j].hash
  }

  /** `out` is what the library sort may make of `nodes`. */
  predicate IsSortOf(sorting: Sorting, nodes: seq<Node>, out: seq<Node>) {
    multiset(out) == multiset(nodes) && SortedBy(sorting, out)
  }

  lemma FirstsAgree(sorting: Sorting, xs: seq<Node>, ys: seq<Node>)
    requires SortedBy(sorting, xs) && SortedBy(sorting, ys) && xs != [] && ys != []
    requires xs[0] in ys && ys[0] in xs
    ensures xs[0] == ys[0]
  {
    ExactlyOneFirst(sorting, xs[0], ys[0]);
  }

  lemma RestOf(xs: seq<Node>)
    requires xs != []
    ensures multiset(xs[1..]) == multiset(xs) - multiset{xs[0]}
  {
    assert xs == [xs[0]] + xs[1..];
  }

  /** There is only one sorted list of the same nodes. */
  lemma {:induction false} SortUnique(sorting: Sorting, xs: seq<Node>, ys: seq<Node>)
    requires SortedBy(sorting, xs) && SortedBy(sorting, ys) && multiset(xs) == multiset(ys)
    ensures xs == ys
    decreases |xs|
  {
    assert |xs| == |multiset(xs)| == |multiset(ys)| == |ys|;
    if xs != [] {
      assert xs[0] in multiset(ys) && ys[0] in multiset(xs);
      FirstsAgree(sorting, xs, ys);
      RestOf(xs);
      RestOf(ys);
      SortUnique(sorting, xs[1..], ys[1..]);
      assert xs == [xs[0]] + xs[1..] && ys == [ys[0]] + ys[1..];
    }
  }

  /** Nodes with different hashes can be sorted, for every key and direction. */
  method SortNodeSummaries(nodes: seq<Node>, sorting: Sorting) returns (out: seq<Node>)
    requires DistinctHashes(nodes)
    ensures IsSortOf(sorting, nodes, out)
  {
    out := [];
    var i := 0;
    while i < |nodes|
      invariant i <= |nodes| && IsSortOf(sorting, nodes[..i], out)
    {
      assert nodes[..i + 1] == nodes[..i] + [nodes[i]];
      forall n | n in out ensures n.hash != nodes[i].hash {
        assert n in multiset(out);
        assert n in nodes[..i];
      }
      out := Insert(out, nodes[i], sorting);
      i := i + 1;
    }
    assert nodes[..|nodes|] == nodes;
  }

  method Insert(nodes: seq<Node>, n: Node, sorting: Sorting) returns (out: seq<Node>)
    requires SortedBy(sorting, nodes) && forall m :: m in nodes ==> m.hash != n.hash
    ensures SortedBy(sorting, out) && multiset(out) == multiset(nodes) + multiset{n}
  {
    var k := 0;
    while k < |nodes| && Before(sorting, nodes[k], n)
      invariant k <= |nodes| && forall i :: 0 <= i < k ==> Before(sorting, nodes[i], n)
    {
      k := k + 1;
    }
    forall i | k <= i < |nodes| ensures Before(sorting, n, nodes[i]) {
      ExactlyOneFirst(sorting, nodes[k], n);
      if k < i {
        Transitive(sorting, n, nodes[k], nodes[i]);
      }
    }
    InsertedNodes(nodes, k, n);
    out := nodes[..k] + [n] + nodes[k..];
  }

  lemma InsertedNodes(nodes: seq<Node>, k: nat, n: Node)
    requires k <= |nodes|
    ensures multiset(nodes[..k] + [n] + nodes[k..]) == multiset(nodes) + multiset{n}
  {
    assert nodes == nodes[..k] + nodes[k..];
  }

  // ---------------------------------------------------------------------------
  // Pages

  function PaginateSlice(items: seq<Node>, offset: nat, limit: nat): seq<Node> {
    if offset >= |items| then []
    else items[offset..if offset + limit > |items| then |items| else offset + limit]
  }

  /** Where page `n` starts. */
  function Offset(n: nat, limit: nat): nat {
    if n == 0 then 0 else Offset(n - 1, limit) + limit
  }

  /** The first pages, each taken from its own listing. */
  function Pages(listings: seq<seq<Node>>, limit: nat): seq<Node> {
    if listings == [] then []
    else Pages(listings[..|listings| - 1], limit)
         + PaginateSlice(listings[|listings| - 1], Offset(|listings| - 1, limit), limit)
  }

  function Prefix(items: seq<Node>, k: nat): seq<Node> {
    if k > |items| then items else items[..k]
  }

  lemma NextPage(items: seq<Node>, offset: nat, limit: nat)
    ensures Prefix(items, offset) + PaginateSlice(items, offset, limit) == Prefix(items, offset + limit)
  {
  }

  lemma {:induction false} PagesOfOneList(listings: seq<seq<Node>>, limit: nat, items: seq<Node>)
    requires forall i :: 0 <= i < |listings| ==> listings[i] == items
    ensures Pages(listings, limit) == Prefix(items, Offset(|listings|, limit))
    decreases |listings|
  {
    if listings != [] {
      var n := |listings| - 1;
      PagesOfOneList(listings[..n], limit, items);
      NextPage(items, Offset(n, limit), limit);
    }
  }

  /** Every page request sorts the nodes it finds in whatever order; as long as they are
      the same nodes, reading page after page shows every node once, in order. */
  lemma PagingNeverSkipsOrRepeats(sorting: Sorting, nodes: seq<Node>, listings: seq<seq<Node>>, limit: nat, sorted: seq<Node>)
    requires IsSortOf(sorting, nodes, sorted)
    requires forall i :: 0 <= i < |listings| ==> IsSortOf(sorting, nodes, listings[i])
    requires Offset(|listings|, limit) >= |nodes|
    ensures Pages(listings, limit) == sorted && multiset(Pages(listings, limit)) == multiset(nodes)
  {
    forall i | 0 <= i < |listings| ensures listings[i] == sorted {
      SortUnique(sorting, listings[i], sorted);
    }
    PagesOfOneList(listings, limit, sorted);
    assert |sorted| == |multiset(sorted)| == |nodes|;
    assert sorted[..|sorted|] == sorted;
  }
}
