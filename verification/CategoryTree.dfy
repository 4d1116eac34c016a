// The flat list of categories read as a tree: a preorder walk whose siblings are
// sorted, and the path that names a category from its root down.
// Source: apps/app/lib/category-tree.ts.

module CategoryTree {
  import opened LogOrder

  /** A name is the key it collates by; several categories may share one. */
  datatype Category = Category(id: nat, parent: Option<nat>, order: int, name: nat)

  /** Ids are a primary key; parents may be missing, and links may run in circles. */
  predicate DistinctIds(cs: seq<Category>) {
    forall i, j :: 0 <= i < j < |cs| ==> cs[i].id != cs[j].id
  }

  // ---- Siblings ----

  /** `a.sortOrder - b.sortOrder || a.name.localeCompare(b.name)` is not positive. */
  predicate InOrder(a: Category, b: Category) {
    a.order < b.order || (a.order == b.order && a.name <= b.name)
  }

  predicate Sorted(cs: seq<Category>) {
    forall i, j :: 0 <= i < j < |cs| ==> InOrder(cs[i], cs[j])
  }

  /** In front of the first that it does not come after, so equals keep their order. */
  function Insert(c: Category, cs: seq<Category>): (r: seq<Category>)
    ensures forall x :: x in r <==> x == c || x in cs
  {
    if cs == [] || InOrder(c, cs[0]) then [c] + cs else [cs[0]] + Insert(c, cs[1..])
  }

  lemma {:induction false} InsertKeepsOrder(c: Category, cs: seq<Category>)
    requires Sorted(cs)
    ensures Sorted(Insert(c, cs)) && multiset(Insert(c, cs)) == multiset(cs) + multiset{c}
  {
    if cs != [] && !InOrder(c, cs[0]) {
      assert cs == [cs[0]] + cs[1..];
      InsertKeepsOrder(c, cs[1..]);
      forall x | x in Insert(c, cs[1..]) ensures InOrder(cs[0], x) {
        if x != c { var i :| 1 <= i < |cs| && cs[i] == x; }
      }
      InFront(cs[0], Insert(c, cs[1..]));
    } else if cs != [] {
      forall x | x in cs ensures InOrder(c, x) {
        var i :| 0 <= i < |cs| && cs[i] == x;
        assert i > 0 ==> InOrder(cs[0], cs[i]);
      }
      InFront(c, cs);
    }
  }

  lemma InFront(c: Category, cs: seq<Category>)
    requires Sorted(cs) && forall x :: x in cs ==> InOrder(c, x)
    ensures Sorted([c] + cs)
  {
  }

  /** The array sort: stable, and only a rearrangement. */
  function SortedOf(cs: seq<Category>): (r: seq<Category>)
    ensures forall x :: x in r <==> x in cs
  {
    if cs == [] then [] else Insert(cs[0], SortedOf(cs[1..]))
  }

  lemma {:induction false} SortSorts(cs: seq<Category>)
    ensures Sorted(SortedOf(cs)) && multiset(SortedOf(cs)) == multiset(cs)
  {
    if cs != [] {
      assert cs == [cs[0]] + cs[1..];
      SortSorts(cs[1..]);
      InsertKeepsOrder(cs[0], SortedOf(cs[1..]));
    }
  }

  function ChildrenOf(cs: seq<Category>, parent: Option<nat>): (r: seq<Category>)
    ensures forall c :: c in r <==> c in cs && c.parent == parent
  {
    if cs == [] then []
    else
      var before := ChildrenOf(cs[..|cs| - 1], parent);
      if cs[|cs| - 1].parent == parent then before + [cs[|cs| - 1]] else before
  }

  function Siblings(cs: seq<Category>, parent: Option<nat>): (r: seq<Category>)
    ensures forall c :: c in r <==> c in cs && c.parent == parent
  {
    SortedOf(ChildrenOf(cs, parent))
  }

  // ---- Chains of parents ----

  predicate Has(cs: seq<Category>, id: nat, parent: Option<nat>) {
    exists c :: c in cs && c.id == id && c.parent == parent
  }

  function Above(path: seq<nat>, i: nat): Option<nat>
    requires i <= |path|
  {
    if i == 0 then None else Some(path[i - 1])
  }

  predicate Linked(cs: seq<Category>, path: seq<nat>, i: nat)
    requires i < |path|
  {
    Has(cs, path[i], Above(path, i))
  }

  /** Ids from a root down, each the parent of the next. */
  predicate IsPath(cs: seq<Category>, path: seq<nat>) {
    forall i: nat :: i < |path| ==> Linked(cs, path, i)
  }

  ghost predicate Leads(cs: seq<Category>, path: seq<nat>, id: nat) {
    path != [] && path[|path| - 1] == id && IsPath(cs, path)
  }

  /** Its parents reach a root. */
  ghost predicate Rooted(cs: seq<Category>, id: nat) {
    exists path :: Leads(cs, path, id)
  }

  lemma OneCategory(cs: seq<Category>, a: Category, b: Category)
    requires DistinctIds(cs) && a in cs && b in cs && a.id == b.id
    ensures a == b
  {
  }

  /** A category has one chain at most: ids are distinct, so each has one parent. */
  lemma {:induction false} OneChain(cs: seq<Category>, p: seq<nat>, q: seq<nat>, id: nat)
    requires DistinctIds(cs) && Leads(cs, p, id) && Leads(cs, q, id)
    ensures p == q
    decreases |p|
  {
    var p', q' := p[..|p| - 1], q[..|q| - 1];
    assert Linked(cs, p, |p| - 1) && Linked(cs, q, |q| - 1);
    var a :| a in cs && a.id == id && a.parent == Above(p, |p| - 1);
    var b :| b in cs && b.id == id && b.parent == Above(q, |q| - 1);
    OneCategory(cs, a, b);
    if p' != [] {
      assert Leads(cs, p', p'[|p'| - 1]) by { PrefixIsPath(cs, p, |p'|); }
      assert Leads(cs, q', p'[|p'| - 1]) by { PrefixIsPath(cs, q, |q'|); }
      OneChain(cs, p', q', p'[|p'| - 1]);
    }
    assert p == p' + [id] && q == q' + [id];
  }

  lemma PrefixIsPath(cs: seq<Category>, path: seq<nat>, n: nat)
    requires IsPath(cs, path) && n <= |path|
    ensures IsPath(cs, path[..n])
  {
    forall i: nat | i < n ensures Linked(cs, path[..n], i) {
      assert Linked(cs, path, i);
    }
  }

  /** So a chain never comes back to an id, and is no longer than the list. */
  lemma ChainsAreShort(cs: seq<Category>, path: seq<nat>)
    requires DistinctIds(cs) && IsPath(cs, path)
    ensures |path| <= |cs|
  {
    forall i: nat, j: nat | i < j < |path| ensures path[i] != path[j] {
      if path[i] == path[j] {
        PrefixIsPath(cs, path, i + 1);
        PrefixIsPath(cs, path, j + 1);
        OneChain(cs, path[..i + 1], path[..j + 1], path[i]);
      }
    }
    var ids := set c | c in cs :: c.id;
    assert forall x :: x in path ==> x in ids by {
      forall x | x in path ensures x in ids {
        var i: nat :| i < |path| && path[i] == x;
        assert Linked(cs, path, i);
      }
    }
    DistinctFit(path, ids);
    FewIds(cs);
  }

  lemma {:induction false} DistinctFit(path: seq<nat>, ids: set<nat>)
    requires (forall i, j :: 0 <= i < j < |path| ==> path[i] != path[j]) && forall x :: x in path ==> x in ids
    ensures |path| <= |ids|
  {
    if path != [] {
      var last := path[|path| - 1];
      DistinctFit(path[..|path| - 1], ids - {last});
    }
  }

  lemma {:induction false} FewIds(cs: seq<Category>)
    ensures |set c | c in cs :: c.id| <= |cs|
  {
    if cs != [] {
      FewIds(cs[1..]);
      assert (set c | c in cs :: c.id) == (set c | c in cs[1..] :: c.id) + {cs[0].id};
    }
  }

  lemma ChildIsPath(cs: seq<Category>, path: seq<nat>, c: Category)
    requires IsPath(cs, path) && c in cs && c.parent == Above(path, |path|)
    ensures IsPath(cs, path + [c.id])
  {
    var longer := path + [c.id];
    forall i: nat | i < |longer| ensures Linked(cs, longer, i) {
      if i < |path| { assert Linked(cs, path, i); }
    }
  }

  // ---- The reading order ----

  /** Everything below the end of a path. */
  function Listing(cs: seq<Category>, path: seq<nat>): seq<Category>
    requires DistinctIds(cs) && IsPath(cs, path)
    decreases |cs| - |path|, 1, 0
  {
    Forest(cs, path, Siblings(cs, Above(path, |path|)))
  }

  /** Each of some siblings, followed by everything below it. */
  function Forest(cs: seq<Category>, path: seq<nat>, siblings: seq<Category>): seq<Category>
    requires DistinctIds(cs) && IsPath(cs, path)
    requires forall c :: c in siblings ==> c in cs && c.parent == Above(path, |path|)
    decreases |cs| - |path|, 0, |siblings|
  {
    if siblings == [] then []
    else
      var c := siblings[0];
      ChildIsPath(cs, path, c);
      ChainsAreShort(cs, path + [c.id]);
      [c] + Listing(cs, path + [c.id]) + Forest(cs, path, siblings[1..])
  }

  // ---- What the listing holds ----

  /** A category whose chain passes through this path, or ends there. */
  ghost predicate Through(cs: seq<Category>, path: seq<nat>, x: Category) {
    x in cs && exists q :: Leads(cs, q, x.id) && path <= q
  }

  ghost predicate Below(cs: seq<Category>, path: seq<nat>, x: Category) {
    x in cs && exists q :: Leads(cs, q, x.id) && path < q
  }

  ghost predicate UnderOne(cs: seq<Category>, path: seq<nat>, siblings: seq<Category>, x: Category) {
    exists c :: c in siblings && Through(cs, path + [c.id], x)
  }

  predicate AreChildren(cs: seq<Category>, path: seq<nat>, siblings: seq<Category>) {
    forall c :: c in siblings ==> c in cs && c.parent == Above(path, |path|)
  }

  lemma {:induction false} ListingHolds(cs: seq<Category>, path: seq<nat>)
    requires DistinctIds(cs) && IsPath(cs, path)
    ensures forall x :: x in Listing(cs, path) <==> Below(cs, path, x)
    decreases |cs| - |path|, 1, 0
  {
    var siblings := Siblings(cs, Above(path, |path|));
    ForestHolds(cs, path, siblings);
    forall x ensures UnderOne(cs, path, siblings, x) <==> Below(cs, path, x) {
      if UnderOne(cs, path, siblings, x) {
        var c :| c in siblings && Through(cs, path + [c.id], x);
        var q :| Leads(cs, q, x.id) && path + [c.id] <= q;
        assert path < q;
      }
      if Below(cs, path, x) {
        var q :| Leads(cs, q, x.id) && path < q;
        assert Linked(cs, q, |path|);
        var c :| c in cs && c.id == q[|path|] && c.parent == Above(q, |path|);
        assert c in siblings && path + [c.id] <= q;
      }
    }
  }

  lemma {:induction false} ForestHolds(cs: seq<Category>, path: seq<nat>, siblings: seq<Category>)
    requires DistinctIds(cs) && IsPath(cs, path) && AreChildren(cs, path, siblings)
    ensures forall x :: x in Forest(cs, path, siblings) <==> UnderOne(cs, path, siblings, x)
    decreases |cs| - |path|, 0, |siblings|
  {
    if siblings != [] {
      var c, rest := siblings[0], siblings[1..];
      ChildIsPath(cs, path, c);
      ChainsAreShort(cs, path + [c.id]);
      ListingHolds(cs, path + [c.id]);
      ForestHolds(cs, path, rest);
      forall x ensures x in Forest(cs, path, siblings) <==> UnderOne(cs, path, siblings, x) {
        ThroughSplits(cs, path, c, x);
        assert UnderOne(cs, path, siblings, x) <==> Through(cs, path + [c.id], x) || UnderOne(cs, path, rest, x);
      }
    }
  }

  /** A chain through a child ends at the child or goes below it. */
  lemma ThroughSplits(cs: seq<Category>, path: seq<nat>, c: Category, x: Category)
    requires DistinctIds(cs) && IsPath(cs, path + [c.id]) && c in cs
    ensures Through(cs, path + [c.id], x) <==> x == c || Below(cs, path + [c.id], x)
  {
    var p := path + [c.id];
    assert Leads(cs, p, c.id);
    if Through(cs, p, x) && x != c {
      var q :| Leads(cs, q, x.id) && p <= q;
      if p == q { OneCategory(cs, x, c); }
    }
  }

  /** Nothing is both at or through one child and through another, or through a path's own end. */
  lemma ChainsPart(cs: seq<Category>, p: seq<nat>, q: seq<nat>, x: Category)
    requires DistinctIds(cs) && Through(cs, p, x) && Through(cs, q, x)
    ensures p <= q || q <= p
  {
    var r :| Leads(cs, r, x.id) && p <= r;
    var r' :| Leads(cs, r', x.id) && q <= r';
    OneChain(cs, r, r', x.id);
  }

  // ---- Exactly once ----

  lemma {:induction false} ListingRepeatsNothing(cs: seq<Category>, path: seq<nat>)
    requires DistinctIds(cs) && IsPath(cs, path)
    ensures DistinctIds(Listing(cs, path))
    decreases |cs| - |path|, 1, 0
  {
    SiblingsAreDistinct(cs, Above(path, |path|));
    ForestRepeatsNothing(cs, path, Siblings(cs, Above(path, |path|)));
  }

  lemma {:induction false} ForestRepeatsNothing(cs: seq<Category>, path: seq<nat>, siblings: seq<Category>)
    requires DistinctIds(cs) && IsPath(cs, path) && AreChildren(cs, path, siblings) && DistinctIds(siblings)
    ensures DistinctIds(Forest(cs, path, siblings))
    decreases |cs| - |path|, 0, |siblings|
  {
    if siblings != [] {
      var c, rest := siblings[0], siblings[1..];
      ChildIsPath(cs, path, c);
      ChainsAreShort(cs, path + [c.id]);
      ListingRepeatsNothing(cs, path + [c.id]);
      ForestRepeatsNothing(cs, path, rest);
      PartsAreDisjoint(cs, path, c, rest);
      DistinctApart([c], Listing(cs, path + [c.id]));
      DistinctApart([c] + Listing(cs, path + [c.id]), Forest(cs, path, rest));
    }
  }

  lemma DistinctApart(a: seq<Category>, b: seq<Category>)
    requires DistinctIds(a) && DistinctIds(b) && forall x, y :: x in a && y in b ==> x.id != y.id
    ensures DistinctIds(a + b)
  {
  }

  /** A child, what is below it, and what its later siblings bring have no id in common. */
  lemma PartsAreDisjoint(cs: seq<Category>, path: seq<nat>, c: Category, rest: seq<Category>)
    requires DistinctIds(cs) && IsPath(cs, path) && IsPath(cs, path + [c.id]) && AreChildren(cs, path, [c] + rest)
    requires DistinctIds([c] + rest)
    ensures forall x, y :: x in [c] && y in Listing(cs, path + [c.id]) ==> x.id != y.id
    ensures forall x, y :: x in [c] + Listing(cs, path + [c.id]) && y in Forest(cs, path, rest) ==> x.id != y.id
  {
    NotBelowOneself(cs, path, c);
    assert AreChildren(cs, path, rest) && c in cs by {
      assert c in [c] + rest && forall r :: r in rest ==> r in [c] + rest;
    }
    BesideIsApart(cs, path, c, rest);
  }

  lemma NotBelowOneself(cs: seq<Category>, path: seq<nat>, c: Category)
    requires DistinctIds(cs) && IsPath(cs, path + [c.id])
    ensures forall y :: y in Listing(cs, path + [c.id]) ==> c.id != y.id
  {
    var p := path + [c.id];
    ListingHolds(cs, p);
    hide Listing, IsPath;
    forall y | y in Listing(cs, p) ensures c.id != y.id {
      var q :| Leads(cs, q, y.id) && p < q;
      assert Leads(cs, p, c.id) by { PathLeads(cs, path, c.id); }
      if c.id == y.id { OneChain(cs, p, q, c.id); }
    }
  }

  lemma PathLeads(cs: seq<Category>, path: seq<nat>, id: nat)
    requires IsPath(cs, path + [id])
    ensures Leads(cs, path + [id], id)
  {
  }

  lemma BesideIsApart(cs: seq<Category>, path: seq<nat>, c: Category, rest: seq<Category>)
    requires DistinctIds(cs) && IsPath(cs, path) && IsPath(cs, path + [c.id]) && c in cs && AreChildren(cs, path, rest)
    requires DistinctIds([c] + rest)
    ensures forall x, y :: x in [c] + Listing(cs, path + [c.id]) && y in Forest(cs, path, rest) ==> x.id != y.id
  {
    var p := path + [c.id];
    ListingHolds(cs, p);
    ForestHolds(cs, path, rest);
    hide Listing, Forest, Through, AreChildren, IsPath;
    forall x, y | x in [c] + Listing(cs, p) && y in Forest(cs, path, rest) ensures x.id != y.id {
      ThroughSplits(cs, path, c, x);
      var d :| d in rest && Through(cs, path + [d.id], y);
      var j :| 0 <= j < |rest| && rest[j] == d;
      assert ([c] + rest)[0].id != ([c] + rest)[j + 1].id;
      ThroughOneChild(cs, path, c.id, d.id, x, y);
    }
  }

  /** Through different children pass different categories. */
  lemma ThroughOneChild(cs: seq<Category>, path: seq<nat>, c: nat, d: nat, x: Category, y: Category)
    requires DistinctIds(cs) && c != d && Through(cs, path + [c], x) && Through(cs, path + [d], y)
    ensures x.id != y.id
  {
    if x.id == y.id {
      OneCategory(cs, x, y);
      assert (path + [c])[|path|] != (path + [d])[|path|];
      ChainsPart(cs, path + [c], path + [d], x);
    }
  }

  lemma {:induction false} ChildrenAreDistinct(cs: seq<Category>, parent: Option<nat>)
    requires DistinctIds(cs)
    ensures DistinctIds(ChildrenOf(cs, parent))
  {
    if cs != [] {
      ChildrenAreDistinct(cs[..|cs| - 1], parent);
      var before := ChildrenOf(cs[..|cs| - 1], parent);
      forall c | c in before ensures c.id != cs[|cs| - 1].id {
        var i :| 0 <= i < |cs| - 1 && cs[i] == c;
      }
    }
  }

  lemma {:induction false} SortKeepsDistinct(cs: seq<Category>)
    requires DistinctIds(cs)
    ensures DistinctIds(SortedOf(cs))
  {
    if cs != [] {
      SortKeepsDistinct(cs[1..]);
      InsertKeepsDistinct(cs[0], SortedOf(cs[1..]));
    }
  }

  lemma {:induction false} InsertKeepsDistinct(c: Category, cs: seq<Category>)
    requires DistinctIds(cs) && forall x :: x in cs ==> x.id != c.id
    ensures DistinctIds(Insert(c, cs))
  {
    if cs != [] {
      InsertKeepsDistinct(c, cs[1..]);
      forall x | x in cs[1..] ensures x.id != cs[0].id {
        var i :| 1 <= i < |cs| && cs[i] == x;
      }
    }
  }

  lemma SiblingsAreDistinct(cs: seq<Category>, parent: Option<nat>)
    requires DistinctIds(cs)
    ensures DistinctIds(Siblings(cs, parent))
  {
    ChildrenAreDistinct(cs, parent);
    SortKeepsDistinct(ChildrenOf(cs, parent));
  }

  /** Each category whose parents reach a root, once; no other, however its links run. */
  lemma EachRootedCategoryOnce(cs: seq<Category>)
    requires DistinctIds(cs)
    ensures forall x :: x in Listing(cs, []) <==> x in cs && Rooted(cs, x.id)
    ensures DistinctIds(Listing(cs, []))
  {
    ListingHolds(cs, []);
    ListingRepeatsNothing(cs, []);
    forall x ensures Below(cs, [], x) <==> x in cs && Rooted(cs, x.id) {
      if x in cs && Rooted(cs, x.id) {
        var q :| Leads(cs, q, x.id);
        assert [] < q;
      }
    }
  }

  // ---- In preorder ----

  /** In this stretch, each category is a child of the path's end, or follows its parent with only that parent's descendants between. */
  ghost predicate Preorder(cs: seq<Category>, out: seq<Category>, top: Option<nat>) {
    forall i: nat :: i < |out| ==> out[i].parent == top || exists j: nat :: j < i && ParentAt(cs, out, j, i)
  }

  ghost predicate ParentAt(cs: seq<Category>, out: seq<Category>, j: nat, i: nat)
    requires j < i < |out|
  {
    out[i].parent == Some(out[j].id) && forall k: nat :: j < k <= i ==> Descends(cs, out[k], out[j].id)
  }

  ghost predicate Descends(cs: seq<Category>, x: Category, id: nat) {
    exists path :: Leads(cs, path, id) && Below(cs, path, x)
  }

  lemma ParentShifts(cs: seq<Category>, out: seq<Category>, part: seq<Category>, n: nat, j: nat, i: nat)
    requires j < i < |part| && n + |part| <= |out| && part == out[n..n + |part|] && ParentAt(cs, part, j, i)
    ensures ParentAt(cs, out, n + j, n + i)
  {
    forall k: nat | n + j < k <= n + i ensures Descends(cs, out[k], out[n + j].id) {
      assert out[k] == part[k - n];
    }
  }

  /** A stretch under one heading, and a stretch beside it. */
  lemma PreorderJoins(cs: seq<Category>, c: Category, under: seq<Category>, beside: seq<Category>, top: Option<nat>)
    requires c.parent == top && Preorder(cs, under, Some(c.id)) && Preorder(cs, beside, top)
    requires forall x :: x in under ==> Descends(cs, x, c.id)
    ensures Preorder(cs, [c] + under + beside, top)
  {
    var out := [c] + under + beside;
    forall i: nat | i < |out| && out[i].parent != top ensures exists j: nat :: j < i && ParentAt(cs, out, j, i) {
      if i <= |under| { UnderJoins(cs, c, under, beside, i); } else { BesideJoins(cs, [c] + under, beside, top, i); }
    }
  }

  lemma UnderJoins(cs: seq<Category>, c: Category, under: seq<Category>, beside: seq<Category>, i: nat)
    requires Preorder(cs, under, Some(c.id)) && (forall x :: x in under ==> Descends(cs, x, c.id)) && 0 < i <= |under|
    ensures exists j: nat :: j < i && ParentAt(cs, [c] + under + beside, j, i)
  {
    hide Descends;
    var out := [c] + under + beside;
    assert out[1..1 + |under|] == under && out[i] == under[i - 1];
    if under[i - 1].parent == Some(c.id) {
      forall k: nat | 0 < k <= i ensures Descends(cs, out[k], c.id) {
        assert out[k] == under[k - 1];
      }
      assert ParentAt(cs, out, 0, i);
    } else {
      var j: nat :| j < i - 1 && ParentAt(cs, under, j, i - 1);
      ParentShifts(cs, out, under, 1, j, i - 1);
    }
  }

  lemma BesideJoins(cs: seq<Category>, before: seq<Category>, beside: seq<Category>, top: Option<nat>, i: nat)
    requires Preorder(cs, beside, top) && |before| <= i < |before + beside| && (before + beside)[i].parent != top
    ensures exists j: nat :: j < i && ParentAt(cs, before + beside, j, i)
  {
    hide Descends;
    var n := |before|;
    var out := before + beside;
    assert out[n..n + |beside|] == beside && out[i] == beside[i - n];
    var j: nat :| j < i - n && ParentAt(cs, beside, j, i - n);
    ParentShifts(cs, out, beside, n, j, i - n);
  }

  lemma {:induction false} ListingIsPreorder(cs: seq<Category>, path: seq<nat>)
    requires DistinctIds(cs) && IsPath(cs, path)
    ensures Preorder(cs, Listing(cs, path), Above(path, |path|))
    decreases |cs| - |path|, 1, 0
  {
    ForestIsPreorder(cs, path, Siblings(cs, Above(path, |path|)));
  }

  lemma {:induction false} ForestIsPreorder(cs: seq<Category>, path: seq<nat>, siblings: seq<Category>)
    requires DistinctIds(cs) && IsPath(cs, path) && AreChildren(cs, path, siblings)
    ensures Preorder(cs, Forest(cs, path, siblings), Above(path, |path|))
    decreases |cs| - |path|, 0, |siblings|
  {
    if siblings != [] {
      var c, rest := siblings[0], siblings[1..];
      var p := path + [c.id];
      ChildIsPath(cs, path, c);
      ChainsAreShort(cs, p);
      ListingIsPreorder(cs, p);
      ForestIsPreorder(cs, path, rest);
      ListingHolds(cs, p);
      assert Leads(cs, p, c.id);
      PreorderJoins(cs, c, Listing(cs, p), Forest(cs, path, rest), Above(path, |path|));
    }
  }

  // ---- Siblings in order ----

  lemma {:induction false} ChildrenOfBoth(a: seq<Category>, b: seq<Category>, parent: Option<nat>)
    ensures ChildrenOf(a + b, parent) == ChildrenOf(a, parent) + ChildrenOf(b, parent)
  {
    if b == [] {
      assert a + b == a;
    } else {
      ChildrenOfBoth(a, b[..|b| - 1], parent);
      assert (a + b)[..|a + b| - 1] == a + b[..|b| - 1];
    }
  }

  lemma {:induction false} NoChildren(cs: seq<Category>, parent: Option<nat>)
    requires forall c :: c in cs ==> c.parent != parent
    ensures ChildrenOf(cs, parent) == []
  {
    if cs != [] { NoChildren(cs[..|cs| - 1], parent); }
  }

  /** Whatever a forest holds is a child of the path's end or of something in the forest. */
  lemma NoStrangers(cs: seq<Category>, out: seq<Category>, top: Option<nat>, parent: Option<nat>)
    requires Preorder(cs, out, top) && parent != top && forall x :: x in out ==> parent != Some(x.id)
    ensures ChildrenOf(out, parent) == []
  {
    forall c | c in out ensures c.parent != parent {
      var i: nat :| i < |out| && out[i] == c;
      if c.parent != top {
        var j: nat :| j < i && ParentAt(cs, out, j, i);
        assert out[j] in out;
      }
    }
    NoChildren(out, parent);
  }

  predicate Contains(out: seq<Category>, parent: Option<nat>) {
    exists x :: x in out && parent == Some(x.id)
  }

  lemma {:induction false} ListingKeepsSiblings(cs: seq<Category>, path: seq<nat>, parent: Option<nat>)
    requires DistinctIds(cs) && IsPath(cs, path)
    ensures parent == Above(path, |path|) || Contains(Listing(cs, path), parent) ==>
              ChildrenOf(Listing(cs, path), parent) == Siblings(cs, parent)
    decreases |cs| - |path|, 1, 0
  {
    SiblingsAreDistinct(cs, Above(path, |path|));
    ForestKeepsSiblings(cs, path, Siblings(cs, Above(path, |path|)), parent);
  }

  lemma {:induction false} ForestKeepsSiblings(cs: seq<Category>, path: seq<nat>, siblings: seq<Category>, parent: Option<nat>)
    requires DistinctIds(cs) && IsPath(cs, path) && AreChildren(cs, path, siblings) && DistinctIds(siblings)
    ensures parent == Above(path, |path|) ==> ChildrenOf(Forest(cs, path, siblings), parent) == siblings
    ensures parent != Above(path, |path|) && Contains(Forest(cs, path, siblings), parent) ==>
              ChildrenOf(Forest(cs, path, siblings), parent) == Siblings(cs, parent)
    decreases |cs| - |path|, 0, |siblings|
  {
    if siblings != [] {
      var c, rest := siblings[0], siblings[1..];
      var p := path + [c.id];
      ChildIsPath(cs, path, c);
      ChainsAreShort(cs, p);
      var under, beside := Listing(cs, p), Forest(cs, path, rest);
      ListingKeepsSiblings(cs, p, parent);
      ForestKeepsSiblings(cs, path, rest, parent);
      ListingIsPreorder(cs, p);
      ForestIsPreorder(cs, path, rest);
      assert siblings == [c] + rest;
      PartsAreDisjoint(cs, path, c, rest);
      NotBelowItself(cs, path, c, rest);
      assert Forest(cs, path, siblings) == [c] + under + beside;
      PartsKeepSiblings(cs, c, rest, under, beside, Above(path, |path|), parent);
    }
  }

  lemma PartsKeepSiblings(cs: seq<Category>, c: Category, rest: seq<Category>, under: seq<Category>, beside: seq<Category>,
                          top: Option<nat>, parent: Option<nat>)
    requires c.parent == top && top != Some(c.id) && !Contains(under, top) && !Contains(beside, top)
    requires Preorder(cs, under, Some(c.id)) && Preorder(cs, beside, top)
    requires forall x, y :: x in [c] && y in under ==> x.id != y.id
    requires forall x, y :: x in [c] + under && y in beside ==> x.id != y.id
    requires parent == Some(c.id) || Contains(under, parent) ==> ChildrenOf(under, parent) == Siblings(cs, parent)
    requires parent == top ==> ChildrenOf(beside, parent) == rest
    requires parent != top && Contains(beside, parent) ==> ChildrenOf(beside, parent) == Siblings(cs, parent)
    ensures parent == top ==> ChildrenOf([c] + under + beside, parent) == [c] + rest
    ensures parent != top && Contains([c] + under + beside, parent) ==> ChildrenOf([c] + under + beside, parent) == Siblings(cs, parent)
  {
    hide Preorder, Siblings, ChildrenOf;
    ChildrenOfBoth([c], under, parent);
    ChildrenOfBoth([c] + under, beside, parent);
    ChildrenOfOne(c, parent);
    assert c in [c] + under;
    if parent == top {
      NoStrangers(cs, under, Some(c.id), parent);
    } else if parent == Some(c.id) {
      NoStrangers(cs, beside, top, parent);
    } else if Contains(under, parent) {
      var x :| x in under && parent == Some(x.id);
      assert x in [c] + under;
      NoStrangers(cs, beside, top, parent);
    } else {
      NoStrangers(cs, under, Some(c.id), parent);
    }
  }

  lemma ChildrenOfOne(c: Category, parent: Option<nat>)
    ensures ChildrenOf([c], parent) == if c.parent == parent then [c] else []
  {
    assert [c][..0] == [];
  }

  /** The end of a path is neither a child of it nor below one. */
  lemma NotBelowItself(cs: seq<Category>, path: seq<nat>, c: Category, rest: seq<Category>)
    requires DistinctIds(cs) && IsPath(cs, path) && IsPath(cs, path + [c.id]) && AreChildren(cs, path, [c] + rest)
    ensures Above(path, |path|) != Some(c.id) && !Contains(Listing(cs, path + [c.id]), Above(path, |path|))
    ensures AreChildren(cs, path, rest) && !Contains(Forest(cs, path, rest), Above(path, |path|))
  {
    assert AreChildren(cs, path, rest) by { assert forall r :: r in rest ==> r in [c] + rest; }
    ListingHolds(cs, path + [c.id]);
    ForestHolds(cs, path, rest);
    if path != [] { EndIsPassed(cs, path, path + [c.id], c.id); }
    hide Listing, Forest, IsPath, DistinctIds, AreChildren;
    forall x | path != [] && x in Listing(cs, path + [c.id]) ensures x.id != path[|path| - 1] {
      var q :| Leads(cs, q, x.id) && path + [c.id] < q;
      EndIsPassed(cs, path, q, x.id);
    }
    forall x | path != [] && x in Forest(cs, path, rest) ensures x.id != path[|path| - 1] {
      var d :| d in rest && Through(cs, path + [d.id], x);
      var q :| Leads(cs, q, x.id) && path + [d.id] <= q;
      EndIsPassed(cs, path, q, x.id);
    }
  }

  /** A longer chain ends elsewhere. */
  lemma EndIsPassed(cs: seq<Category>, path: seq<nat>, q: seq<nat>, id: nat)
    requires DistinctIds(cs) && path != [] && IsPath(cs, path) && q != [] && q[|q| - 1] == id && IsPath(cs, q) && path < q
    ensures id != path[|path| - 1]
  {
    if id == path[|path| - 1] { OneChain(cs, path, q, id); }
  }

  /** The reading order: preorder, and under every parent listed, all its children, sorted. */
  lemma ReadsInTreeOrder(cs: seq<Category>, parent: Option<nat>)
    requires DistinctIds(cs) && (parent.None? || Contains(Listing(cs, []), parent))
    ensures Preorder(cs, Listing(cs, []), None)
    ensures ChildrenOf(Listing(cs, []), parent) == Siblings(cs, parent)
    ensures Sorted(Siblings(cs, parent)) && multiset(Siblings(cs, parent)) == multiset(ChildrenOf(cs, parent))
  {
    ListingIsPreorder(cs, []);
    ListingKeepsSiblings(cs, [], parent);
    SortSorts(ChildrenOf(cs, parent));
  }

  // ---- The path of a category ----

  type ById = map<nat, Category>

  /** Walking up from here ends, at a root or a missing parent, within so many steps. */
  predicate Ends(byId: ById, parent: Option<nat>, steps: nat)
    decreases steps
  {
    parent.None? || parent.value !in byId || (steps > 0 && Ends(byId, byId[parent.value].parent, steps - 1))
  }

  /** The names walked over, the furthest up first. */
  function NamesAbove(byId: ById, parent: Option<nat>, steps: nat): seq<nat>
    requires Ends(byId, parent, steps)
    decreases steps
  {
    if parent.None? || parent.value !in byId then []
    else NamesAbove(byId, byId[parent.value].parent, steps - 1) + [byId[parent.value].name]
  }

  predicate Indexes(cs: seq<Category>, byId: ById) {
    forall c :: c in cs ==> c.id in byId && byId[c.id] == c
  }

  function NamesAlong(byId: ById, path: seq<nat>): seq<nat>
    requires forall id :: id in path ==> id in byId
  {
    seq(|path|, i requires 0 <= i < |path| => byId[path[i]].name)
  }

  /** Every listed category has a path, and it spells the chain from its root down. */
  lemma {:induction false} ListedCategoriesHavePaths(cs: seq<Category>, byId: ById, path: seq<nat>, c: Category)
    requires DistinctIds(cs) && Indexes(cs, byId) && c in cs && Leads(cs, path, c.id)
    ensures Ends(byId, c.parent, |path| - 1) && (forall id :: id in path ==> id in byId)
    ensures NamesAbove(byId, c.parent, |path| - 1) + [c.name] == NamesAlong(byId, path)
    decreases |path|
  {
    var n := |path| - 1;
    assert Linked(cs, path, n);
    var a :| a in cs && a.id == c.id && a.parent == Above(path, n);
    OneCategory(cs, a, c);
    if n > 0 {
      var up := path[..n];
      PrefixIsPath(cs, path, n);
      assert Linked(cs, up, n - 1);
      var parent :| parent in cs && parent.id == up[n - 1] && parent.parent == Above(up, n - 1);
      assert Leads(cs, up, parent.id);
      ListedCategoriesHavePaths(cs, byId, up, parent);
      assert path == up + [c.id];
      assert NamesAlong(byId, path) == NamesAlong(byId, up) + [c.name];
    } else {
      assert path == [c.id];
    }
  }

  ghost predicate EndsSometime(byId: ById, parent: Option<nat>) {
    exists steps: nat :: Ends(byId, parent, steps)
  }

  /** Categories whose parents are all among them: somewhere they go round in a circle. */
  predicate Circle(byId: ById, circle: set<nat>) {
    forall x :: x in circle ==> x in byId && byId[x].parent.Some? && byId[x].parent.value in circle
  }

  lemma {:induction false} CirclesNeverEnd(byId: ById, circle: set<nat>, id: nat, steps: nat)
    requires id in circle && Circle(byId, circle)
    ensures !Ends(byId, Some(id), steps)
    decreases steps
  {
    if steps > 0 { CirclesNeverEnd(byId, circle, byId[id].parent.value, steps - 1); }
  }

  lemma OneStepMore(byId: ById, id: nat)
    requires id in byId && EndsSometime(byId, byId[id].parent)
    ensures EndsSometime(byId, Some(id))
  {
    var steps: nat :| Ends(byId, byId[id].parent, steps);
    assert Ends(byId, Some(id), steps + 1);
  }

  /** The categories from which the walk does not end. */
  ghost function Endless(byId: ById): set<nat> {
    set x | x in byId && !EndsSometime(byId, Some(x))
  }

  lemma EndlessIsACircle(byId: ById)
    ensures Circle(byId, Endless(byId))
  {
    forall x | x in Endless(byId) ensures byId[x].parent.Some? && byId[x].parent.value in Endless(byId) {
      assert Ends(byId, None, 0);
      if byId[x].parent.Some? && byId[x].parent.value !in byId { assert Ends(byId, byId[x].parent, 0); }
      if EndsSometime(byId, byId[x].parent) { OneStepMore(byId, x); }
    }
  }

  lemma NoCircleFrom(byId: ById, id: nat, circle: set<nat>)
    requires EndsSometime(byId, Some(id)) && id in circle
    ensures !Circle(byId, circle)
  {
    var steps: nat :| Ends(byId, Some(id), steps);
    if Circle(byId, circle) { CirclesNeverEnd(byId, circle, id, steps); }
  }

  /** Exactly when the walk ends: when its first parent belongs to no set of categories whose parents are all in it. */
  lemma PathEndsIff(byId: ById, parent: Option<nat>)
    ensures EndsSometime(byId, parent) <==> !(parent.Some? && exists circle: set<nat> :: parent.value in circle && Circle(byId, circle))
  {
    assert parent.None? || parent.value !in byId ==> Ends(byId, parent, 0);
    if EndsSometime(byId, parent) {
      forall circle: set<nat> | parent.Some? && parent.value in circle ensures !Circle(byId, circle) {
        NoCircleFrom(byId, parent.value, circle);
      }
    } else {
      EndlessIsACircle(byId);
    }
  }

  /** Two categories that are each other's parents: no walk from either ends, and the reading order holds neither. */
  lemma TwoInACircle(a: Category, b: Category, steps: nat)
    requires a.id != b.id && a.parent == Some(b.id) && b.parent == Some(a.id)
    ensures !Ends(map[a.id := a, b.id := b], a.parent, steps)
    ensures DistinctIds([a, b]) && Listing([a, b], []) == []
  {
    CirclesNeverEnd(map[a.id := a, b.id := b], {a.id, b.id}, b.id, steps);
    NoChildren([a, b], None);
  }

  /** `categoryPath`: up the parents, each name put in front; `steps` is a bound the walk keeps, if there is one. */
  method CategoryPath(c: Category, byId: ById, ghost steps: nat) returns (names: seq<nat>)
    requires Ends(byId, c.parent, steps)
    ensures names == NamesAbove(byId, c.parent, steps) + [c.name]
  {
    names := [c.name];
    var parent := c.parent;
    ghost var left := steps;
    while parent.Some?
      invariant Ends(byId, parent, left)
      invariant NamesAbove(byId, c.parent, steps) + [c.name] == NamesAbove(byId, parent, left) + names
      decreases left, parent.Some?
    {
      if parent.value !in byId { break; }
      var found := byId[parent.value];
      names := [found.name] + names;
      parent := found.parent;
      left := left - 1;
    }
  }

  // ---- The code ----

  lemma ForestStarts(cs: seq<Category>, path: seq<nat>, siblings: seq<Category>)
    requires DistinctIds(cs) && IsPath(cs, path) && AreChildren(cs, path, siblings) && siblings != []
    ensures var c := siblings[0];
            && IsPath(cs, path + [c.id]) && |path + [c.id]| <= |cs|
            && Forest(cs, path, siblings) == [c] + Listing(cs, path + [c.id]) + Forest(cs, path, siblings[1..])
  {
    ChildIsPath(cs, path, siblings[0]);
    ChainsAreShort(cs, path + [siblings[0].id]);
  }

  /** What `inTreeOrder` builds: the siblings under each parent, then the list. */
  class TreeOrder {
    var children: map<Option<nat>, seq<Category>>
    var ordered: seq<Category>

    constructor ()
      ensures children == map[] && ordered == []
    {
      children, ordered := map[], [];
    }

    /** `children.get(parentId) ?? []` */
    function Get(parent: Option<nat>): seq<Category>
      reads this`children
    {
      if parent in children then children[parent] else []
    }

    /** The map holds every category under its parent, in the order of the list. */
    ghost predicate Filled(cs: seq<Category>)
      reads this`children
    {
      forall parent :: Get(parent) == ChildrenOf(cs, parent)
    }

    /** Each category once whose parents reach a root, in preorder, siblings sorted. */
    method InTreeOrder(cs: seq<Category>)
      requires DistinctIds(cs) && children == map[] && ordered == []
      modifies this
      ensures ordered == Listing(cs, [])
    {
      for i := 0 to |cs|
        invariant Filled(cs[..i])
        invariant ordered == []
      {
        var c := cs[i];
        assert cs[..i + 1][..i] == cs[..i];
        children := children[c.parent := Get(c.parent) + [c]];
      }
      assert cs[..|cs|] == cs;
      Visit(cs, [], None);
    }

    method Visit(ghost cs: seq<Category>, ghost path: seq<nat>, parent: Option<nat>)
      requires DistinctIds(cs) && IsPath(cs, path) && parent == Above(path, |path|)
      requires Filled(cs)
      modifies this`ordered
      ensures ordered == old(ordered) + Listing(cs, path)
      decreases |cs| - |path|
    {
      var siblings := SortedOf(Get(parent));
      assert siblings == Siblings(cs, parent) && AreChildren(cs, path, siblings);
      ghost var listing := Forest(cs, path, siblings);
      assert Listing(cs, path) == listing;
      hide Forest, Listing, IsPath, Siblings, SortedOf, ChildrenOf, DistinctIds, AreChildren, Above, Filled;
      assert siblings[0..] == siblings;
      ghost var done: seq<Category> := [];
      for i := 0 to |siblings|
        invariant children == old(children)
        invariant AreChildren(cs, path, siblings[i..])
        invariant ordered == old(ordered) + done
        invariant listing == done + Forest(cs, path, siblings[i..])
      {
        var c := siblings[i];
        NextSibling(cs, path, siblings, i, done, listing);
        ordered := ordered + [c];
        Visit(cs, path + [c.id], Some(c.id));
        Regroup(old(ordered), done, c, Listing(cs, path + [c.id]));
        done := done + ([c] + Listing(cs, path + [c.id]));
      }
      EmptyForest(cs, path, siblings, done, listing);
    }
  }

  lemma Regroup(a: seq<Category>, done: seq<Category>, c: Category, under: seq<Category>)
    ensures a + done + [c] + under == a + (done + ([c] + under))
  {
  }

  lemma EmptyForest(cs: seq<Category>, path: seq<nat>, siblings: seq<Category>, done: seq<Category>, listing: seq<Category>)
    requires DistinctIds(cs) && IsPath(cs, path) && AreChildren(cs, path, siblings[|siblings|..])
    requires listing == done + Forest(cs, path, siblings[|siblings|..])
    ensures listing == done
  {
  }

  /** The next sibling heads what is left, and what is below it comes next. */
  lemma NextSibling(cs: seq<Category>, path: seq<nat>, siblings: seq<Category>, i: nat, done: seq<Category>, listing: seq<Category>)
    requires DistinctIds(cs) && IsPath(cs, path) && AreChildren(cs, path, siblings) && i < |siblings|
    requires AreChildren(cs, path, siblings[i..]) && listing == done + Forest(cs, path, siblings[i..])
    ensures var c := siblings[i];
            && IsPath(cs, path + [c.id]) && |path + [c.id]| <= |cs| && AreChildren(cs, path, siblings[i + 1..])
            && Above(path + [c.id], |path + [c.id]|) == Some(c.id)
            && listing == done + ([c] + Listing(cs, path + [c.id])) + Forest(cs, path, siblings[i + 1..])
  {
    var c := siblings[i];
    assert c == siblings[i..][0] && siblings[i..][1..] == siblings[i + 1..];
    hide Forest, Listing, IsPath, DistinctIds, AreChildren;
    SuffixesAreChildren(cs, path, siblings, i + 1);
    ForestStarts(cs, path, siblings[i..]);
  }

  lemma SuffixesAreChildren(cs: seq<Category>, path: seq<nat>, siblings: seq<Category>, i: nat)
    requires AreChildren(cs, path, siblings) && i <= |siblings|
    ensures AreChildren(cs, path, siblings[i..])
  {
  }
}
