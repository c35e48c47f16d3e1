/** The memoized, cycle-detecting walk that decides whether a heap value is a JSON value. */
module JsonWalk {
  import opened Options

  type Ref = nat

  /** `Other` is undefined, a function, a symbol or a bigint. */
  datatype Value = Null | Bool(b: bool) | Str(s: string) | Num(finite: bool) | Other | At(ref: Ref)

  /** An array slot is `None` where the array has a hole. */
  datatype Node =
    | Array(slots: seq<Option<Value>>, symbols: bool)
    | Object(fields: seq<(string, Value)>, plain: bool, symbols: bool)

  type Heap = map<Ref, Node>

  function Children(n: Node): seq<Value> {
    match n
    case Array(slots, _) => Present(slots)
    case Object(fields, _, _) => seq(|fields|, i requires 0 <= i < |fields| => fields[i].1)
  }

  function Present(slots: seq<Option<Value>>): seq<Value> {
    if slots == [] then []
    else (if slots[0].Some? then [slots[0].value] else []) + Present(slots[1..])
  }

  lemma {:induction false} PresentHas(slots: seq<Option<Value>>, v: Value)
    ensures v in Present(slots) <==> Some(v) in slots
  {
    if slots != [] {
      PresentHas(slots[1..], v);
      assert slots == [slots[0]] + slots[1..];
    }
  }

  predicate InHeap(h: Heap, v: Value) {
    v.At? ==> v.ref in h
  }

  predicate Closed(h: Heap) {
    forall r | r in h :: forall c | c in Children(h[r]) :: InHeap(h, c)
  }

  predicate LeafOk(v: Value) {
    match v
    case Num(finite) => finite
    case Other => false
    case _ => true
  }

  /** What a node must be on its own: no symbol keys, no holes, a plain prototype, no bad leaf. */
  predicate NodeOk(n: Node) {
    && !n.symbols
    && (n.Array? ==> forall s | s in n.slots :: s.Some?)
    && (n.Object? ==> n.plain)
    && (forall c | c in Children(n) :: LeafOk(c))
  }

  // ---------------------------------------------------------------- two definitions of a JSON value

  /** The value unfolds to a finite JSON tree of at most `depth` levels. */
  predicate Unfolds(h: Heap, v: Value, depth: nat)
    requires Closed(h) && InHeap(h, v)
    decreases depth
  {
    LeafOk(v) &&
    (v.At? ==> depth > 0 && NodeOk(h[v.ref]) && forall c | c in Children(h[v.ref]) :: Unfolds(h, c, depth - 1))
  }

  ghost predicate JsonTree(h: Heap, v: Value)
    requires Closed(h) && InHeap(h, v)
  {
    exists depth: nat :: Unfolds(h, v, depth)
  }

  /** A path of references that begins at the value. */
  predicate PathFrom(h: Heap, v: Value, p: seq<Ref>) {
    && p != [] && v == At(p[0])
    && (forall i | 0 <= i < |p| :: p[i] in h)
    && (forall i | 0 <= i < |p| - 1 :: At(p[i + 1]) in Children(h[p[i]]))
  }

  ghost predicate Reaches(h: Heap, v: Value, r: Ref) {
    exists p :: PathFrom(h, v, p) && p[|p| - 1] == r
  }

  ghost predicate ReachableNodesOk(h: Heap, v: Value) {
    LeafOk(v) && forall r | r in h && Reaches(h, v, r) :: NodeOk(h[r])
  }

  ghost predicate NoReachableCycle(h: Heap, v: Value) {
    forall p | PathFrom(h, v, p) :: forall i, j | 0 <= i < j < |p| :: p[i] != p[j]
  }

  lemma {:induction false} UnfoldsDeeper(h: Heap, v: Value, d: nat, e: nat)
    requires Closed(h) && InHeap(h, v) && Unfolds(h, v, d) && d <= e
    ensures Unfolds(h, v, e)
    decreases d
  {
    if v.At? {
      forall c | c in Children(h[v.ref]) ensures Unfolds(h, c, e - 1) {
        UnfoldsDeeper(h, c, d - 1, e - 1);
      }
    }
  }

  lemma {:induction false} ChildrenDepth(h: Heap, cs: seq<Value>) returns (d: nat)
    requires Closed(h) && forall c | c in cs :: InHeap(h, c) && JsonTree(h, c)
    ensures forall c | c in cs :: Unfolds(h, c, d)
  {
    if cs == [] {
      d := 0;
    } else {
      var e: nat :| Unfolds(h, cs[0], e);
      var rest := ChildrenDepth(h, cs[1..]);
      d := if e > rest then e else rest;
      forall c | c in cs ensures Unfolds(h, c, d) {
        UnfoldsDeeper(h, c, if c == cs[0] then e else rest, d);
      }
    }
  }

  /** A node is a tree exactly if it is all right itself and its children are trees. */
  lemma TreeFromChildren(h: Heap, r: Ref)
    requires Closed(h) && r in h
    ensures JsonTree(h, At(r)) <==> NodeOk(h[r]) && forall c | c in Children(h[r]) :: JsonTree(h, c)
  {
    if NodeOk(h[r]) && forall c | c in Children(h[r]) :: JsonTree(h, c) {
      var d := ChildrenDepth(h, Children(h[r]));
      assert Unfolds(h, At(r), d + 1);
    }
    if JsonTree(h, At(r)) {
      var d: nat :| Unfolds(h, At(r), d);
      assert forall c | c in Children(h[r]) :: Unfolds(h, c, d - 1);
    }
  }

  lemma {:induction false} Descend(h: Heap, v: Value, p: seq<Ref>, d: nat)
    requires Closed(h) && InHeap(h, v) && Unfolds(h, v, d) && PathFrom(h, v, p)
    ensures |p| <= d && Unfolds(h, At(p[|p| - 1]), d + 1 - |p|)
    decreases |p|
  {
    if |p| > 1 {
      assert PathFrom(h, At(p[1]), p[1..]);
      Descend(h, At(p[1]), p[1..], d - 1);
    }
  }

  lemma {:induction false} CycleNeverUnfolds(h: Heap, r: Ref, p: seq<Ref>, d: nat)
    requires Closed(h) && r in h && PathFrom(h, At(r), p) && |p| > 1 && p[|p| - 1] == r
    ensures !Unfolds(h, At(r), d)
    decreases d
  {
    if Unfolds(h, At(r), d) {
      Descend(h, At(r), p, d);
      CycleNeverUnfolds(h, r, p, d + 1 - |p|);
    }
  }

  lemma CycleIsNoTree(h: Heap, r: Ref, p: seq<Ref>)
    requires Closed(h) && r in h && PathFrom(h, At(r), p) && |p| > 1 && p[|p| - 1] == r
    ensures !JsonTree(h, At(r))
  {
    forall d: nat ensures !Unfolds(h, At(r), d) {
      CycleNeverUnfolds(h, r, p, d);
    }
  }

  lemma {:induction false} DistinctBound(p: seq<Ref>, keys: set<Ref>)
    requires (forall i | 0 <= i < |p| :: p[i] in keys) && forall i, j | 0 <= i < j < |p| :: p[i] != p[j]
    ensures |p| <= |keys|
    decreases |p|
  {
    if p != [] {
      DistinctBound(p[1..], keys - {p[0]});
    }
  }

  /** Beyond any path of an acyclic value what is left unfolds within the levels that are left. */
  lemma {:induction false} AcyclicUnfolds(h: Heap, v: Value, p: seq<Ref>, d: nat)
    requires Closed(h) && ReachableNodesOk(h, v) && NoReachableCycle(h, v)
    requires PathFrom(h, v, p) && |p| + d == |h.Keys| + 1
    ensures Unfolds(h, At(p[|p| - 1]), d)
    decreases d
  {
    var r := p[|p| - 1];
    DistinctBound(p, h.Keys);
    assert Reaches(h, v, r) && NodeOk(h[r]);
    forall c | c in Children(h[r]) ensures Unfolds(h, c, d - 1) {
      if c.At? {
        var q := p + [c.ref];
        assert forall i | 0 <= i < |q| - 1 :: At(q[i + 1]) in Children(h[q[i]]);
        AcyclicUnfolds(h, v, q, d - 1);
      }
    }
  }

  lemma TreeIsSound(h: Heap, v: Value)
    requires Closed(h) && InHeap(h, v) && JsonTree(h, v)
    ensures ReachableNodesOk(h, v) && NoReachableCycle(h, v)
  {
    var d: nat :| Unfolds(h, v, d);
    forall r | r in h && Reaches(h, v, r) ensures NodeOk(h[r]) {
      var p :| PathFrom(h, v, p) && p[|p| - 1] == r;
      Descend(h, v, p, d);
    }
    forall p, i, j | PathFrom(h, v, p) && 0 <= i < j < |p| ensures p[i] != p[j] {
      TreePathHasNoRepeat(h, v, p, i, j, d);
    }
  }

  lemma TreePathHasNoRepeat(h: Heap, v: Value, p: seq<Ref>, i: nat, j: nat, d: nat)
    requires Closed(h) && InHeap(h, v) && Unfolds(h, v, d) && PathFrom(h, v, p) && i < j < |p|
    ensures p[i] != p[j]
  {
    Descend(h, v, p[..i + 1], d);
    if p[i] == p[j] {
      assert PathFrom(h, At(p[i]), p[i..j + 1]);
      CycleIsNoTree(h, p[i], p[i..j + 1]);
    }
  }

  /** Unfolding to a finite tree means: every reachable node is all right and no cycle is reachable. */
  lemma TreeIffReachable(h: Heap, v: Value)
    requires Closed(h) && InHeap(h, v)
    ensures JsonTree(h, v) <==> ReachableNodesOk(h, v) && NoReachableCycle(h, v)
  {
    if JsonTree(h, v) {
      TreeIsSound(h, v);
    }
    if ReachableNodesOk(h, v) && NoReachableCycle(h, v) {
      if v.At? {
        AcyclicUnfolds(h, v, [v.ref], |h.Keys|);
      } else {
        assert Unfolds(h, v, 0);
      }
    }
  }

  // ---------------------------------------------------------------- the walk

  /** The value is no tree, or it leads back to a node the walk is inside of. */
  ghost predicate Refuted(h: Heap, v: Value, visiting: set<Ref>)
    requires Closed(h) && InHeap(h, v)
  {
    !JsonTree(h, v) || exists r | r in visiting :: Reaches(h, v, r)
  }

  lemma RefutedChild(h: Heap, r: Ref, c: Value, visiting: set<Ref>)
    requires Closed(h) && r in h && c in Children(h[r]) && Refuted(h, c, visiting + {r})
    ensures Refuted(h, At(r), visiting)
  {
    TreeFromChildren(h, r);
    if JsonTree(h, c) {
      var w :| w in visiting + {r} && Reaches(h, c, w);
      var p :| PathFrom(h, c, p) && p[|p| - 1] == w;
      assert PathFrom(h, At(r), [r] + p) && ([r] + p)[|[r] + p| - 1] == w;
      if w == r {
        CycleIsNoTree(h, r, [r] + p);
      } else {
        assert w in visiting;
      }
    }
  }

  class Walk {
    var visiting: set<Ref>
    var validated: set<Ref>

    constructor ()
      ensures visiting == {} && validated == {}
    {
      visiting, validated := {}, {};
    }

    ghost predicate Sound(h: Heap)
      requires Closed(h)
      reads this
    {
      visiting <= h.Keys && forall r | r in validated :: r in h && JsonTree(h, At(r))
    }

    /** `visitJsonValue` */
    method Visit(h: Heap, v: Value) returns (ok: bool)
      requires Closed(h) && InHeap(h, v) && Sound(h)
      modifies this
      ensures Sound(h) && visiting == old(visiting) && old(validated) <= validated
      ensures ok ==> JsonTree(h, v)
      ensures !ok ==> Refuted(h, v, visiting)
      decreases h.Keys - visiting, 0
    {
      if !v.At? {
        assert LeafOk(v) <==> Unfolds(h, v, 0);
        return LeafOk(v);
      }
      var r := v.ref;
      if r in validated { return true; }
      if r in visiting {
        assert PathFrom(h, v, [r]) && Reaches(h, v, r);
        return false;
      }
      visiting := visiting + {r};
      ok := VisitNode(h, r);
      visiting := visiting - {r};
      if ok {
        validated := validated + {r};
      }
    }

    /** The part between adding the node to `visiting` and removing it again. */
    method VisitNode(h: Heap, r: Ref) returns (ok: bool)
      requires Closed(h) && r in h && r in visiting && Sound(h)
      modifies this
      ensures Sound(h) && visiting == old(visiting) && old(validated) <= validated
      ensures ok ==> JsonTree(h, At(r))
      ensures !ok ==> Refuted(h, At(r), visiting - {r})
      decreases h.Keys - visiting, 2
    {
      var n := h[r];
      TreeFromChildren(h, r);
      assert visiting - {r} + {r} == visiting;
      if n.symbols { return false; }
      if n.Array? {
        forall c ensures c in Children(n) <==> Some(c) in n.slots {
          PresentHas(n.slots, c);
        }
        var i := 0;
        while i < |n.slots|
          invariant 0 <= i <= |n.slots| && Sound(h) && visiting == old(visiting) && old(validated) <= validated
          invariant forall k | 0 <= k < i :: n.slots[k].Some? && InHeap(h, n.slots[k].value) && JsonTree(h, n.slots[k].value)
        {
          if n.slots[i].None? {
            assert n.slots[i] in n.slots && !NodeOk(n);
            return false;
          }
          var c := n.slots[i].value;
          assert c in Children(n);
          ok := VisitChild(h, r, c);
          if !ok { return false; }
          i := i + 1;
        }
        assert forall c | c in Children(n) :: JsonTree(h, c);
      } else {
        if !n.plain { return false; }
        var i := 0;
        while i < |n.fields|
          invariant 0 <= i <= |n.fields| && Sound(h) && visiting == old(visiting) && old(validated) <= validated
          invariant forall k | 0 <= k < i :: InHeap(h, n.fields[k].1) && JsonTree(h, n.fields[k].1)
        {
          assert Children(n)[i] == n.fields[i].1;
          ok := VisitChild(h, r, n.fields[i].1);
          if !ok { return false; }
          i := i + 1;
        }
      }
      return true;
    }

    method VisitChild(h: Heap, r: Ref, c: Value) returns (ok: bool)
      requires Closed(h) && r in h && r in visiting && c in Children(h[r]) && Sound(h)
      modifies this
      ensures Sound(h) && visiting == old(visiting) && old(validated) <= validated
      ensures ok ==> JsonTree(h, c)
      ensures !ok ==> Refuted(h, At(r), visiting - {r})
      decreases h.Keys - visiting, 1
    {
      ok := Visit(h, c);
      if !ok {
        assert visiting - {r} + {r} == visiting;
        RefutedChild(h, r, c, visiting - {r});
      }
    }
  }

  /** `isJsonValue` terminates on every heap graph and answers whether everything reachable is all right
      and no cycle is reachable, however often nodes are shared. */
  method IsJsonValue(h: Heap, v: Value) returns (ok: bool)
    requires Closed(h) && InHeap(h, v)
    ensures ok <==> ReachableNodesOk(h, v) && NoReachableCycle(h, v)
    ensures ok <==> JsonTree(h, v)
  {
    var walk := new Walk();
    ok := walk.Visit(h, v);
    TreeIffReachable(h, v);
  }
}
