/**
 Setting a path in place: objects live in a heap, a cursor walks down the path, and every step writes one member
 of the object under the cursor.
 */
module ProjectionCursor {
  import opened Common
  import opened ProjectionPaths

  // What a member holds: a reference to an object, or a value that is not one.
  datatype Cell = Leaf(value: Value) | Ref(id: nat)

  type Heap = map<nat, map<string, Cell>>

  /** Node n is reached when c is read as v. */
  ghost predicate Has(heap: Heap, c: Cell, v: Value, n: nat)
    decreases v
  {
    && c.Ref? && v.Obj?
    && (c.id == n
        || (c.id in heap
            && exists k | k in v.members && k in heap[c.id] :: Has(heap, heap[c.id][k], v.members[k], n)))
  }

  /** The cell c is a tree of unshared objects that reads as v. */
  ghost predicate Tree(heap: Heap, c: Cell, v: Value)
    decreases v
  {
    match c
    case Leaf(x) => x == v && !v.Obj?
    case Ref(id) => v.Obj? && id in heap && heap[id].Keys == v.members.Keys && Branches(heap, id, v)
  }

  ghost predicate Branches(heap: Heap, id: nat, v: Value)
    requires v.Obj? && id in heap && heap[id].Keys == v.members.Keys
    decreases v, 0
  {
    && (forall k | k in v.members :: Tree(heap, heap[id][k], v.members[k]))
    && (forall k | k in v.members :: !Has(heap, heap[id][k], v.members[k], id))
    && (forall k, l, n: nat | k in v.members && l in v.members && k != l ::
          !(Has(heap, heap[id][k], v.members[k], n) && Has(heap, heap[id][l], v.members[l], n)))
  }

  /** A tree is unaffected by changes elsewhere. */
  lemma {:induction false} TreeFrame(h: Heap, g: Heap, c: Cell, v: Value)
    requires Tree(h, c, v)
    requires forall n: nat | Has(h, c, v, n) :: n in h && n in g && g[n] == h[n]
    ensures Tree(g, c, v)
    ensures forall n: nat :: Has(g, c, v, n) <==> Has(h, c, v, n)
    decreases v
  {
    if c.Ref? {
      assert Has(h, c, v, c.id);
      forall k | k in v.members
        ensures Tree(g, g[c.id][k], v.members[k])
        ensures forall n: nat :: Has(g, g[c.id][k], v.members[k], n) <==> Has(h, h[c.id][k], v.members[k], n)
      {
        forall n: nat | Has(h, h[c.id][k], v.members[k], n) ensures n in h && n in g && g[n] == h[n] {
          assert Has(h, c, v, n);
        }
        TreeFrame(h, g, h[c.id][k], v.members[k]);
      }
    }
  }

  /** The object at the end of a path, if the path leads through objects. */
  function NodeAt(heap: Heap, c: Cell, path: Path): Option<nat>
    decreases |path|
  {
    if c.Leaf? || c.id !in heap then None
    else if path == [] then Some(c.id)
    else if path[0] in heap[c.id] then NodeAt(heap, heap[c.id][path[0]], path[1..])
    else None
  }

  lemma {:induction false} NodeShows(heap: Heap, c: Cell, v: Value, path: Path)
    requires Tree(heap, c, v) && NodeAt(heap, c, path).Some?
    ensures var n := NodeAt(heap, c, path).value;
            && n in heap && Has(heap, c, v, n)
            && GetIn(v, path).Some? && GetIn(v, path).value.Obj?
            && heap[n].Keys == GetIn(v, path).value.members.Keys
            && forall k | k in heap[n] :: Tree(heap, heap[n][k], GetIn(v, path).value.members[k])
    decreases |path|
  {
    if path != [] {
      NodeShows(heap, heap[c.id][path[0]], v.members[path[0]], path[1..]);
    }
  }

  lemma {:induction false} NodeNext(heap: Heap, c: Cell, path: Path, k: string)
    requires NodeAt(heap, c, path).Some? && NodeAt(heap, c, path).value in heap
    requires k in heap[NodeAt(heap, c, path).value]
    ensures NodeAt(heap, c, path + [k]) == NodeAt(heap, heap[NodeAt(heap, c, path).value][k], [])
    decreases |path|
  {
    if path == [] {
      assert [k][1..] == [] && path + [k] == [k];
    } else {
      assert (path + [k])[0] == path[0] && (path + [k])[1..] == path[1..] + [k];
      NodeNext(heap, heap[c.id][path[0]], path[1..], k);
    }
  }

  /** The value in which one member of the object at a path is replaced. */
  function Replace(v: Value, path: Path, k: string, w: Value): Value
    requires GetIn(v, path).Some? && GetIn(v, path).value.Obj?
    decreases |path|
  {
    if path == [] then Obj(v.members[k := w])
    else Obj(v.members[path[0] := Replace(v.members[path[0]], path[1..], k, w)])
  }

  // g is h with member k of node n set to d.
  predicate Written(h: Heap, g: Heap, n: nat, k: string, d: Cell) {
    n in h && g == h[n := h[n][k := d]]
  }

  ghost predicate Disjoint(heap: Heap, c: Cell, v: Value, d: Cell, w: Value) {
    forall n: nat :: !(Has(heap, c, v, n) && Has(heap, d, w, n))
  }

  // A branch the write does not touch.
  lemma OtherBranch(h: Heap, g: Heap, n: nat, k: string, d: Cell, c: Cell, v: Value)
    requires Tree(h, c, v) && Written(h, g, n, k, d) && !Has(h, c, v, n)
    ensures Tree(g, c, v) && forall m: nat :: Has(g, c, v, m) <==> Has(h, c, v, m)
  {
    InHeap(h, c, v);
    TreeFrame(h, g, c, v);
  }

  lemma {:induction false} InHeap(heap: Heap, c: Cell, v: Value)
    requires Tree(heap, c, v)
    ensures forall n: nat | Has(heap, c, v, n) :: n in heap
    decreases v
  {
    if c.Ref? {
      forall k | k in v.members ensures forall n: nat | Has(heap, heap[c.id][k], v.members[k], n) :: n in heap {
        InHeap(heap, heap[c.id][k], v.members[k]);
      }
    }
  }

  // What is reached from an object: itself and what its members reach.
  lemma HasBranch(heap: Heap, id: nat, v: Value, k: string, n: nat)
    requires Tree(heap, Ref(id), v) && k in v.members
    ensures Has(heap, heap[id][k], v.members[k], n) ==> Has(heap, Ref(id), v, n) && n != id
    ensures Has(heap, Ref(id), v, id)
  {
  }

  lemma TreeParts(heap: Heap, id: nat, v: Value)
    requires Tree(heap, Ref(id), v)
    ensures v.Obj? && id in heap && heap[id].Keys == v.members.Keys && Branches(heap, id, v)
    ensures Has(heap, Ref(id), v, id)
  {
  }

  // Members of which one is new and the others are as they were.
  ghost predicate Around(h: Heap, g: Heap, id: nat, v: Value, a: string, d: Cell, x: Value) {
    && v.Obj? && id in h && h[id].Keys == v.members.Keys && id in g && g[id] == h[id][a := d] && Tree(g, d, x)
    && !Has(g, d, x, id)
    && (forall l | l in v.members && l != a :: Branch(h, g, h[id][l], v.members[l], d, x))
  }

  // A branch as it was, that shares nothing with the new one.
  ghost predicate Branch(h: Heap, g: Heap, c: Cell, v: Value, d: Cell, x: Value) {
    && Tree(g, c, v)
    && (forall m: nat :: Has(g, c, v, m) <==> Has(h, c, v, m))
    && (forall m: nat :: !(Has(h, c, v, m) && Has(g, d, x, m)))
  }

  lemma BranchAt(h: Heap, g: Heap, c: Cell, v: Value, d: Cell, x: Value, m: nat)
    requires Branch(h, g, c, v, d, x)
    ensures Tree(g, c, v) && (Has(g, c, v, m) <==> Has(h, c, v, m)) && !(Has(h, c, v, m) && Has(g, d, x, m))
  {
    hide Has, Tree;
  }

  lemma Rebuilt(h: Heap, g: Heap, id: nat, v: Value, a: string, d: Cell, x: Value)
    requires Tree(h, Ref(id), v) && Around(h, g, id, v, a, d, x)
    ensures Tree(g, Ref(id), Obj(v.members[a := x]))
    ensures forall m: nat | Has(g, Ref(id), Obj(v.members[a := x]), m) :: Has(h, Ref(id), v, m) || Has(g, d, x, m)
  {
    var y := Obj(v.members[a := x]);
    RebuiltBranches(h, g, id, v, a, d, x);
    hide Branch, Branches;
    forall m: nat | Has(g, Ref(id), y, m) ensures Has(h, Ref(id), v, m) || Has(g, d, x, m) {
      TreeParts(h, id, v);
      if m != id {
        var k :| k in y.members && k in g[id] && Has(g, g[id][k], y.members[k], m);
        if k != a {
          BranchAt(h, g, h[id][k], v.members[k], d, x, m);
          HasBranch(h, id, v, k, m);
        }
      }
    }
  }

  lemma RebuiltBranches(h: Heap, g: Heap, id: nat, v: Value, a: string, d: Cell, x: Value)
    requires Tree(h, Ref(id), v) && Around(h, g, id, v, a, d, x)
    ensures Branches(g, id, Obj(v.members[a := x]))
  {
    hide Has, Tree, Branches, Branch;
    TreeParts(h, id, v);
    var y := Obj(v.members[a := x]);
    forall k | k in y.members
      ensures Tree(g, g[id][k], y.members[k]) && !Has(g, g[id][k], y.members[k], id)
    {
      if k != a {
        BranchAt(h, g, h[id][k], v.members[k], d, x, id);
        HasBranch(h, id, v, k, id);
      }
    }
    forall k, l, n: nat | k in y.members && l in y.members && k != l
      ensures !(Has(g, g[id][k], y.members[k], n) && Has(g, g[id][l], y.members[l], n))
    {
      if k != a {
        BranchAt(h, g, h[id][k], v.members[k], d, x, n);
      }
      if l != a {
        BranchAt(h, g, h[id][l], v.members[l], d, x, n);
      }
      if k != a && l != a {
        BranchesApart(h, id, v, k, l, n);
      }
    }
    BranchesFrom(g, id, y);
  }

  lemma BranchesFrom(g: Heap, id: nat, y: Value)
    requires y.Obj? && id in g && g[id].Keys == y.members.Keys
    requires forall k | k in y.members :: Tree(g, g[id][k], y.members[k]) && !Has(g, g[id][k], y.members[k], id)
    requires forall k, l, n: nat | k in y.members && l in y.members && k != l ::
               !(Has(g, g[id][k], y.members[k], n) && Has(g, g[id][l], y.members[l], n))
    ensures Branches(g, id, y)
  {
    hide Has, Tree;
  }

  lemma BranchesApart(h: Heap, id: nat, v: Value, k: string, l: string, n: nat)
    requires v.Obj? && id in h && h[id].Keys == v.members.Keys && Branches(h, id, v)
    requires k in v.members && l in v.members && k != l
    ensures !(Has(h, h[id][k], v.members[k], n) && Has(h, h[id][l], v.members[l], n))
  {
    hide Has, Tree;
  }

  // The written object itself.
  lemma WriteHere(h: Heap, g: Heap, n: nat, v: Value, k: string, d: Cell, w: Value)
    requires Tree(h, Ref(n), v) && Tree(h, d, w) && Disjoint(h, Ref(n), v, d, w) && Written(h, g, n, k, d)
    ensures Tree(g, Ref(n), Obj(v.members[k := w]))
    ensures forall m: nat | Has(g, Ref(n), Obj(v.members[k := w]), m) :: Has(h, Ref(n), v, m) || Has(h, d, w, m)
  {
    hide Has, Tree;
    TreeParts(h, n, v);
    OtherBranch(h, g, n, k, d, d, w);
    forall l | l in v.members && l != k
      ensures Tree(g, h[n][l], v.members[l])
      ensures forall m: nat :: Has(g, h[n][l], v.members[l], m) <==> Has(h, h[n][l], v.members[l], m)
      ensures forall m: nat :: !(Has(h, h[n][l], v.members[l], m) && Has(g, d, w, m))
    {
      OtherBranch(h, g, n, k, d, h[n][l], v.members[l]);
      forall m: nat ensures !(Has(h, h[n][l], v.members[l], m) && Has(g, d, w, m)) {
        HasBranch(h, n, v, l, m);
      }
    }
    Rebuilt(h, g, n, v, k, d, w);
  }

  // An object above the written one, given what became of the branch between them.
  lemma WriteBelow(h: Heap, g: Heap, id: nat, v: Value, a: string, n: nat, k: string, d: Cell, w: Value, x: Value)
    requires Tree(h, Ref(id), v) && Disjoint(h, Ref(id), v, d, w) && Written(h, g, n, k, d)
    requires a in v.members && Has(h, h[id][a], v.members[a], n)
    requires Tree(g, h[id][a], x)
    requires forall m: nat | Has(g, h[id][a], x, m) :: Has(h, h[id][a], v.members[a], m) || Has(h, d, w, m)
    ensures n != id && Tree(g, Ref(id), Obj(v.members[a := x]))
    ensures forall m: nat | Has(g, Ref(id), Obj(v.members[a := x]), m) :: Has(h, Ref(id), v, m) || Has(h, d, w, m)
  {
    hide Has, Tree;
    TreeParts(h, id, v);
    HasBranch(h, id, v, a, n);
    forall m: nat | Has(g, h[id][a], x, m) ensures m != id && (Has(h, Ref(id), v, m) || Has(h, d, w, m)) {
      HasBranch(h, id, v, a, m);
    }
    forall l | l in v.members && l != a
      ensures Tree(g, h[id][l], v.members[l])
      ensures forall m: nat :: Has(g, h[id][l], v.members[l], m) <==> Has(h, h[id][l], v.members[l], m)
      ensures forall m: nat :: !(Has(h, h[id][l], v.members[l], m) && Has(g, h[id][a], x, m))
    {
      OtherBranch(h, g, n, k, d, h[id][l], v.members[l]);
      forall m: nat ensures !(Has(h, h[id][l], v.members[l], m) && Has(g, h[id][a], x, m)) {
        HasBranch(h, id, v, l, m);
      }
    }
    assert g[id] == h[id][a := h[id][a]];
    Rebuilt(h, g, id, v, a, h[id][a], x);
  }

  /** Writing a member of an object on the path changes the tree there and nowhere else. */
  lemma {:induction false} WriteAt(h: Heap, g: Heap, c: Cell, v: Value, path: Path, k: string, d: Cell, w: Value)
    requires Tree(h, c, v) && Tree(h, d, w) && Disjoint(h, c, v, d, w)
    requires NodeAt(h, c, path).Some? && Written(h, g, NodeAt(h, c, path).value, k, d)
    ensures GetIn(v, path).Some? && GetIn(v, path).value.Obj?
    ensures Tree(g, c, Replace(v, path, k, w))
    ensures forall m: nat | Has(g, c, Replace(v, path, k, w), m) :: Has(h, c, v, m) || Has(h, d, w, m)
    ensures NodeAt(g, c, path) == NodeAt(h, c, path)
    decreases |path|
  {
    hide Has, Tree;
    var n := NodeAt(h, c, path).value;
    NodeShows(h, c, v, path);
    TreeParts(h, c.id, v);
    if path == [] {
      WriteHere(h, g, n, v, k, d, w);
    } else {
      var a := path[0];
      NodeShows(h, h[c.id][a], v.members[a], path[1..]);
      forall m: nat ensures !(Has(h, h[c.id][a], v.members[a], m) && Has(h, d, w, m)) {
        HasBranch(h, c.id, v, a, m);
      }
      WriteAt(h, g, h[c.id][a], v.members[a], path[1..], k, d, w);
      WriteBelow(h, g, c.id, v, a, n, k, d, w, Replace(v.members[a], path[1..], k, w));
    }
  }

  /*** Replacing towards the path ***/

  // Replacing the last member of the path is setting the path.
  lemma {:induction false} ReplaceSets(m: map<string, Value>, path: Path, k: string, w: Value)
    requires GetIn(Obj(m), path).Some? && GetIn(Obj(m), path).value.Obj?
    ensures Replace(Obj(m), path, k, w) == Obj(SetIn(m, path + [k], w))
    decreases |path|
  {
    if path == [] {
      assert path + [k] == [k];
    } else {
      assert (path + [k])[0] == path[0] && (path + [k])[1..] == path[1..] + [k];
      ReplaceSets(m[path[0]].members, path[1..], k, w);
    }
  }

  /** Putting an empty object where there is none on the way does not change what setting the whole path gives. */
  lemma {:induction false} EmptyOnTheWay(m: map<string, Value>, path: Path, k: string, rest: Path, w: Value)
    requires GetIn(Obj(m), path).Some? && GetIn(Obj(m), path).value.Obj? && rest != []
    requires var at := GetIn(Obj(m), path).value.members; k in at ==> !at[k].Obj?
    ensures Replace(Obj(m), path, k, Obj(map[])).Obj?
    ensures SetIn(Replace(Obj(m), path, k, Obj(map[])).members, path + [k] + rest, w) == SetIn(m, path + [k] + rest, w)
    decreases |path|
  {
    var all := path + [k] + rest;
    if path == [] {
      assert all[0] == k && all[1..] == rest;
      assert Child(m[k := Obj(map[])], k) == map[] == Child(m, k);
    } else {
      var a := path[0];
      assert all[0] == a && all[1..] == path[1..] + [k] + rest;
      var x := Replace(m[a], path[1..], k, Obj(map[]));
      EmptyOnTheWay(m[a].members, path[1..], k, rest, w);
      assert Child(m[a := x], a) == x.members;
    }
  }

  /*** The loop ***/

  lemma {:induction false} NodeMore(h: Heap, g: Heap, c: Cell, path: Path)
    requires NodeAt(h, c, path).Some? && forall n | n in h :: n in g && g[n] == h[n]
    ensures NodeAt(g, c, path) == NodeAt(h, c, path)
    decreases |path|
  {
    if path != [] {
      NodeMore(h, g, h[c.id][path[0]], path[1..]);
    }
  }

  // A new object, not yet referred to.
  lemma Allocated(h: Heap, g: Heap, free: nat, c: Cell, v: Value)
    requires Tree(h, c, v) && free !in h && g == h[free := map[]]
    ensures Tree(g, c, v) && (forall n: nat :: Has(g, c, v, n) <==> Has(h, c, v, n)) && !Has(h, c, v, free)
    ensures Tree(g, Ref(free), Obj(map[]))
    ensures forall n: nat :: Has(g, Ref(free), Obj(map[]), n) <==> n == free
  {
    InHeap(h, c, v);
    TreeFrame(h, g, c, v);
  }

  // One object is put under the cursor's part; the rest of the path is empty below it.
  function Grown(m: map<string, Value>, path: Path, i: nat): Value
    requires i < |path| && GetIn(Obj(m), path[..i]).Some? && GetIn(Obj(m), path[..i]).value.Obj?
  {
    Replace(Obj(m), path[..i], path[i], Obj(map[]))
  }

  lemma GrowStep(h: Heap, g: Heap, root: nat, m: map<string, Value>, path: Path, i: nat, current: nat, free: nat,
                 value: Cell, w: Value)
    requires Tree(h, Ref(root), Obj(m)) && i + 1 < |path| && NodeAt(h, Ref(root), path[..i]) == Some(current)
    requires Tree(h, value, w) && Disjoint(h, Ref(root), Obj(m), value, w) && free !in h
    requires current in h && (path[i] in h[current] ==> h[current][path[i]].Leaf?)
    requires g == h[free := map[]][current := h[current][path[i] := Ref(free)]]
    ensures GetIn(Obj(m), path[..i]).Some? && GetIn(Obj(m), path[..i]).value.Obj? && Grown(m, path, i).Obj?
    ensures Tree(g, Ref(root), Grown(m, path, i)) && NodeAt(g, Ref(root), path[..i]) == Some(current)
    ensures Tree(g, value, w) && Disjoint(g, Ref(root), Grown(m, path, i), value, w)
    ensures SetIn(Grown(m, path, i).members, path, w) == SetIn(m, path, w)
    ensures forall n: nat | Has(g, Ref(root), Grown(m, path, i), n) :: Has(h, Ref(root), Obj(m), n) || n == free
  {
    NodeShows(h, Ref(root), Obj(m), path[..i]);
    MemberKind(h, current, GetIn(Obj(m), path[..i]).value, path[i]);
    hide Has, Tree, NodeAt, SetIn, Replace, GetIn, Written;
    GrowTree(h, g, root, m, path, i, current, free);
    GrowValue(h, g, root, m, path[..i], path[i], current, free, value, w);
    assert path == path[..i] + [path[i]] + path[i + 1..];
    EmptyOnTheWay(m, path[..i], path[i], path[i + 1..], w);
  }

  lemma GrowTree(h: Heap, g: Heap, root: nat, m: map<string, Value>, path: Path, i: nat, current: nat, free: nat)
    requires Tree(h, Ref(root), Obj(m)) && i < |path| && NodeAt(h, Ref(root), path[..i]) == Some(current)
    requires free !in h && current in h
    requires g == h[free := map[]][current := h[current][path[i] := Ref(free)]]
    ensures GetIn(Obj(m), path[..i]).Some? && GetIn(Obj(m), path[..i]).value.Obj?
    ensures Tree(g, Ref(root), Grown(m, path, i)) && NodeAt(g, Ref(root), path[..i]) == Some(current)
    ensures forall n: nat | Has(g, Ref(root), Grown(m, path, i), n) :: Has(h, Ref(root), Obj(m), n) || n == free
  {
    hide Has, Tree, NodeAt, Replace, GetIn;
    var h0 := h[free := map[]];
    Allocated(h, h0, free, Ref(root), Obj(m));
    NodeMore(h, h0, Ref(root), path[..i]);
    WriteAt(h0, g, Ref(root), Obj(m), path[..i], path[i], Ref(free), Obj(map[]));
  }

  lemma GrowValue(h: Heap, g: Heap, root: nat, m: map<string, Value>, path: Path, k: string, current: nat, free: nat,
                  value: Cell, w: Value)
    requires Tree(h, Ref(root), Obj(m)) && NodeAt(h, Ref(root), path) == Some(current)
    requires Tree(h, value, w) && Disjoint(h, Ref(root), Obj(m), value, w) && free !in h && current in h
    requires g == h[free := map[]][current := h[current][k := Ref(free)]]
    ensures Tree(g, value, w) && !Has(g, value, w, free)
    ensures forall n: nat :: Has(g, value, w, n) <==> Has(h, value, w, n)
  {
    hide Has, Tree, NodeAt;
    CursorInHeap(h, root, Obj(m), path);
    Allocated(h, h[free := map[]], free, value, w);
    OtherBranch(h[free := map[]], g, current, k, Ref(free), value, w);
  }

  // A leaf under the cursor is not an object.
  lemma MemberKind(h: Heap, n: nat, v: Value, k: string)
    requires v.Obj? && n in h && h[n].Keys == v.members.Keys && (k in h[n] ==> h[n][k].Leaf?)
    requires forall l | l in h[n] :: Tree(h, h[n][l], v.members[l])
    ensures k in v.members ==> !v.members[k].Obj?
  {
  }

  // The object the cursor moves to.
  lemma StepDown(h: Heap, root: nat, v: Value, path: Path, i: nat, current: nat)
    requires Tree(h, Ref(root), v) && i < |path| && NodeAt(h, Ref(root), path[..i]) == Some(current)
    requires current in h && path[i] in h[current] && h[current][path[i]].Ref?
    ensures NodeAt(h, Ref(root), path[..i + 1]) == Some(h[current][path[i]].id)
  {
    NodeShows(h, Ref(root), v, path[..i]);
    NodeNext(h, Ref(root), path[..i], path[i]);
    assert path[..i + 1] == path[..i] + [path[i]];
    assert Tree(h, h[current][path[i]], GetIn(v, path[..i]).value.members[path[i]]);
  }

  // The last write.
  lemma LastWrite(h: Heap, g: Heap, root: nat, m: map<string, Value>, path: Path, current: nat, value: Cell, w: Value)
    requires path != [] && Tree(h, Ref(root), Obj(m)) && Tree(h, value, w) && Disjoint(h, Ref(root), Obj(m), value, w)
    requires NodeAt(h, Ref(root), path[..|path| - 1]) == Some(current) && current in h
    requires g == h[current := h[current][path[|path| - 1] := value]]
    ensures Tree(g, Ref(root), Obj(SetIn(m, path, w)))
  {
    var n := |path| - 1;
    assert path == path[..n] + [path[n]];
    hide Has, Tree, SetIn;
    WriteAt(h, g, Ref(root), Obj(m), path[..n], path[n], value, w);
    ReplaceSets(m, path[..n], path[n], w);
  }

  lemma CursorInHeap(h: Heap, root: nat, v: Value, path: Path)
    requires Tree(h, Ref(root), v) && NodeAt(h, Ref(root), path).Some?
    ensures NodeAt(h, Ref(root), path).value in h && Has(h, Ref(root), v, NodeAt(h, Ref(root), path).value)
  {
    NodeShows(h, Ref(root), v, path);
  }

  // Objects of the first heap outside the tree are as they were and still outside.
  ghost predicate Kept(heap: Heap, out: Heap, root: nat, m: map<string, Value>, now: map<string, Value>) {
    forall n | n in heap && !Has(heap, Ref(root), Obj(m), n) ::
      n in out && out[n] == heap[n] && !Has(out, Ref(root), Obj(now), n)
  }

  // After i steps: the heap shows a payload in which setting the path gives the same, and the cursor is on the path.
  ghost predicate CursorAt(heap: Heap, out: Heap, root: nat, m: map<string, Value>, now: map<string, Value>, path: Path,
                           i: nat, current: nat, free: nat, value: Cell, w: Value)
  {
    && i < |path| && current in out
    && Tree(out, Ref(root), Obj(now)) && NodeAt(out, Ref(root), path[..i]) == Some(current)
    && Tree(out, value, w) && Disjoint(out, Ref(root), Obj(now), value, w)
    && SetIn(now, path, w) == SetIn(m, path, w)
    && (forall n | n in out :: n < free) && (forall n | n in heap :: n < free)
    && Kept(heap, out, root, m, now)
  }

  lemma CursorStarts(heap: Heap, root: nat, m: map<string, Value>, path: Path, next: nat, value: Cell, w: Value)
    requires path != [] && Tree(heap, Ref(root), Obj(m)) && Tree(heap, value, w)
    requires Disjoint(heap, Ref(root), Obj(m), value, w) && forall n | n in heap :: n < next
    ensures CursorAt(heap, heap, root, m, m, path, 0, root, next, value, w)
  {
    assert path[..0] == [];
  }

  lemma CursorGrows(heap: Heap, h: Heap, g: Heap, root: nat, m: map<string, Value>, now: map<string, Value>, path: Path,
                    i: nat, current: nat, free: nat, value: Cell, w: Value)
    returns (grown: map<string, Value>)
    requires CursorAt(heap, h, root, m, now, path, i, current, free, value, w) && i + 1 < |path|
    requires current in h && (path[i] in h[current] ==> h[current][path[i]].Leaf?)
    requires g == h[free := map[]][current := h[current][path[i] := Ref(free)]]
    ensures CursorAt(heap, g, root, m, grown, path, i, current, free + 1, value, w)
    ensures current in g && path[i] in g[current] && g[current][path[i]].Ref?
  {
    hide Has, Tree, NodeAt, SetIn, Disjoint, Grown, GetIn;
    GrowStep(h, g, root, now, path, i, current, free, value, w);
    CursorInHeap(h, root, Obj(now), path[..i]);
    grown := Grown(now, path, i).members;
  }

  lemma CursorSteps(heap: Heap, h: Heap, root: nat, m: map<string, Value>, now: map<string, Value>, path: Path, i: nat,
                    current: nat, free: nat, value: Cell, w: Value)
    requires CursorAt(heap, h, root, m, now, path, i, current, free, value, w) && i + 1 < |path|
    requires current in h && path[i] in h[current] && h[current][path[i]].Ref?
    ensures CursorAt(heap, h, root, m, now, path, i + 1, h[current][path[i]].id, free, value, w)
  {
    hide Has, Tree, NodeAt, SetIn, Disjoint, Kept;
    StepDown(h, root, Obj(now), path, i, current);
    CursorInHeap(h, root, Obj(now), path[..i + 1]);
  }

  lemma CursorEnds(heap: Heap, h: Heap, g: Heap, root: nat, m: map<string, Value>, now: map<string, Value>, path: Path,
                   current: nat, free: nat, value: Cell, w: Value)
    requires path != [] && CursorAt(heap, h, root, m, now, path, |path| - 1, current, free, value, w)
    requires current in h && g == h[current := h[current][path[|path| - 1] := value]]
    ensures Tree(g, Ref(root), Obj(SetIn(m, path, w)))
    ensures forall n | n in heap && !Has(heap, Ref(root), Obj(m), n) :: n in g && g[n] == heap[n]
  {
    hide Has, Tree, NodeAt, SetIn, Disjoint;
    LastWrite(h, g, root, now, path, current, value, w);
    CursorInHeap(h, root, Obj(now), path[..|path| - 1]);
  }

  lemma CursorLives(heap: Heap, h: Heap, root: nat, m: map<string, Value>, now: map<string, Value>, path: Path, i: nat,
                    current: nat, free: nat, value: Cell, w: Value)
    requires CursorAt(heap, h, root, m, now, path, i, current, free, value, w)
    ensures i < |path| && current in h
  {
  }

  lemma ValidNonempty(path: Path)
    requires ValidPath(path)
    ensures path != []
  {
  }

  /**
   Sets a path in a tree that shares nothing. The tree then reads as the payload with the path set, and no object
   outside the tree has changed. next is an identifier from which on none is in use.
   */
  method SetProjectionPathValue(heap: Heap, root: nat, path: Path, value: Cell, next: nat,
                                ghost m: map<string, Value>, ghost w: Value)
    returns (out: Heap)
    requires ValidPath(path)
    requires Tree(heap, Ref(root), Obj(m)) && Tree(heap, value, w) && Disjoint(heap, Ref(root), Obj(m), value, w)
    requires forall n | n in heap :: n < next
    ensures Tree(out, Ref(root), Obj(SetIn(m, path, w)))
    ensures forall n | n in heap && !Has(heap, Ref(root), Obj(m), n) :: n in out && out[n] == heap[n]
  {
    hide *;
    ValidNonempty(path);
    CursorStarts(heap, root, m, path, next, value, w);
    out := heap;
    var current, free := root, next;
    ghost var now := m;
    for i := 0 to |path| - 1
      invariant CursorAt(heap, out, root, m, now, path, i, current, free, value, w)
    {
      CursorLives(heap, out, root, m, now, path, i, current, free, value, w);
      if path[i] !in out[current] || out[current][path[i]].Leaf? {
        ghost var before := out;
        out := out[free := map[]][current := out[current][path[i] := Ref(free)]];
        now := CursorGrows(heap, before, out, root, m, now, path, i, current, free, value, w);
        free := free + 1;
      }
      CursorSteps(heap, out, root, m, now, path, i, current, free, value, w);
      current := out[current][path[i]].id;
    }
    CursorLives(heap, out, root, m, now, path, |path| - 1, current, free, value, w);
    ghost var before := out;
    out := out[current := out[current][path[|path| - 1] := value]];
    CursorEnds(heap, before, out, root, m, now, path, current, free, value, w);
  }
}
