/** The check that a value is JSON: it ends on every finite object graph and decides what it should. */
module JsonCompatible {
  import opened Common

  // A value of the source language; arrays and objects are references into a heap.
  datatype Js =
    | Plain
    | Number(finite: bool)
    | Ref(id: nat)
    | NotJson

  // record: the prototype is null or the constructor is named Object. items are the present elements of an
  // array or the own enumerable values of an object.
  datatype Node = ArrayNode(items: seq<Js>) | ObjectNode(record: bool, items: seq<Js>)

  type Heap = map<nat, Node>

  predicate InHeap(heap: Heap, v: Js) {
    v.Ref? ==> v.id in heap
  }

  predicate Closed(heap: Heap) {
    forall id | id in heap :: forall i | 0 <= i < |heap[id].items| :: InHeap(heap, heap[id].items[i])
  }

  predicate AllInHeap(heap: Heap, items: seq<Js>) {
    forall i | 0 <= i < |items| :: InHeap(heap, items[i])
  }

  /*** The check ***/

  // The nodes not seen yet bound the recursion.
  ghost function Unseen(heap: Heap, seen: set<nat>): nat {
    |heap.Keys - seen|
  }

  lemma SeenMore(heap: Heap, seen: set<nat>, more: set<nat>)
    requires seen <= more
    ensures Unseen(heap, more) <= Unseen(heap, seen)
    ensures forall id | id in heap && id !in seen && id in more :: Unseen(heap, more) < Unseen(heap, seen)
  {
    var a, b := heap.Keys - more, heap.Keys - seen;
    assert b == a + (b - a);
    if id :| id in heap && id !in seen && id in more {
      assert id in b - a;
    }
  }

  /** The verdict on a value and the nodes seen after it. */
  ghost function Check(heap: Heap, v: Js, seen: set<nat>): (r: (bool, set<nat>))
    requires Closed(heap) && InHeap(heap, v)
    ensures seen <= r.1
    decreases Unseen(heap, seen), 0
  {
    match v
    case Plain => (true, seen)
    case Number(finite) => (finite, seen)
    case NotJson => (false, seen)
    case Ref(id) =>
      if id in seen || (heap[id].ObjectNode? && !heap[id].record) then (false, seen)
      else
        SeenMore(heap, seen, seen + {id});
        CheckAll(heap, heap[id].items, seen + {id})
  }

  ghost function CheckAll(heap: Heap, items: seq<Js>, seen: set<nat>): (r: (bool, set<nat>))
    requires Closed(heap) && AllInHeap(heap, items)
    ensures seen <= r.1
    decreases Unseen(heap, seen), |items| + 1
  {
    if items == [] then (true, seen)
    else
      var first := Check(heap, items[0], seen);
      SeenMore(heap, seen, first.1);
      if !first.0 then first else CheckAll(heap, items[1..], first.1)
  }

  /*** The check as it runs, on a set it adds to ***/

  class SeenSet {
    var nodes: set<nat>

    constructor ()
      ensures nodes == {}
    {
      nodes := {};
    }

    method Has(id: nat) returns (r: bool)
      ensures r == (id in nodes)
    {
      r := id in nodes;
    }

    method Add(id: nat)
      modifies this
      ensures nodes == old(nodes) + {id}
    {
      nodes := nodes + {id};
    }
  }

  method IsJsonCompatible(heap: Heap, v: Js, seen: SeenSet) returns (ok: bool)
    requires Closed(heap) && InHeap(heap, v)
    modifies seen
    ensures (ok, seen.nodes) == Check(heap, v, old(seen.nodes))
    decreases Unseen(heap, seen.nodes), 0
  {
    match v {
      case Plain => return true;
      case Number(finite) => return finite;
      case NotJson => return false;
      case Ref(id) =>
        var node := heap[id];
        var known := seen.Has(id);
        if known || (node.ObjectNode? && !node.record) {
          return false;
        }
        ghost var before := seen.nodes;
        SeenMore(heap, before, before + {id});
        seen.Add(id);
        var i := 0;
        while i < |node.items|
          invariant 0 <= i <= |node.items| && before + {id} <= seen.nodes
          invariant CheckAll(heap, node.items, before + {id}) == CheckAll(heap, node.items[i..], seen.nodes)
        {
          SeenMore(heap, before + {id}, seen.nodes);
          assert node.items[i..][0] == node.items[i] && node.items[i..][1..] == node.items[i + 1..];
          var fine := IsJsonCompatible(heap, node.items[i], seen);
          if !fine {
            return false;
          }
          i := i + 1;
        }
        return true;
    }
  }

  /*** What it decides ***/

  // Where a path of element positions leads.
  function Reach(heap: Heap, v: Js, path: seq<nat>): Option<Js>
    decreases |path|
  {
    if path == [] then Some(v)
    else if v.Ref? && v.id in heap && path[0] < |heap[v.id].items| then
      Reach(heap, heap[v.id].items[path[0]], path[1..])
    else None
  }

  predicate JsonKind(heap: Heap, v: Js) {
    match v
    case Plain => true
    case Number(finite) => finite
    case NotJson => false
    case Ref(id) => id in heap && (heap[id].ArrayNode? || heap[id].record)
  }

  // Every reachable value is of a JSON kind, no node is reached along two paths, and none is in seen.
  ghost predicate Sound(heap: Heap, v: Js, seen: set<nat>) {
    && (forall path: seq<nat> | Reach(heap, v, path).Some? :: JsonKind(heap, Reach(heap, v, path).value))
    && (forall path: seq<nat> | Reach(heap, v, path).Some? && Reach(heap, v, path).value.Ref? ::
          Reach(heap, v, path).value.id !in seen)
    && (forall p: seq<nat>, q: seq<nat> |
          Reach(heap, v, p).Some? && Reach(heap, v, p).value.Ref? && Reach(heap, v, p) == Reach(heap, v, q) :: p == q)
  }

  ghost predicate Leads(heap: Heap, v: Js, id: nat) {
    exists path: seq<nat> :: Reach(heap, v, path) == Some(Ref(id))
  }

  // The nodes reachable from a value.
  ghost function Ids(heap: Heap, v: Js): set<nat> {
    set id | id in heap.Keys && Leads(heap, v, id)
  }

  ghost predicate SoundAll(heap: Heap, items: seq<Js>, seen: set<nat>) {
    && (forall i | 0 <= i < |items| :: Sound(heap, items[i], seen))
    && (forall i, j | 0 <= i < j < |items| :: Ids(heap, items[i]) !! Ids(heap, items[j]))
  }

  ghost predicate LeadsAll(heap: Heap, items: seq<Js>, id: nat) {
    exists i | 0 <= i < |items| :: id in Ids(heap, items[i])
  }

  ghost function AllIds(heap: Heap, items: seq<Js>): set<nat> {
    set id | id in heap.Keys && LeadsAll(heap, items, id)
  }

  lemma ReachItem(heap: Heap, id: nat, i: nat, path: seq<nat>)
    requires id in heap && i < |heap[id].items|
    ensures Reach(heap, Ref(id), [i] + path) == Reach(heap, heap[id].items[i], path)
  {
    assert ([i] + path)[1..] == path;
  }

  // A path from a node is empty or goes through one of its items.
  lemma ReachSplit(heap: Heap, id: nat, path: seq<nat>)
    requires id in heap && Reach(heap, Ref(id), path).Some?
    ensures path != [] ==>
              && path[0] < |heap[id].items| && path == [path[0]] + path[1..]
              && Reach(heap, Ref(id), path) == Reach(heap, heap[id].items[path[0]], path[1..])
  {
  }

  lemma {:induction false} ReachInHeap(heap: Heap, v: Js, path: seq<nat>)
    requires Closed(heap) && InHeap(heap, v) && Reach(heap, v, path).Some?
    ensures InHeap(heap, Reach(heap, v, path).value)
    decreases |path|
  {
    if path != [] {
      ReachInHeap(heap, heap[v.id].items[path[0]], path[1..]);
    }
  }

  lemma IdsOf(heap: Heap, v: Js, path: seq<nat>, id: nat)
    requires Closed(heap) && InHeap(heap, v) && Reach(heap, v, path) == Some(Ref(id))
    ensures id in Ids(heap, v)
  {
    ReachInHeap(heap, v, path);
  }

  lemma NodeIds(heap: Heap, id: nat)
    requires Closed(heap) && id in heap
    ensures Ids(heap, Ref(id)) == {id} + AllIds(heap, heap[id].items)
  {
    var items := heap[id].items;
    forall k | k in Ids(heap, Ref(id)) ensures k in {id} + AllIds(heap, items) {
      var path: seq<nat> :| Reach(heap, Ref(id), path) == Some(Ref(k));
      ReachSplit(heap, id, path);
      if path != [] {
        IdsOf(heap, items[path[0]], path[1..], k);
      }
    }
    assert Reach(heap, Ref(id), []) == Some(Ref(id));
    forall k | k in AllIds(heap, items) ensures k in Ids(heap, Ref(id)) {
      var i :| 0 <= i < |items| && k in Ids(heap, items[i]);
      var path: seq<nat> :| Reach(heap, items[i], path) == Some(Ref(k));
      ReachItem(heap, id, i, path);
    }
  }

  lemma SoundItem(heap: Heap, id: nat, seen: set<nat>, i: nat)
    requires Closed(heap) && id in heap && Sound(heap, Ref(id), seen) && i < |heap[id].items|
    ensures Sound(heap, heap[id].items[i], seen + {id})
  {
    var x := heap[id].items[i];
    assert Reach(heap, Ref(id), []) == Some(Ref(id));
    forall path: seq<nat> | Reach(heap, x, path).Some?
      ensures JsonKind(heap, Reach(heap, x, path).value)
      ensures Reach(heap, x, path).value.Ref? ==> Reach(heap, x, path).value.id !in seen + {id}
    {
      ReachItem(heap, id, i, path);
    }
    forall p: seq<nat>, q: seq<nat> |
      Reach(heap, x, p).Some? && Reach(heap, x, p).value.Ref? && Reach(heap, x, p) == Reach(heap, x, q)
      ensures p == q
    {
      ReachItem(heap, id, i, p);
      ReachItem(heap, id, i, q);
      assert ([i] + p)[1..] == p && ([i] + q)[1..] == q;
    }
  }

  lemma SoundApart(heap: Heap, id: nat, seen: set<nat>, i: nat, j: nat)
    requires Closed(heap) && id in heap && Sound(heap, Ref(id), seen) && i < j < |heap[id].items|
    ensures Ids(heap, heap[id].items[i]) !! Ids(heap, heap[id].items[j])
  {
    var items := heap[id].items;
    forall k | k in Ids(heap, items[i]) ensures k !in Ids(heap, items[j]) {
      var p: seq<nat> :| Reach(heap, items[i], p) == Some(Ref(k));
      ReachItem(heap, id, i, p);
      forall q: seq<nat> ensures Reach(heap, items[j], q) != Some(Ref(k)) {
        ReachItem(heap, id, j, q);
        assert ([i] + p)[0] == i && ([j] + q)[0] == j;
      }
    }
  }

  lemma SoundNode(heap: Heap, id: nat, seen: set<nat>)
    requires Closed(heap) && id in heap && id !in seen && JsonKind(heap, Ref(id))
    requires SoundAll(heap, heap[id].items, seen + {id})
    ensures Sound(heap, Ref(id), seen)
  {
    var items := heap[id].items;
    forall path: seq<nat> | Reach(heap, Ref(id), path).Some?
      ensures JsonKind(heap, Reach(heap, Ref(id), path).value)
      ensures Reach(heap, Ref(id), path).value.Ref? ==> Reach(heap, Ref(id), path).value.id !in seen
      ensures Reach(heap, Ref(id), path) == Some(Ref(id)) ==> path == []
    {
      ReachSplit(heap, id, path);
      if path != [] {
        assert Sound(heap, items[path[0]], seen + {id});
      }
    }
    forall p: seq<nat>, q: seq<nat> |
      Reach(heap, Ref(id), p).Some? && Reach(heap, Ref(id), p).value.Ref?
      && Reach(heap, Ref(id), p) == Reach(heap, Ref(id), q)
      ensures p == q
    {
      ReachSplit(heap, id, p);
      ReachSplit(heap, id, q);
      if p != [] && q != [] {
        var k := Reach(heap, Ref(id), p).value.id;
        IdsOf(heap, items[p[0]], p[1..], k);
        IdsOf(heap, items[q[0]], q[1..], k);
        assert p[0] == q[0];
        assert Sound(heap, items[p[0]], seen + {id});
        assert p[1..] == q[1..];
      }
    }
  }

  lemma NodeSound(heap: Heap, id: nat, seen: set<nat>)
    requires Closed(heap) && id in heap
    ensures Sound(heap, Ref(id), seen) <==>
              id !in seen && JsonKind(heap, Ref(id)) && SoundAll(heap, heap[id].items, seen + {id})
  {
    hide Sound, Ids;
    if Sound(heap, Ref(id), seen) {
      RootSound(heap, Ref(id), seen);
      forall i | 0 <= i < |heap[id].items| ensures Sound(heap, heap[id].items[i], seen + {id}) {
        SoundItem(heap, id, seen, i);
      }
      forall i, j | 0 <= i < j < |heap[id].items| ensures Ids(heap, heap[id].items[i]) !! Ids(heap, heap[id].items[j]) {
        SoundApart(heap, id, seen, i, j);
      }
    } else if id !in seen && JsonKind(heap, Ref(id)) && SoundAll(heap, heap[id].items, seen + {id}) {
      SoundNode(heap, id, seen);
    }
  }

  lemma RootSound(heap: Heap, v: Js, seen: set<nat>)
    requires Sound(heap, v, seen)
    ensures JsonKind(heap, v) && (v.Ref? ==> v.id !in seen)
  {
    assert Reach(heap, v, []) == Some(v);
  }

  lemma LeafSound(heap: Heap, v: Js, seen: set<nat>)
    requires !v.Ref?
    ensures Sound(heap, v, seen) <==> JsonKind(heap, v)
    ensures Ids(heap, v) == {}
  {
    assert Reach(heap, v, []) == Some(v);
    assert forall path: seq<nat> :: path != [] ==> Reach(heap, v, path) == None;
  }

  // Being sound against more seen nodes means not leading to them.
  lemma SoundMore(heap: Heap, v: Js, seen: set<nat>, more: set<nat>)
    requires Closed(heap) && InHeap(heap, v)
    ensures Sound(heap, v, seen + more) <==> Sound(heap, v, seen) && Ids(heap, v) !! more
  {
    if Sound(heap, v, seen + more) {
      forall k | k in Ids(heap, v) ensures k !in more {
        var p: seq<nat> :| Reach(heap, v, p) == Some(Ref(k));
      }
    }
    if Sound(heap, v, seen) && Ids(heap, v) !! more {
      forall p: seq<nat> | Reach(heap, v, p).Some? && Reach(heap, v, p).value.Ref?
        ensures Reach(heap, v, p).value.id !in seen + more
      {
        IdsOf(heap, v, p, Reach(heap, v, p).value.id);
      }
    }
  }

  lemma RestSound(heap: Heap, items: seq<Js>, seen: set<nat>)
    requires Closed(heap) && AllInHeap(heap, items) && items != []
    ensures SoundAll(heap, items, seen) <==>
              Sound(heap, items[0], seen) && SoundAll(heap, items[1..], seen + Ids(heap, items[0]))
  {
    hide Sound, Ids;
    var rest, ids := items[1..], Ids(heap, items[0]);
    forall i | 1 <= i < |items|
      ensures Sound(heap, rest[i - 1], seen + ids) <==> Sound(heap, items[i], seen) && Ids(heap, items[i]) !! ids
    {
      SoundMore(heap, items[i], seen, ids);
    }
    if SoundAll(heap, items, seen) {
      forall i | 0 <= i < |rest| ensures Sound(heap, rest[i], seen + ids) {
        assert Sound(heap, items[i + 1], seen) && Ids(heap, items[0]) !! Ids(heap, items[i + 1]);
      }
      forall i, j | 0 <= i < j < |rest| ensures Ids(heap, rest[i]) !! Ids(heap, rest[j]) {
        assert Ids(heap, items[i + 1]) !! Ids(heap, items[j + 1]);
      }
    }
    if Sound(heap, items[0], seen) && SoundAll(heap, rest, seen + ids) {
      forall i | 0 <= i < |items| ensures Sound(heap, items[i], seen) {
        if i > 0 {
          assert Sound(heap, rest[i - 1], seen + ids);
        }
      }
      forall i, j | 0 <= i < j < |items| ensures Ids(heap, items[i]) !! Ids(heap, items[j]) {
        assert Sound(heap, rest[j - 1], seen + ids);
        if i > 0 {
          assert Ids(heap, rest[i - 1]) !! Ids(heap, rest[j - 1]);
        }
      }
    }
  }

  lemma RestIds(heap: Heap, items: seq<Js>)
    requires items != []
    ensures AllIds(heap, items) == Ids(heap, items[0]) + AllIds(heap, items[1..])
  {
    hide Leads;
    forall k | k in AllIds(heap, items) ensures k in Ids(heap, items[0]) + AllIds(heap, items[1..]) {
      var i :| 0 <= i < |items| && k in Ids(heap, items[i]);
      assert i > 0 ==> items[1..][i - 1] == items[i];
    }
    forall k | k in AllIds(heap, items[1..]) ensures k in AllIds(heap, items) {
      var i :| 0 <= i < |items[1..]| && k in Ids(heap, items[1..][i]);
      assert items[i + 1] == items[1..][i];
    }
  }

  lemma CheckRef(heap: Heap, id: nat, seen: set<nat>)
    requires Closed(heap) && id in heap
    ensures var known := id in seen || !JsonKind(heap, Ref(id));
            Check(heap, Ref(id), seen) == if known then (false, seen) else CheckAll(heap, heap[id].items, seen + {id})
  {
    hide CheckAll, Unseen;
  }

  lemma CheckLeaf(heap: Heap, v: Js, seen: set<nat>)
    requires Closed(heap) && !v.Ref?
    ensures Check(heap, v, seen) == (JsonKind(heap, v), seen)
  {
    hide CheckAll, Unseen;
  }

  lemma CheckFirst(heap: Heap, items: seq<Js>, seen: set<nat>)
    requires Closed(heap) && AllInHeap(heap, items) && items != []
    ensures var first := Check(heap, items[0], seen);
            CheckAll(heap, items, seen) == if !first.0 then first else CheckAll(heap, items[1..], first.1)
  {
    hide Check, Unseen;
  }

  /** The verdict is soundness, and what a sound value adds to the seen nodes is what it leads to. */
  lemma {:induction false} CheckDecides(heap: Heap, v: Js, seen: set<nat>)
    requires Closed(heap) && InHeap(heap, v)
    ensures Check(heap, v, seen).0 <==> Sound(heap, v, seen)
    ensures Check(heap, v, seen).0 ==> Check(heap, v, seen).1 == seen + Ids(heap, v)
    decreases Unseen(heap, seen), 0
  {
    hide Sound, SoundAll, Ids, AllIds, Check, CheckAll, Unseen;
    if v.Ref? {
      CheckRef(heap, v.id, seen);
      NodeSound(heap, v.id, seen);
      NodeIds(heap, v.id);
      if v.id !in seen && JsonKind(heap, v) {
        SeenMore(heap, seen, seen + {v.id});
        CheckAllDecides(heap, heap[v.id].items, seen + {v.id});
      }
    } else {
      CheckLeaf(heap, v, seen);
      LeafSound(heap, v, seen);
    }
  }

  lemma {:induction false} CheckAllDecides(heap: Heap, items: seq<Js>, seen: set<nat>)
    requires Closed(heap) && AllInHeap(heap, items)
    ensures CheckAll(heap, items, seen).0 <==> SoundAll(heap, items, seen)
    ensures CheckAll(heap, items, seen).0 ==> CheckAll(heap, items, seen).1 == seen + AllIds(heap, items)
    decreases Unseen(heap, seen), |items| + 1
  {
    hide Sound, Ids, SoundAll, AllIds, Check, Unseen;
    if items == [] {
      NoItems(heap, seen);
    } else {
      hide CheckAll;
      var first := Check(heap, items[0], seen);
      CheckFirst(heap, items, seen);
      CheckDecides(heap, items[0], seen);
      RestSound(heap, items, seen);
      RestIds(heap, items);
      SeenMore(heap, seen, first.1);
      if first.0 {
        CheckAllDecides(heap, items[1..], first.1);
      }
    }
  }

  lemma NoItems(heap: Heap, seen: set<nat>)
    ensures SoundAll(heap, [], seen) && AllIds(heap, []) == {}
  {
  }

  // A tree of JSON kinds: what JSON text can represent.
  ghost predicate JsonTree(heap: Heap, v: Js) {
    && (forall path: seq<nat> | Reach(heap, v, path).Some? :: JsonKind(heap, Reach(heap, v, path).value))
    && (forall p: seq<nat>, q: seq<nat> |
          Reach(heap, v, p).Some? && Reach(heap, v, p).value.Ref? && Reach(heap, v, p) == Reach(heap, v, q) :: p == q)
  }

  /**
   On every finite object graph, cyclic ones included, a value passes exactly when all reachable values are JSON
   and no array or object is reached twice.
   */
  lemma CompatibleIffTree(heap: Heap, v: Js)
    requires Closed(heap) && InHeap(heap, v)
    ensures Check(heap, v, {}).0 <==> JsonTree(heap, v)
  {
    CheckDecides(heap, v, {});
  }
}
