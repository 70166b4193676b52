/**
  What the window's graph-edit handlers do to its lists and dictionaries, as functions
  on their values: the references held by nodeData, edgeData, groupData, _dataMap and
  _groupMap. Positions and group titles live in the objects and are dealt with by the
  window's methods.
*/
module Bookkeeping {
  import opened Wrappers
  import opened BoardData
  import opened Serialisation

  /** The kind of a GraphView element, fixed when the widget is created. */
  datatype ElementKind =
    | BoardNode(data: BoardNodeData)                          // a node widget (IBoardElement) and its Data
    | EdgeElement(output: BoardNodeData, input: BoardNodeData)  // an Edge: the Data of edge.output.node and edge.input.node
    | GroupElement                                            // a Group
    | OtherElement                                            // any other GraphElement

  /** A GraphView element, compared by reference. `title` is a Group's title. */
  class GraphElement {
    const kind: ElementKind
    var position: Rect
    var title: string

    constructor (kind: ElementKind, position: Rect, title: string)
      ensures this.kind == kind && this.position == position && this.title == title
    {
      this.kind := kind;
      this.position := position;
      this.title := title;
    }
  }

  /** A GraphViewChange: three element lists, each of which may be null. */
  datatype GraphViewChange = GraphViewChange(
    movedElements: Option<seq<GraphElement>>,
    elementsToRemove: Option<seq<GraphElement>>,
    edgesToCreate: Option<seq<GraphElement>>)

  /** The window's five collections, as references. */
  datatype BoardLists = BoardLists(
    nodeData: Option<seq<NodeData>>,
    edgeData: Option<seq<RefEdge>>,
    groupData: Option<seq<RefGroup>>,
    dataMap: map<GraphElement, NodeData>,
    groupMap: map<GraphElement, RefGroup>)

  /** The collections after a handler ran, and the exception it threw, if any. */
  datatype Ran = Ran(lists: BoardLists, thrown: Option<Failure>)

  predicate Injective<K, V(==)>(m: map<K, V>)
  {
    forall a, b :: a in m && b in m && a != b ==> m[a] != m[b]
  }

  /**
    What the handlers keep true: no record appears twice in nodeData, and no record is
    mapped from two elements.
  */
  predicate Consistent(l: BoardLists)
  {
    (l.nodeData.Some? ==> Distinct(l.nodeData.value)) && Injective(l.dataMap)
  }

  // ---------------------------------------------------------------------------------
  // List.Remove and List.RemoveAll
  // ---------------------------------------------------------------------------------

  function FirstIndexOf<T(==)>(s: seq<T>, x: T): (i: nat)
    requires x in s
    ensures i < |s| && s[i] == x && x !in s[..i]
  {
    if s[0] == x then 0 else 1 + FirstIndexOf(s[1..], x)
  }

  /**
    List.Remove(x): the list without the first occurrence of `x`, the entries before it
    keeping their places and the entries after it moving down by one; unchanged when `x`
    is absent.
  */
  function RemoveFirst<T(==)>(s: seq<T>, x: T): (r: seq<T>)
    ensures x !in s ==> r == s
    ensures |r| == if x in s then |s| - 1 else |s|
    ensures multiset(r) == multiset(s) - multiset{x}
    ensures x in s ==>
              forall k :: 0 <= k < |r| ==> r[k] == if k < FirstIndexOf(s, x) then s[k] else s[k + 1]
  {
    if x !in s then s
    else
      var i := FirstIndexOf(s, x);
      assert s == s[..i] + [x] + s[i + 1..];
      s[..i] + s[i + 1..]
  }

  /** Removing the first occurrence from a list without repetitions removes the element altogether. */
  lemma RemoveFirstDistinct<T>(s: seq<T>, x: T)
    requires Distinct(s)
    ensures Distinct(RemoveFirst(s, x))
    ensures x !in RemoveFirst(s, x)
  {
    if x in s {
      var r, i := RemoveFirst(s, x), FirstIndexOf(s, x);
      assert forall k :: 0 <= k < |r| ==> r[k] == s[if k < i then k else k + 1];
      forall a, b | 0 <= a < b < |r|
        ensures r[a] != r[b]
      {
        var a', b' := if a < i then a else a + 1, if b < i then b else b + 1;
        assert s[a'] != s[b'];
      }
      forall k | 0 <= k < |r|
        ensures r[k] != x
      {
        var k' := if k < i then k else k + 1;
        assert s[k'] != s[i];
      }
    }
  }

  predicate Matches(d: RefEdge, from: BoardNodeData, to: BoardNodeData)
  {
    d.from == from && d.to == to
  }

  /**
    edgeData.RemoveAll(d => d.from == from && d.to == to): every matching entry goes,
    every other entry stays, as often as it was there.
  */
  function RemoveMatching(edges: seq<RefEdge>, from: BoardNodeData, to: BoardNodeData): (r: seq<RefEdge>)
    ensures forall d :: d in r ==> !Matches(d, from, to)
    ensures multiset(r) == multiset(edges)[RefEdge(from, to) := 0]
    ensures |r| <= |edges|
  {
    if edges == [] then []
    else
      assert edges == [edges[0]] + edges[1..];
      if Matches(edges[0], from, to) then RemoveMatching(edges[1..], from, to)
      else [edges[0]] + RemoveMatching(edges[1..], from, to)
  }

  /** RemoveAll keeps the order of what it keeps: it distributes over concatenation. */
  lemma {:induction false} RemoveMatchingConcat(a: seq<RefEdge>, b: seq<RefEdge>, from: BoardNodeData, to: BoardNodeData)
    ensures RemoveMatching(a + b, from, to) == RemoveMatching(a, from, to) + RemoveMatching(b, from, to)
  {
    if a == [] {
      assert a + b == b;
    } else {
      assert (a + b)[0] == a[0];
      assert (a + b)[1..] == a[1..] + b;
      RemoveMatchingConcat(a[1..], b, from, to);
    }
  }

  /** A list with no matching entry is left as it is; removing twice removes nothing more. */
  lemma {:induction false} RemoveMatchingNoMatch(edges: seq<RefEdge>, from: BoardNodeData, to: BoardNodeData)
    requires forall d :: d in edges ==> !Matches(d, from, to)
    ensures RemoveMatching(edges, from, to) == edges
  {
    if edges != [] {
      assert edges[0] in edges;
      assert forall d :: d in edges[1..] ==> d in edges;
      RemoveMatchingNoMatch(edges[1..], from, to);
    }
  }

  lemma RemoveMatchingIdempotent(edges: seq<RefEdge>, from: BoardNodeData, to: BoardNodeData)
    ensures RemoveMatching(RemoveMatching(edges, from, to), from, to) == RemoveMatching(edges, from, to)
  {
    RemoveMatchingNoMatch(RemoveMatching(edges, from, to), from, to);
  }

  // ---------------------------------------------------------------------------------
  // OnGraphChanged: elementsToRemove
  // ---------------------------------------------------------------------------------

  /**
    The first part of deleting an element: an element that is a key of _dataMap loses
    its entry, then its record is removed from nodeData (which throws when nodeData is null).
  */
  function RemoveMapped(l: BoardLists, e: GraphElement): (r: Ran)
    ensures r.lists.dataMap == l.dataMap - {e}
    ensures r.lists.edgeData == l.edgeData && r.lists.groupData == l.groupData && r.lists.groupMap == l.groupMap
    ensures r.thrown == (if e in l.dataMap && l.nodeData.None? then Some(NullReference) else None)
    ensures e !in l.dataMap || l.nodeData.None? ==> r.lists.nodeData == l.nodeData
    ensures e in l.dataMap && l.nodeData.Some? ==>
              r.lists.nodeData.Some?
              && multiset(r.lists.nodeData.value) == multiset(l.nodeData.value) - multiset{l.dataMap[e]}
  {
    if e !in l.dataMap then Ran(l, None)
    else
      var l1 := l.(dataMap := l.dataMap - {e});
      if l.nodeData.None? then Ran(l1, Some(NullReference))
      else Ran(l1.(nodeData := Some(RemoveFirst(l.nodeData.value, l.dataMap[e]))), None)
  }

  /**
    The second and third steps of deleting an element: for an Edge, every edgeData entry
    with the same endpoints; for a Group, its _groupMap entry (missing: KeyNotFound) and
    that GroupData in groupData. The node records are not touched.
  */
  function RemoveLinks(l: BoardLists, e: GraphElement): (r: Ran)
    ensures r.lists.nodeData == l.nodeData && r.lists.dataMap == l.dataMap
    ensures !e.kind.EdgeElement? ==> r.lists.edgeData == l.edgeData
    ensures e.kind.EdgeElement? && r.thrown.None? ==>
              l.edgeData.Some? && r.lists.edgeData.Some?
              && multiset(r.lists.edgeData.value) == multiset(l.edgeData.value)[RefEdge(e.kind.output, e.kind.input) := 0]
    ensures !e.kind.GroupElement? ==> r.lists.groupData == l.groupData && r.lists.groupMap == l.groupMap
    ensures r.thrown.None? && e.kind.GroupElement? ==> r.lists.groupMap == l.groupMap - {e}
    ensures r.thrown.Some? ==>
              r.thrown == Some(NullReference) || (e.kind.GroupElement? && r.thrown == Some(KeyNotFound))
  {
    match e.kind
    case EdgeElement(from, to) =>
      if l.edgeData.None? then Ran(l, Some(NullReference))
      else Ran(l.(edgeData := Some(RemoveMatching(l.edgeData.value, from, to))), None)
    case GroupElement =>
      if e !in l.groupMap then Ran(l, Some(KeyNotFound))
      else if l.groupData.None? then Ran(l, Some(NullReference))
      else Ran(l.(groupData := Some(RemoveFirst(l.groupData.value, l.groupMap[e])),
                  groupMap := l.groupMap - {e}), None)
    case _ => Ran(l, None)
  }

  /** Deleting one element, in the three steps of the source: RemoveMapped, then RemoveLinks. */
  function RemoveStep(l: BoardLists, e: GraphElement): (r: Ran)
    ensures r.lists.dataMap == l.dataMap - {e}
    ensures !e.kind.EdgeElement? ==> r.lists.edgeData == l.edgeData
    ensures !e.kind.GroupElement? ==> r.lists.groupData == l.groupData && r.lists.groupMap == l.groupMap
    ensures r.thrown.None? && e.kind.GroupElement? ==> r.lists.groupMap == l.groupMap - {e}
    ensures r.thrown.Some? ==>
              r.thrown == Some(NullReference) || (e.kind.GroupElement? && r.thrown == Some(KeyNotFound))
  {
    var r := RemoveMapped(l, e);
    if r.thrown.Some? then r else RemoveLinks(r.lists, e)
  }

  /** The removal loop: each element in turn, stopping at the first exception. */
  function RemoveAll(l: BoardLists, es: seq<GraphElement>): (r: Ran)
    ensures forall x :: x in r.lists.dataMap ==> x in l.dataMap && r.lists.dataMap[x] == l.dataMap[x]
    ensures forall x :: x in l.dataMap && x !in es ==> x in r.lists.dataMap
    ensures r.thrown.None? ==> forall x :: x in es ==> x !in r.lists.dataMap
    ensures r.thrown.Some? ==> r.thrown == Some(NullReference) || r.thrown == Some(KeyNotFound)
    decreases es
  {
    if es == [] then Ran(l, None)
    else
      var r := RemoveStep(l, es[0]);
      if r.thrown.Some? then r
      else
        assert forall x :: x in es ==> x == es[0] || x in es[1..];
        RemoveAll(r.lists, es[1..])
  }

  // ---------------------------------------------------------------------------------
  // OnGraphChanged: edgesToCreate
  // ---------------------------------------------------------------------------------

  function EdgeOf(e: GraphElement): RefEdge
    requires e.kind.EdgeElement?
  {
    RefEdge(e.kind.output, e.kind.input)
  }

  predicate AllEdges(es: seq<GraphElement>)
  {
    forall e :: e in es ==> e.kind.EdgeElement?
  }

  /** The edges a list of created Edge elements stands for, in order. */
  function EdgesOf(es: seq<GraphElement>): seq<RefEdge>
    requires AllEdges(es)
  {
    seq(|es|, i requires 0 <= i < |es| => EdgeOf(es[i]))
  }

  /** edgeData ??= new List; then OnEdgeAdded for each created edge. A null list of created edges changes nothing. */
  function AddEdges(l: BoardLists, created: Option<seq<GraphElement>>): (r: BoardLists)
    requires created.Some? ==> AllEdges(created.value)
    ensures r.nodeData == l.nodeData && r.groupData == l.groupData
    ensures r.dataMap == l.dataMap && r.groupMap == l.groupMap
    ensures created.None? ==> r.edgeData == l.edgeData
    ensures created.Some? ==>
              r.edgeData.Some?
              && |r.edgeData.value| == |Items(l.edgeData)| + |created.value|
              && r.edgeData.value[..|Items(l.edgeData)|] == Items(l.edgeData)
              && forall k :: 0 <= k < |created.value| ==>
                   r.edgeData.value[|Items(l.edgeData)| + k] == RefEdge(created.value[k].kind.output, created.value[k].kind.input)
  {
    if created.None? then l
    else l.(edgeData := Some(Items(l.edgeData) + EdgesOf(created.value)))
  }

  // ---------------------------------------------------------------------------------
  // Properties of deleting elements
  // ---------------------------------------------------------------------------------

  /**
    Deleting an Edge that is not a _dataMap key removes from a non-null edgeData every
    entry with its two endpoints, keeps every other entry, and changes nothing else; a
    null edgeData throws.
  */
  lemma DeleteEdge(l: BoardLists, e: GraphElement)
    requires e.kind.EdgeElement? && e !in l.dataMap
    ensures l.edgeData.None? ==> RemoveStep(l, e) == Ran(l, Some(NullReference))
    ensures l.edgeData.Some? ==>
              var r := RemoveStep(l, e);
              r.thrown.None?
              && r.lists == l.(edgeData := r.lists.edgeData)
              && r.lists.edgeData.Some?
              && (forall d :: d in r.lists.edgeData.value <==> d in l.edgeData.value && d != EdgeOf(e))
  {
    if l.edgeData.Some? {
      var kept := RemoveStep(l, e).lists.edgeData.value;
      forall d | d in l.edgeData.value && d != EdgeOf(e)
        ensures d in kept
      {
        assert multiset(l.edgeData.value)[d] > 0;
        assert multiset(kept)[d] > 0;
      }
      forall d | d in kept
        ensures d in l.edgeData.value && d != EdgeOf(e)
      {
        assert multiset(kept)[d] > 0;
        assert multiset(l.edgeData.value)[d] > 0;
      }
    }
  }

  /**
    Deleting a node element that is a _dataMap key removes that entry and the first
    occurrence of its record from a non-null nodeData; in a consistent board the record
    is then gone from the list, which is one shorter when it held the record.
  */
  lemma DeleteMappedNode(l: BoardLists, e: GraphElement)
    requires Consistent(l)
    requires e.kind.BoardNode? && e in l.dataMap && l.nodeData.Some?
    ensures var r := RemoveStep(l, e);
            var nd := l.dataMap[e];
            r.thrown.None?
            && r.lists.dataMap == l.dataMap - {e}
            && r.lists.nodeData == Some(RemoveFirst(l.nodeData.value, nd))
            && nd !in r.lists.nodeData.value
            && nd !in r.lists.dataMap.Values
            && (nd in l.nodeData.value ==> |r.lists.nodeData.value| == |l.nodeData.value| - 1)
            && r.lists.edgeData == l.edgeData && r.lists.groupData == l.groupData
            && r.lists.groupMap == l.groupMap
  {
    RemoveFirstDistinct(l.nodeData.value, l.dataMap[e]);
  }

  /** Deleting an element that is neither mapped, nor an Edge, nor a Group changes nothing. */
  lemma DeleteUnmapped(l: BoardLists, e: GraphElement)
    requires e !in l.dataMap && !e.kind.EdgeElement? && !e.kind.GroupElement?
    ensures RemoveStep(l, e) == Ran(l, None)
  {
  }

  /**
    Deleting a Group that is not in _groupMap throws KeyNotFound; one that is loses its
    entry and its GroupData leaves groupData.
  */
  lemma DeleteGroup(l: BoardLists, e: GraphElement)
    requires e.kind.GroupElement? && e !in l.dataMap
    ensures e !in l.groupMap ==> RemoveStep(l, e) == Ran(l, Some(KeyNotFound))
    ensures e in l.groupMap && l.groupData.Some? ==>
              RemoveStep(l, e) == Ran(l.(groupData := Some(RemoveFirst(l.groupData.value, l.groupMap[e])),
                                         groupMap := l.groupMap - {e}), None)
  {
  }

  /** Deleting one element keeps the board consistent, whether or not it throws. */
  lemma RemoveStepConsistent(l: BoardLists, e: GraphElement)
    requires Consistent(l)
    ensures Consistent(RemoveStep(l, e).lists)
  {
    var r := RemoveMapped(l, e).lists;
    if e in l.dataMap {
      InjectiveWithout(l.dataMap, e);
      if l.nodeData.Some? {
        RemoveFirstDistinct(l.nodeData.value, l.dataMap[e]);
      }
    }
    assert Consistent(r);
  }

  /** Dropping a key from an injective map leaves it injective. */
  lemma InjectiveWithout<K, V>(m: map<K, V>, k: K)
    requires Injective(m)
    ensures Injective(m - {k})
  {
  }

  /** Deleting a list of elements keeps the board consistent. */
  lemma {:induction false} RemoveAllConsistent(l: BoardLists, es: seq<GraphElement>)
    requires Consistent(l)
    ensures Consistent(RemoveAll(l, es).lists)
    decreases es
  {
    if es != [] {
      RemoveStepConsistent(l, es[0]);
      RemoveAllConsistent(RemoveStep(l, es[0]).lists, es[1..]);
    }
  }
}
