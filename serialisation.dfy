/**
  The conversion between the window's reference-based board (edges and groups hold
  BoardNodeData references) and the asset's index-based board (edges and groups hold
  indices into the node list), as done by WorkBoardWindow.SaveToTarget and by the load
  part of WorkBoardWindow.SetTarget.
*/
module Serialisation {
  import opened Wrappers
  import opened BoardData

  /** The window's EdgeData struct: the payloads of the edge's output and input nodes. */
  datatype RefEdge = RefEdge(from: BoardNodeData, to: BoardNodeData)

  /** The contents of a window GroupData object. */
  datatype GroupValue = GroupValue(title: string, members: seq<BoardNodeData>)

  /** The window's GroupData class, renamed and refilled in place by the group handlers. */
  class RefGroup {
    var title: string
    var containedNodes: seq<BoardNodeData>

    constructor (title: string, containedNodes: seq<BoardNodeData>)
      ensures this.title == title && this.containedNodes == containedNodes
    {
      this.title := title;
      this.containedNodes := containedNodes;
    }

    function Value(): GroupValue
      reads this
    {
      GroupValue(title, containedNodes)
    }
  }

  /** The current contents of a list of group objects. */
  function Values(groups: seq<RefGroup>): (vs: seq<GroupValue>)
    reads groups
    ensures |vs| == |groups|
    ensures forall i :: 0 <= i < |groups| ==> vs[i] == groups[i].Value()
  {
    if groups == [] then [] else [groups[0].Value()] + Values(groups[1..])
  }

  // ---------------------------------------------------------------------------------
  // Looking a payload up in the node list
  // ---------------------------------------------------------------------------------

  /** Some record of `nodes` holds the payload `x` (compared by reference). */
  predicate Contains(nodes: seq<NodeData>, x: BoardNodeData)
  {
    exists j :: 0 <= j < |nodes| && nodes[j].data == x
  }

  /** No two records of `nodes` hold the same payload. */
  predicate DistinctData(nodes: seq<NodeData>)
  {
    forall i, j :: 0 <= i < j < |nodes| ==> nodes[i].data != nodes[j].data
  }

  /**
    List.FindIndex(n => n.data == x): the index of the first record holding `x`, or -1
    when there is none.
  */
  function FindIndex(nodes: seq<NodeData>, x: BoardNodeData): (r: int)
    ensures -1 <= r < |nodes|
    ensures r == -1 <==> !Contains(nodes, x)
    ensures 0 <= r ==> nodes[r].data == x && forall j :: 0 <= j < r ==> nodes[j].data != x
  {
    if |nodes| == 0 then -1
    else if nodes[0].data == x then 0
    else
      var k := FindIndex(nodes[1..], x);
      assert forall j :: 1 <= j < |nodes| ==> nodes[j] == nodes[1..][j - 1];
      if k == -1 then -1 else k + 1
  }

  /** In a list without repeated payloads, the index found for a record's payload is the record's own index. */
  lemma {:induction false} FindIndexOfDistinct(nodes: seq<NodeData>, i: int)
    requires DistinctData(nodes)
    requires 0 <= i < |nodes|
    ensures FindIndex(nodes, nodes[i].data) == i
  {
    assert Contains(nodes, nodes[i].data);
  }

  // ---------------------------------------------------------------------------------
  // Save: references to indices
  // ---------------------------------------------------------------------------------

  predicate InRange(nodes: seq<NodeData>, i: int)
  {
    0 <= i < |nodes|
  }

  function SaveEdge(nodes: seq<NodeData>, e: RefEdge): EdgeData
  {
    EdgeData(FindIndex(nodes, e.from), FindIndex(nodes, e.to))
  }

  /** containedNodes.Select(node => nodeData.FindIndex(n => n.data == node)) */
  function SaveIndices(nodes: seq<NodeData>, members: seq<BoardNodeData>): seq<int>
  {
    seq(|members|, i requires 0 <= i < |members| => FindIndex(nodes, members[i]))
  }

  function SaveGroup(nodes: seq<NodeData>, g: GroupValue): GroupData
  {
    GroupData(g.title, SaveIndices(nodes, g.members))
  }

  /**
    The edges SaveToTarget writes: one per window edge, in order, each end the index of a
    record holding that endpoint (the first one), or -1 exactly when no record holds it.
  */
  function SavedEdges(nodes: seq<NodeData>, edges: seq<RefEdge>): (saved: seq<EdgeData>)
    ensures |saved| == |edges|
    ensures forall i :: 0 <= i < |edges| ==>
              (saved[i].fromIndex == -1 <==> !Contains(nodes, edges[i].from))
              && (saved[i].toIndex == -1 <==> !Contains(nodes, edges[i].to))
    ensures forall i :: 0 <= i < |edges| ==>
              (0 <= saved[i].fromIndex ==> InRange(nodes, saved[i].fromIndex) && nodes[saved[i].fromIndex].data == edges[i].from)
              && (0 <= saved[i].toIndex ==> InRange(nodes, saved[i].toIndex) && nodes[saved[i].toIndex].data == edges[i].to)
  {
    seq(|edges|, i requires 0 <= i < |edges| => SaveEdge(nodes, edges[i]))
  }

  /**
    The groups SaveToTarget writes: one per window group, in order, with its title and,
    for each member, the index of a record holding it (the first one), or -1 exactly
    when no record holds it.
  */
  function SavedGroups(nodes: seq<NodeData>, groups: seq<GroupValue>): (saved: seq<GroupData>)
    ensures |saved| == |groups|
    ensures forall i :: 0 <= i < |groups| ==>
              saved[i].title == groups[i].title && |saved[i].containedNodes| == |groups[i].members|
    ensures forall i, m :: 0 <= i < |groups| && 0 <= m < |groups[i].members| ==>
              var index := saved[i].containedNodes[m];
              (index == -1 <==> !Contains(nodes, groups[i].members[m]))
              && (0 <= index ==> InRange(nodes, index) && nodes[index].data == groups[i].members[m])
  {
    seq(|groups|, i requires 0 <= i < |groups| => SaveGroup(nodes, groups[i]))
  }

  // ---------------------------------------------------------------------------------
  // Load: indices to references; an index outside the node list throws
  // ---------------------------------------------------------------------------------

  predicate EdgeInRange(nodes: seq<NodeData>, e: EdgeData)
  {
    InRange(nodes, e.fromIndex) && InRange(nodes, e.toIndex)
  }

  function LoadEdge(nodes: seq<NodeData>, e: EdgeData): RefEdge
    requires EdgeInRange(nodes, e)
  {
    RefEdge(nodes[e.fromIndex].data, nodes[e.toIndex].data)
  }

  /**
    The edges SetTarget has appended when its edge loop stops: one per saved edge, in
    order, up to the first saved edge with an index outside `nodes`, where
    nodeData[edge.fromIndex] throws.
  */
  function LoadedEdges(nodes: seq<NodeData>, saved: seq<EdgeData>): (loaded: seq<RefEdge>)
    ensures |loaded| <= |saved|
    ensures forall k :: 0 <= k < |loaded| ==>
              EdgeInRange(nodes, saved[k]) && loaded[k] == LoadEdge(nodes, saved[k])
    ensures |loaded| < |saved| ==> !EdgeInRange(nodes, saved[|loaded|])
  {
    if saved == [] || !EdgeInRange(nodes, saved[0]) then []
    else [LoadEdge(nodes, saved[0])] + LoadedEdges(nodes, saved[1..])
  }

  /**
    containedNodes.Select(i => nodeData[i].data).ToList(): the payloads at the given
    indices, or None (the indexer throws) when one of them is outside `nodes`.
  */
  function LoadMembers(nodes: seq<NodeData>, indices: seq<int>): (r: Option<seq<BoardNodeData>>)
    ensures r.Some? <==> forall k :: 0 <= k < |indices| ==> InRange(nodes, indices[k])
    ensures r.Some? ==> |r.value| == |indices|
                        && forall k :: 0 <= k < |indices| ==> r.value[k] == nodes[indices[k]].data
  {
    if indices == [] then Some([])
    else if !InRange(nodes, indices[0]) then None
    else
      var rest := LoadMembers(nodes, indices[1..]);
      assert forall k :: 1 <= k < |indices| ==> indices[k] == indices[1..][k - 1];
      if rest.None? then None else Some([nodes[indices[0]].data] + rest.value)
  }

  function LoadGroup(nodes: seq<NodeData>, g: GroupData): Option<GroupValue>
  {
    var members := LoadMembers(nodes, g.containedNodes);
    if members.Some? then Some(GroupValue(g.title, members.value)) else None
  }

  /**
    The groups SetTarget has appended when its group loop stops: one per saved group, in
    order, up to the first saved group with a member index outside `nodes`.
  */
  function LoadedGroups(nodes: seq<NodeData>, saved: seq<GroupData>): (loaded: seq<GroupValue>)
    ensures |loaded| <= |saved|
    ensures forall k :: 0 <= k < |loaded| ==> LoadGroup(nodes, saved[k]) == Some(loaded[k])
    ensures |loaded| < |saved| ==> LoadGroup(nodes, saved[|loaded|]).None?
  {
    if saved == [] || LoadGroup(nodes, saved[0]).None? then []
    else [LoadGroup(nodes, saved[0]).value] + LoadedGroups(nodes, saved[1..])
  }

  /** A list of `n` loaded edges that stops where LoadedEdges stops is LoadedEdges. */
  lemma LoadedEdgesUnique(nodes: seq<NodeData>, saved: seq<EdgeData>, edges: seq<RefEdge>)
    requires |edges| <= |saved|
    requires forall k :: 0 <= k < |edges| ==>
               EdgeInRange(nodes, saved[k]) && edges[k] == LoadEdge(nodes, saved[k])
    requires |edges| < |saved| ==> !EdgeInRange(nodes, saved[|edges|])
    ensures LoadedEdges(nodes, saved) == edges
  {
  }

  /** A list of `n` loaded groups that stops where LoadedGroups stops is LoadedGroups. */
  lemma LoadedGroupsUnique(nodes: seq<NodeData>, saved: seq<GroupData>, groups: seq<GroupValue>)
    requires |groups| <= |saved|
    requires forall k :: 0 <= k < |groups| ==> LoadGroup(nodes, saved[k]) == Some(groups[k])
    requires |groups| < |saved| ==> LoadGroup(nodes, saved[|groups|]).None?
    ensures LoadedGroups(nodes, saved) == groups
  {
  }

  // ---------------------------------------------------------------------------------
  // Round trips
  // ---------------------------------------------------------------------------------

  /** Every endpoint of every edge is held by some record of `nodes`. */
  predicate EdgesResolve(nodes: seq<NodeData>, edges: seq<RefEdge>)
  {
    forall e :: e in edges ==> Contains(nodes, e.from) && Contains(nodes, e.to)
  }

  /** Every member of a group is held by some record of `nodes`. */
  predicate MembersResolve(nodes: seq<NodeData>, members: seq<BoardNodeData>)
  {
    forall x :: x in members ==> Contains(nodes, x)
  }

  /** Every member of every group is held by some record of `nodes`. */
  predicate GroupsResolve(nodes: seq<NodeData>, groups: seq<GroupValue>)
  {
    forall g :: g in groups ==> MembersResolve(nodes, g.members)
  }

  /** Whatever loads, resolves: every endpoint of a loaded edge is the payload of a record of `nodes`. */
  lemma LoadedEdgesResolve(nodes: seq<NodeData>, saved: seq<EdgeData>)
    ensures EdgesResolve(nodes, LoadedEdges(nodes, saved))
  {
    var loaded := LoadedEdges(nodes, saved);
    forall e | e in loaded
      ensures Contains(nodes, e.from) && Contains(nodes, e.to)
    {
      var k :| 0 <= k < |loaded| && loaded[k] == e;
      assert nodes[saved[k].fromIndex].data == e.from;
      assert nodes[saved[k].toIndex].data == e.to;
    }
  }

  /** Every member of a loaded group is the payload of a record of `nodes`. */
  lemma LoadedGroupsResolve(nodes: seq<NodeData>, saved: seq<GroupData>)
    ensures GroupsResolve(nodes, LoadedGroups(nodes, saved))
  {
    var loaded := LoadedGroups(nodes, saved);
    forall g, x | g in loaded && x in g.members
      ensures Contains(nodes, x)
    {
      var k :| 0 <= k < |loaded| && loaded[k] == g;
      var m :| 0 <= m < |g.members| && g.members[m] == x;
      assert LoadMembers(nodes, saved[k].containedNodes).value[m] == x;
      assert nodes[saved[k].containedNodes[m]].data == x;
    }
  }

  /**
    Saving edges whose endpoints all occur in `nodes`, then loading them against a list
    of the same length (the clones), gives one edge per original edge, each endpoint
    replaced by the payload of the clone at the index of its first occurrence.
  */
  lemma {:induction false} EdgesSaveLoad(nodes: seq<NodeData>, clones: seq<NodeData>, edges: seq<RefEdge>)
    requires |clones| == |nodes|
    requires EdgesResolve(nodes, edges)
    ensures var loaded := LoadedEdges(clones, SavedEdges(nodes, edges));
            |loaded| == |edges|
            && forall i :: 0 <= i < |edges| ==>
                 loaded[i] == RefEdge(clones[FindIndex(nodes, edges[i].from)].data,
                                      clones[FindIndex(nodes, edges[i].to)].data)
  {
    var saved := SavedEdges(nodes, edges);
    forall k | 0 <= k < |edges|
      ensures EdgeInRange(clones, saved[k])
    {
      assert edges[k] in edges;
    }
  }

  /**
    The load/save round trip of the board: when the payloads in `nodes` are pairwise
    distinct, each loaded edge's endpoint is the payload of the clone at the very index
    where the original endpoint sits.
  */
  lemma EdgesRoundTrip(nodes: seq<NodeData>, clones: seq<NodeData>, edges: seq<RefEdge>)
    requires |clones| == |nodes|
    requires DistinctData(nodes)
    requires EdgesResolve(nodes, edges)
    ensures var loaded := LoadedEdges(clones, SavedEdges(nodes, edges));
            |loaded| == |edges|
            && (forall i, j :: 0 <= i < |edges| && 0 <= j < |nodes| && nodes[j].data == edges[i].from ==>
                  loaded[i].from == clones[j].data)
            && (forall i, j :: 0 <= i < |edges| && 0 <= j < |nodes| && nodes[j].data == edges[i].to ==>
                  loaded[i].to == clones[j].data)
  {
    EdgesSaveLoad(nodes, clones, edges);
    forall j | 0 <= j < |nodes|
      ensures FindIndex(nodes, nodes[j].data) == j
    {
      FindIndexOfDistinct(nodes, j);
    }
  }

  /** Loading saved edges against the very list they were saved from gives them back. */
  lemma EdgesLoadAfterSave(nodes: seq<NodeData>, edges: seq<RefEdge>)
    requires EdgesResolve(nodes, edges)
    ensures LoadedEdges(nodes, SavedEdges(nodes, edges)) == edges
  {
    EdgesSaveLoad(nodes, nodes, edges);
  }

  /**
    The other direction: with distinct payloads, saving the edges loaded from in-range
    indices writes those indices back.
  */
  lemma EdgesSaveAfterLoad(nodes: seq<NodeData>, saved: seq<EdgeData>)
    requires DistinctData(nodes)
    requires forall k :: 0 <= k < |saved| ==> EdgeInRange(nodes, saved[k])
    ensures SavedEdges(nodes, LoadedEdges(nodes, saved)) == saved
  {
    var loaded := LoadedEdges(nodes, saved);
    forall k | 0 <= k < |saved|
      ensures SaveEdge(nodes, loaded[k]) == saved[k]
    {
      FindIndexOfDistinct(nodes, saved[k].fromIndex);
      FindIndexOfDistinct(nodes, saved[k].toIndex);
    }
  }

  /**
    An edge whose endpoint is missing from `nodes` is saved with index -1, and loading
    the saved list then throws at that edge at the latest.
  */
  lemma DanglingEdgeBreaksLoad(nodes: seq<NodeData>, clones: seq<NodeData>, edges: seq<RefEdge>, k: int)
    requires 0 <= k < |edges|
    requires !Contains(nodes, edges[k].from) || !Contains(nodes, edges[k].to)
    ensures SavedEdges(nodes, edges)[k].fromIndex == -1 || SavedEdges(nodes, edges)[k].toIndex == -1
    ensures |LoadedEdges(clones, SavedEdges(nodes, edges))| <= k
  {
  }

  /** Member indices saved against `nodes` load back, against a same-length list, to the clones' payloads. */
  lemma {:induction false} MembersSaveLoad(nodes: seq<NodeData>, clones: seq<NodeData>, members: seq<BoardNodeData>)
    requires |clones| == |nodes|
    requires MembersResolve(nodes, members)
    ensures var loaded := LoadMembers(clones, SaveIndices(nodes, members));
            loaded.Some? && |loaded.value| == |members|
            && forall i :: 0 <= i < |members| ==> loaded.value[i] == clones[FindIndex(nodes, members[i])].data
  {
    var indices := SaveIndices(nodes, members);
    forall k | 0 <= k < |indices|
      ensures InRange(clones, indices[k])
    {
      assert members[k] in members;
    }
  }

  /**
    Groups whose members all occur in `nodes` load back after saving with their titles,
    and with each member replaced by the payload of the clone at its first index.
  */
  lemma {:induction false} GroupsSaveLoad(nodes: seq<NodeData>, clones: seq<NodeData>, groups: seq<GroupValue>)
    requires |clones| == |nodes|
    requires GroupsResolve(nodes, groups)
    ensures var loaded := LoadedGroups(clones, SavedGroups(nodes, groups));
            |loaded| == |groups|
            && forall i :: 0 <= i < |groups| ==>
                 loaded[i].title == groups[i].title
                 && |loaded[i].members| == |groups[i].members|
                 && forall m :: 0 <= m < |groups[i].members| ==>
                      loaded[i].members[m] == clones[FindIndex(nodes, groups[i].members[m])].data
  {
    var saved := SavedGroups(nodes, groups);
    forall i | 0 <= i < |groups|
      ensures LoadGroup(clones, saved[i]).Some?
      ensures LoadGroup(clones, saved[i]).value.title == groups[i].title
      ensures |LoadGroup(clones, saved[i]).value.members| == |groups[i].members|
      ensures forall m :: 0 <= m < |groups[i].members| ==>
                LoadGroup(clones, saved[i]).value.members[m] == clones[FindIndex(nodes, groups[i].members[m])].data
    {
      assert groups[i] in groups;
      MembersSaveLoad(nodes, clones, groups[i].members);
    }
  }

  /** With distinct payloads, each loaded group member is the clone at its original's index. */
  lemma GroupsRoundTrip(nodes: seq<NodeData>, clones: seq<NodeData>, groups: seq<GroupValue>)
    requires |clones| == |nodes|
    requires DistinctData(nodes)
    requires GroupsResolve(nodes, groups)
    ensures var loaded := LoadedGroups(clones, SavedGroups(nodes, groups));
            |loaded| == |groups|
            && forall i :: 0 <= i < |groups| ==>
                 loaded[i].title == groups[i].title
                 && |loaded[i].members| == |groups[i].members|
                 && forall m, j :: 0 <= m < |groups[i].members| && 0 <= j < |nodes|
                                   && nodes[j].data == groups[i].members[m] ==>
                      loaded[i].members[m] == clones[j].data
  {
    GroupsSaveLoad(nodes, clones, groups);
    forall j | 0 <= j < |nodes|
      ensures FindIndex(nodes, nodes[j].data) == j
    {
      FindIndexOfDistinct(nodes, j);
    }
  }

  /** Loading saved groups against the very list they were saved from gives them back. */
  lemma GroupsLoadAfterSave(nodes: seq<NodeData>, groups: seq<GroupValue>)
    requires GroupsResolve(nodes, groups)
    ensures LoadedGroups(nodes, SavedGroups(nodes, groups)) == groups
  {
    GroupsSaveLoad(nodes, nodes, groups);
    var loaded := LoadedGroups(nodes, SavedGroups(nodes, groups));
    forall i | 0 <= i < |groups|
      ensures loaded[i] == groups[i]
    {
      assert loaded[i].members == groups[i].members;
    }
  }

  /**
    The other direction for groups: with distinct payloads, saving the groups loaded from
    in-range member indices writes back those titles and indices.
  */
  lemma GroupsSaveAfterLoad(nodes: seq<NodeData>, saved: seq<GroupData>)
    requires DistinctData(nodes)
    requires forall k :: 0 <= k < |saved| ==> LoadGroup(nodes, saved[k]).Some?
    ensures SavedGroups(nodes, LoadedGroups(nodes, saved)) == saved
  {
    var loaded := LoadedGroups(nodes, saved);
    forall k | 0 <= k < |saved|
      ensures SaveGroup(nodes, loaded[k]) == saved[k]
    {
      var indices := saved[k].containedNodes;
      var members := loaded[k].members;
      forall m | 0 <= m < |indices|
        ensures FindIndex(nodes, members[m]) == indices[m]
      {
        FindIndexOfDistinct(nodes, indices[m]);
      }
      assert SaveIndices(nodes, members) == indices;
    }
  }

  // ---------------------------------------------------------------------------------
  // The foreach loops of SaveToTarget, SetTarget and CloneData
  // ---------------------------------------------------------------------------------

  /**
    `copies` copy `originals` record by record: as many, in the same order, each with the
    same position and a payload with the same fields.
  */
  ghost predicate CopiesOf(copies: seq<NodeData>, originals: seq<NodeData>)
    reads copies, originals
  {
    |copies| == |originals|
    && forall i :: 0 <= i < |copies| ==>
         copies[i].position == originals[i].position
         && copies[i].data.fields == originals[i].data.fields
  }

  /**
    WorkBoardWindow.CloneData(List<NodeData>): a new list holding a clone of every record,
    in order. Clones are new objects, so the cloned payloads are pairwise distinct even
    when the original list repeats one.
  */
  method CloneData(data: seq<NodeData>) returns (cloned: seq<NodeData>)
    ensures CopiesOf(cloned, data)
    ensures forall i :: 0 <= i < |cloned| ==> fresh(cloned[i]) && fresh(cloned[i].data)
    ensures Distinct(cloned) && DistinctData(cloned)
  {
    cloned := [];
    for i := 0 to |data|
      invariant |cloned| == i
      invariant forall k :: 0 <= k < i ==>
                  fresh(cloned[k]) && fresh(cloned[k].data)
                  && cloned[k].position == data[k].position
                  && cloned[k].data.fields == data[k].data.fields
      invariant Distinct(cloned) && DistinctData(cloned)
    {
      var c := data[i].CloneData();
      cloned := cloned + [c];
    }
  }

  /**
    The edge loop of SaveToTarget: one persisted edge per window edge, in order, each
    endpoint written as the first index of its payload in `nodes`, or -1. A null edge
    list saves as an empty one.
  */
  method SaveEdges(nodes: seq<NodeData>, edgeData: Option<seq<RefEdge>>) returns (saved: seq<EdgeData>)
    ensures |saved| == |Items(edgeData)|
    ensures forall i :: 0 <= i < |saved| ==>
              saved[i].fromIndex == FindIndex(nodes, Items(edgeData)[i].from)
              && saved[i].toIndex == FindIndex(nodes, Items(edgeData)[i].to)
    ensures saved == SavedEdges(nodes, Items(edgeData))
  {
    saved := [];
    if edgeData.Some? {
      var edges := edgeData.value;
      for i := 0 to |edges|
        invariant |saved| == i
        invariant forall k :: 0 <= k < i ==> saved[k] == SaveEdge(nodes, edges[k])
      {
        var edge := edges[i];
        saved := saved + [EdgeData(FindIndex(nodes, edge.from), FindIndex(nodes, edge.to))];
      }
    }
  }

  /**
    The group loop of SaveToTarget: one persisted group per window group, in order, with
    its title and its members mapped one by one to their first index in `nodes`, or -1.
    A null group list saves as an empty one.
  */
  method SaveGroups(nodes: seq<NodeData>, groupData: Option<seq<RefGroup>>) returns (saved: seq<GroupData>)
    ensures |saved| == |Items(groupData)|
    ensures forall i :: 0 <= i < |saved| ==>
              var g := Items(groupData)[i];
              saved[i].title == g.title
              && |saved[i].containedNodes| == |g.containedNodes|
              && forall m :: 0 <= m < |g.containedNodes| ==>
                   saved[i].containedNodes[m] == FindIndex(nodes, g.containedNodes[m])
    ensures saved == SavedGroups(nodes, Values(Items(groupData)))
  {
    saved := [];
    if groupData.Some? {
      var groups := groupData.value;
      for i := 0 to |groups|
        invariant |saved| == i
        invariant forall k :: 0 <= k < i ==> saved[k] == SaveGroup(nodes, groups[k].Value())
      {
        var group := groups[i];
        saved := saved + [GroupData(group.title, SaveIndices(nodes, group.containedNodes))];
      }
    }
  }

  /**
    The edge loop of SetTarget: the edges loaded before the loop stops, and the exception
    that stopped it, if any. An index outside `nodes` (including the -1 that a save
    writes for a missing endpoint) throws.
  */
  method LoadEdges(nodes: seq<NodeData>, saved: seq<EdgeData>) returns (edges: seq<RefEdge>, thrown: Option<Failure>)
    ensures edges == LoadedEdges(nodes, saved)
    ensures thrown == (if |edges| == |saved| then None else Some(ArgumentOutOfRange))
    ensures thrown.None? <==> forall k :: 0 <= k < |saved| ==> EdgeInRange(nodes, saved[k])
  {
    edges := [];
    for i := 0 to |saved|
      invariant |edges| == i
      invariant forall k :: 0 <= k < i ==>
                  EdgeInRange(nodes, saved[k]) && edges[k] == LoadEdge(nodes, saved[k])
    {
      var edge := saved[i];
      if !InRange(nodes, edge.fromIndex) || !InRange(nodes, edge.toIndex) {
        LoadedEdgesUnique(nodes, saved, edges);
        return edges, Some(ArgumentOutOfRange);
      }
      edges := edges + [RefEdge(nodes[edge.fromIndex].data, nodes[edge.toIndex].data)];
    }
    LoadedEdgesUnique(nodes, saved, edges);
    thrown := None;
  }

  /**
    The group loop of SetTarget: a new group object per saved group, in order, each with
    the saved title and the payloads at its member indices, up to the first group with a
    member index outside `nodes`, where the loop throws.
  */
  method LoadGroups(nodes: seq<NodeData>, saved: seq<GroupData>) returns (groups: seq<RefGroup>, thrown: Option<Failure>)
    ensures Values(groups) == LoadedGroups(nodes, saved)
    ensures forall i :: 0 <= i < |groups| ==> fresh(groups[i])
    ensures thrown == (if |groups| == |saved| then None else Some(ArgumentOutOfRange))
    ensures thrown.None? <==> forall k :: 0 <= k < |saved| ==> LoadGroup(nodes, saved[k]).Some?
  {
    groups := [];
    ghost var values: seq<GroupValue> := [];
    for i := 0 to |saved|
      invariant |groups| == i && |values| == i
      invariant forall k :: 0 <= k < i ==> fresh(groups[k])
      invariant forall k :: 0 <= k < i ==> groups[k].Value() == values[k]
      invariant forall k :: 0 <= k < i ==> LoadGroup(nodes, saved[k]) == Some(values[k])
    {
      var group := saved[i];
      var members := LoadMembers(nodes, group.containedNodes);
      if members.None? {
        LoadedGroupsUnique(nodes, saved, values);
        assert Values(groups) == values;
        return groups, Some(ArgumentOutOfRange);
      }
      var g := new RefGroup(group.title, members.value);
      groups := groups + [g];
      values := values + [g.Value()];
    }
    LoadedGroupsUnique(nodes, saved, values);
    assert Values(groups) == values;
    thrown := None;
  }
}
