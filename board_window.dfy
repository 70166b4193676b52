/**
  The editor window (Editor/Scripts/WorkBoardWindow.cs) as far as it keeps the board:
  its three reference-based lists, the dictionaries from graph widgets to their records,
  the unsaved-changes flag, and the handlers that keep them in step with graph edits,
  save them into the board asset and load them back.
*/
module BoardWindow {
  import opened Wrappers
  import opened BoardData
  import opened Serialisation
  import opened Bookkeeping

  /** Where a new Group starts; GraphView then fits it around its contents. */
  const GroupOrigin := Rect(0.0, 0.0, 0.0, 0.0)

  /**
    What the load section of SetTarget leaves behind for `data`, given the records `nodes`
    it loaded against: `edges` are its edges relinked to them up to the first out-of-range index; if that
    index exists the load throws there and the group list stays `previousGroups`,
    otherwise `groups` are its groups relinked the same way, and the load throws exactly
    when a group index is out of range.
  */
  ghost predicate LoadedFrom(data: WorkBoardData, nodes: seq<NodeData>, edges: Option<seq<RefEdge>>,
                             groups: Option<seq<RefGroup>>, previousGroups: Option<seq<RefGroup>>,
                             thrown: Option<Failure>)
    reads data, Items(groups)
  {
    var loaded := LoadedEdges(nodes, data.edgeData);
    edges == Some(loaded)
    && (|loaded| < |data.edgeData| ==> thrown == Some(ArgumentOutOfRange) && groups == previousGroups)
    && (|loaded| == |data.edgeData| ==>
          groups.Some?
          && Values(groups.value) == LoadedGroups(nodes, data.groupData)
          && thrown == (if |groups.value| == |data.groupData| then None else Some(ArgumentOutOfRange)))
  }

  /**
    The load section of SetTarget: clones of the board's records, then its edges and its
    groups relinked to the clones; an out-of-range index ends the edge or group loop,
    and the window keeps the list built so far (and, when the edge loop throws, its
    previous group list).
  */
  method Load(data: WorkBoardData, previousGroups: Option<seq<RefGroup>>)
    returns (nodes: seq<NodeData>, edges: seq<RefEdge>, groups: Option<seq<RefGroup>>, thrown: Option<Failure>)
    ensures CopiesOf(nodes, data.nodeData)
    ensures LoadedFrom(data, nodes, Some(edges), groups, previousGroups, thrown)
    ensures forall i :: 0 <= i < |nodes| ==> fresh(nodes[i]) && fresh(nodes[i].data)
    ensures Distinct(nodes) && DistinctData(nodes)
  {
    nodes := CloneData(data.nodeData);
    edges, thrown := LoadEdges(nodes, data.edgeData);
    groups := previousGroups;
    if thrown.Some? {
      return;
    }
    var loaded;
    loaded, thrown := LoadGroups(nodes, data.groupData);
    groups := Some(loaded);
  }

  /**
    Saving a board and loading the saved asset gives the board back: the load does not
    throw, and every edge endpoint and group member of the loaded lists is the payload of
    the loaded record at the index where the original endpoint or member sits. `nodes`,
    `edges` and `groups` are the lists SaveToTarget wrote out, `loaded` the records
    SetTarget cloned back.
  */
  lemma SavedBoardReloads(nodes: seq<NodeData>, edges: seq<RefEdge>, groups: seq<GroupValue>,
                          data: WorkBoardData, loaded: seq<NodeData>, loadedEdges: Option<seq<RefEdge>>,
                          loadedGroups: Option<seq<RefGroup>>, previousGroups: Option<seq<RefGroup>>,
                          thrown: Option<Failure>)
    requires DistinctData(nodes) && EdgesResolve(nodes, edges) && GroupsResolve(nodes, groups)
    requires data.edgeData == SavedEdges(nodes, edges) && data.groupData == SavedGroups(nodes, groups)
    requires |loaded| == |nodes|
    requires LoadedFrom(data, loaded, loadedEdges, loadedGroups, previousGroups, thrown)
    ensures thrown.None? && loadedEdges.Some? && loadedGroups.Some?
    ensures |loadedEdges.value| == |edges|
    ensures forall i, j :: 0 <= i < |edges| && 0 <= j < |nodes| && nodes[j].data == edges[i].from ==>
              loadedEdges.value[i].from == loaded[j].data
    ensures forall i, j :: 0 <= i < |edges| && 0 <= j < |nodes| && nodes[j].data == edges[i].to ==>
              loadedEdges.value[i].to == loaded[j].data
    ensures var gs := Values(loadedGroups.value);
            |gs| == |groups|
            && forall i :: 0 <= i < |groups| ==>
                 gs[i].title == groups[i].title
                 && |gs[i].members| == |groups[i].members|
                 && forall m, j :: 0 <= m < |groups[i].members| && 0 <= j < |nodes|
                                   && nodes[j].data == groups[i].members[m] ==>
                      gs[i].members[m] == loaded[j].data
  {
    EdgesRoundTrip(nodes, loaded, edges);
    GroupsRoundTrip(nodes, loaded, groups);
  }

  /**
    `elements` are the node widgets of `nodes`, one per record in order: a board node of
    the record's payload, at its position, mapped to the record in _dataMap, and
    _dataMap maps nothing else.
  */
  ghost predicate Shows(nodes: seq<NodeData>, elements: seq<GraphElement>, dataMap: map<GraphElement, NodeData>)
    reads elements, nodes
  {
    |elements| == |nodes|
    && (forall i :: 0 <= i < |nodes| ==>
          elements[i].kind == BoardNode(nodes[i].data)
          && elements[i].position == nodes[i].position
          && elements[i] in dataMap && dataMap[elements[i]] == nodes[i])
    && dataMap.Keys == set e | e in elements
  }

  /** Widgets of records that are pairwise distinct map to pairwise distinct records. */
  lemma ShowsInjective(nodes: seq<NodeData>, elements: seq<GraphElement>, dataMap: map<GraphElement, NodeData>)
    requires Shows(nodes, elements, dataMap) && Distinct(nodes)
    ensures Injective(dataMap)
  {
    forall a, b | a in dataMap && b in dataMap && a != b
      ensures dataMap[a] != dataMap[b]
    {
      assert a in elements && b in elements;
      var i :| 0 <= i < |elements| && elements[i] == a;
      var j :| 0 <= j < |elements| && elements[j] == b;
      assert nodes[i] != nodes[j];
    }
  }

  /**
    `elements` are Group widgets for the first groups of `groups`, one per group in
    order, titled as the group and mapped to it in _groupMap, which maps nothing else.
  */
  ghost predicate ShowsGroups(groups: seq<RefGroup>, elements: seq<GraphElement>, groupMap: map<GraphElement, RefGroup>)
    reads elements, groups
  {
    |elements| <= |groups|
    && (forall i :: 0 <= i < |elements| ==>
          elements[i].kind == GroupElement && elements[i].title == groups[i].title
          && elements[i] in groupMap && groupMap[elements[i]] == groups[i])
    && groupMap.Keys == set e | e in elements
  }

  /**
    The group members of each group record are all payloads of records of `nodes`,
    for the first `count` groups.
  */
  ghost predicate GroupsResolveUpTo(nodes: seq<NodeData>, groups: seq<RefGroup>, count: int)
    reads groups
  {
    forall k :: 0 <= k < count && k < |groups| ==> MembersResolve(nodes, groups[k].containedNodes)
  }

  /**
    A load that did not throw leaves lists whose every reference resolves: every edge
    endpoint and every group member is a payload of the records loaded against.
  */
  lemma LoadedResolves(data: WorkBoardData, nodes: seq<NodeData>, edges: Option<seq<RefEdge>>,
                       groups: Option<seq<RefGroup>>, previousGroups: Option<seq<RefGroup>>)
    requires LoadedFrom(data, nodes, edges, groups, previousGroups, None)
    ensures groups.Some?
    ensures EdgesResolve(nodes, Items(edges))
    ensures GroupsResolveUpTo(nodes, groups.value, |groups.value|)
  {
    LoadedEdgesResolve(nodes, data.edgeData);
    var gs := groups.value;
    LoadedGroupsResolve(nodes, data.groupData);
    forall k | 0 <= k < |gs|
      ensures MembersResolve(nodes, gs[k].containedNodes)
    {
      assert Values(gs)[k] in LoadedGroups(nodes, data.groupData);
    }
  }

  /**
    What RebuildGraph's group loop leaves when every edge resolved: widgets for the
    groups before the first one with a member outside `nodes`, and, if there is such a
    group, the loop stops at it.
  */
  ghost predicate RebuiltGroups(nodes: seq<NodeData>, groups: seq<RefGroup>, elements: seq<GraphElement>,
                                groupMap: map<GraphElement, RefGroup>)
    reads elements, groups
  {
    ShowsGroups(groups, elements, groupMap)
    && GroupsResolveUpTo(nodes, groups, |elements|)
    && (|elements| < |groups| ==> !MembersResolve(nodes, groups[|elements|].containedNodes))
  }

  /**
    What the edge and group loops of RebuildGraph do to _groupMap (`groupMap`, from
    `previousGroupMap`): nothing when groupData is null or an edge endpoint is missing
    (the edge loop throws first); otherwise it is rebuilt as RebuiltGroups says.
  */
  ghost predicate GroupsRebuilt(nodes: seq<NodeData>, edgeData: Option<seq<RefEdge>>,
                                groupData: Option<seq<RefGroup>>, groupElements: seq<GraphElement>,
                                groupMap: map<GraphElement, RefGroup>,
                                previousGroupMap: map<GraphElement, RefGroup>)
    reads groupElements, Items(groupData)
  {
    (groupData.None? || !EdgesResolve(nodes, Items(edgeData)) ==> groupMap == previousGroupMap)
    && (groupData.Some? && EdgesResolve(nodes, Items(edgeData)) ==>
          RebuiltGroups(nodes, groupData.value, groupElements, groupMap))
  }

  class WorkBoardWindow {
    var nodeData: Option<seq<NodeData>>
    var edgeData: Option<seq<RefEdge>>
    var groupData: Option<seq<RefGroup>>
    var target: WorkBoardData?
    var dataMap: map<GraphElement, NodeData>      // _dataMap
    var groupMap: map<GraphElement, RefGroup>     // _groupMap (a null dictionary reads as empty)
    var hasUnsavedChanges: bool

    function State(): BoardLists
      reads this
    {
      BoardLists(nodeData, edgeData, groupData, dataMap, groupMap)
    }

    ghost predicate Valid()
      reads this
    {
      Consistent(State())
    }

    /** A window opened without a board: no lists yet, an empty _dataMap (OnEnable). */
    constructor ()
      ensures Valid()
      ensures nodeData.None? && edgeData.None? && groupData.None? && target == null
      ensures dataMap == map[] && groupMap == map[] && !hasUnsavedChanges
    {
      nodeData, edgeData, groupData, target := None, None, None, null;
      dataMap, groupMap := map[], map[];
      hasUnsavedChanges := false;
    }

    method MarkChanged()
      modifies this`hasUnsavedChanges
      ensures hasUnsavedChanges
    {
      hasUnsavedChanges := true;
    }

    method OnTargetChanged()
      modifies this`hasUnsavedChanges
      ensures !hasUnsavedChanges
    {
      hasUnsavedChanges := false;
    }

    /** A node is about to change its payload: the board has unsaved changes. */
    method OnNodeWillChange()
      modifies this`hasUnsavedChanges
      ensures hasUnsavedChanges
    {
      MarkChanged();
    }

    method ClearGraph()
      modifies this`dataMap
      ensures dataMap == map[]
    {
      dataMap := map[];
    }

    /**
      A node widget was created: for a board node, a new record with the node's payload
      and the given position goes at the end of nodeData (created if null) and is mapped
      from the widget. Any other element only marks the board changed.
    */
    method OnNodeAdded(elem: GraphElement, pos: Rect)
      requires Valid()
      modifies this
      ensures Valid() && hasUnsavedChanges
      ensures target == old(target) && edgeData == old(edgeData)
      ensures groupData == old(groupData) && groupMap == old(groupMap)
      ensures !elem.kind.BoardNode? ==> nodeData == old(nodeData) && dataMap == old(dataMap)
      ensures elem.kind.BoardNode? ==>
                elem in dataMap && fresh(dataMap[elem])
                && dataMap[elem].data == elem.kind.data && dataMap[elem].position == pos
                && nodeData == Some(Items(old(nodeData)) + [dataMap[elem]])
                && dataMap == old(dataMap)[elem := dataMap[elem]]
    {
      MarkChanged();
      if elem.kind.BoardNode? {
        var data := new NodeData(elem.kind.data, pos);
        nodeData := Some(Items(nodeData) + [data]);
        dataMap := dataMap[elem := data];
      }
    }

    /** An Edge widget was created: its endpoints go at the end of edgeData (created if null). */
    method OnEdgeAdded(edge: GraphElement)
      requires edge.kind.EdgeElement?
      modifies this`edgeData
      ensures edgeData == Some(Items(old(edgeData)) + [EdgeOf(edge)])
    {
      edgeData := Some(Items(edgeData) + [RefEdge(edge.kind.output, edge.kind.input)]);
    }

    /**
      A Group widget was created holding the payloads `contained`: a new group record with
      the widget's title and those members goes at the end of groupData and is mapped
      from the widget.
    */
    method OnGroupAdded(group: GraphElement, contained: seq<BoardNodeData>)
      requires Valid()
      requires group.kind.GroupElement?
      modifies this`groupData, this`groupMap
      ensures Valid()
      ensures group in groupMap && fresh(groupMap[group])
      ensures groupMap[group].title == group.title && groupMap[group].containedNodes == contained
      ensures groupData == Some(Items(old(groupData)) + [groupMap[group]])
      ensures groupMap == old(groupMap)[group := groupMap[group]]
    {
      var data := new RefGroup(group.title, contained);
      groupData := Some(Items(groupData) + [data]);
      groupMap := groupMap[group := data];
    }

    /** A group was renamed: its record takes the new title; an unknown group throws. */
    method OnGroupTitleChanged(group: GraphElement, str: string) returns (thrown: Option<Failure>)
      modifies if group in groupMap then {groupMap[group]} else {}
      ensures group !in groupMap ==> thrown == Some(KeyNotFound)
      ensures group in groupMap ==>
                thrown.None? && groupMap[group].title == str
                && groupMap[group].containedNodes == old(groupMap[group].containedNodes)
    {
      if group !in groupMap {
        return Some(KeyNotFound);
      }
      groupMap[group].title := str;
      thrown := None;
    }

    /**
      Elements were added to or removed from a group, which now holds `contained`: its
      record takes that member list; an unknown group throws.
    */
    method OnGroupMembershipChanged(group: GraphElement, contained: seq<BoardNodeData>) returns (thrown: Option<Failure>)
      modifies if group in groupMap then {groupMap[group]} else {}
      ensures group !in groupMap ==> thrown == Some(KeyNotFound)
      ensures group in groupMap ==>
                thrown.None? && groupMap[group].containedNodes == contained
                && groupMap[group].title == old(groupMap[group].title)
    {
      if group !in groupMap {
        return Some(KeyNotFound);
      }
      groupMap[group].containedNodes := contained;
      thrown := None;
    }

    /**
      The movedElements loop: every moved element mapped in _dataMap gives its record its
      new position; every other record keeps its position.
    */
    method ApplyMoves(moved: seq<GraphElement>)
      requires Valid()
      modifies dataMap.Values
      ensures forall m :: m in moved && m in dataMap ==> dataMap[m].position == m.position
      ensures forall n :: n in dataMap.Values && (forall m :: m in moved && m in dataMap ==> dataMap[m] != n) ==>
                n.position == old(n.position)
    {
      for i := 0 to |moved|
        invariant forall k :: 0 <= k < i && moved[k] in dataMap ==> dataMap[moved[k]].position == moved[k].position
        invariant forall n :: n in dataMap.Values && (forall k :: 0 <= k < i && moved[k] in dataMap ==> dataMap[moved[k]] != n) ==>
                    n.position == old(n.position)
      {
        var m := moved[i];
        if m in dataMap {
          dataMap[m].position := m.position;
        }
      }
    }

    /** One element of elementsToRemove, as RemoveStep describes. */
    method RemoveElement(deleted: GraphElement) returns (thrown: Option<Failure>)
      requires Valid()
      modifies this`nodeData, this`edgeData, this`groupData, this`dataMap, this`groupMap
      ensures Valid()
      ensures Ran(State(), thrown) == RemoveStep(old(State()), deleted)
    {
      RemoveStepConsistent(State(), deleted);
      thrown := RemoveRecord(deleted);
      if thrown.None? {
        thrown := RemoveLinksOf(deleted);
      }
    }

    /** The _dataMap entry of a deleted element and its record in nodeData. */
    method RemoveRecord(deleted: GraphElement) returns (thrown: Option<Failure>)
      modifies this`nodeData, this`dataMap
      ensures Ran(State(), thrown) == RemoveMapped(old(State()), deleted)
    {
      thrown := None;
      if deleted in dataMap {
        var data := dataMap[deleted];
        dataMap := dataMap - {deleted};
        if nodeData.None? {
          return Some(NullReference);
        }
        nodeData := Some(RemoveFirst(nodeData.value, data));
      }
    }

    /** The edgeData entries of a deleted Edge, or the _groupMap entry and GroupData of a deleted Group. */
    method RemoveLinksOf(deleted: GraphElement) returns (thrown: Option<Failure>)
      modifies this`edgeData, this`groupData, this`groupMap
      ensures Ran(State(), thrown) == RemoveLinks(old(State()), deleted)
    {
      thrown := None;
      match deleted.kind {
        case EdgeElement(fromData, toData) =>
          if edgeData.None? {
            return Some(NullReference);
          }
          edgeData := Some(RemoveMatching(edgeData.value, fromData, toData));
        case GroupElement =>
          if deleted !in groupMap {
            return Some(KeyNotFound);
          }
          var data := groupMap[deleted];
          if groupData.None? {
            return Some(NullReference);
          }
          groupData := Some(RemoveFirst(groupData.value, data));
          groupMap := groupMap - {deleted};
        case _ =>
      }
    }

    /** The elementsToRemove loop, which stops at the first exception. */
    method RemoveElements(es: seq<GraphElement>) returns (thrown: Option<Failure>)
      requires Valid()
      modifies this`nodeData, this`edgeData, this`groupData, this`dataMap, this`groupMap
      ensures Valid()
      ensures Ran(State(), thrown) == RemoveAll(old(State()), es)
    {
      thrown := None;
      var i := 0;
      while i < |es|
        invariant 0 <= i <= |es|
        invariant Valid() && thrown.None?
        invariant RemoveAll(old(State()), es) == RemoveAll(State(), es[i..])
      {
        assert es[i..][0] == es[i] && es[i..][1..] == es[i + 1..];
        thrown := RemoveElement(es[i]);
        if thrown.Some? {
          return;
        }
        i := i + 1;
      }
      assert es[i..] == [];
    }

    /** The edgesToCreate loop: edgeData ??= new List, then OnEdgeAdded for each edge. */
    method AddCreatedEdges(created: Option<seq<GraphElement>>)
      requires created.Some? ==> AllEdges(created.value)
      modifies this`edgeData
      ensures State() == AddEdges(old(State()), created)
    {
      if created.Some? {
        if edgeData.None? {
          edgeData := Some([]);
        }
        var edges := created.value;
        assert EdgesOf(edges[..0]) == [];
        assert Items(old(edgeData)) + [] == Items(old(edgeData));
        for i := 0 to |edges|
          invariant AllEdges(edges[..i])
          invariant State() == AddEdges(old(State()), Some(edges[..i]))
        {
          assert edges[..i + 1] == edges[..i] + [edges[i]];
          assert edges[i] in edges;
          assert EdgesOf(edges[..i + 1]) == EdgesOf(edges[..i]) + [EdgeOf(edges[i])];
          assert Items(edgeData) == Items(old(edgeData)) + EdgesOf(edges[..i]);
          OnEdgeAdded(edges[i]);
          assert Items(edgeData) == Items(old(edgeData)) + EdgesOf(edges[..i]) + [EdgeOf(edges[i])];
          assert Items(edgeData) == Items(old(edgeData)) + EdgesOf(edges[..i + 1]);
          assert edgeData == Some(Items(old(edgeData)) + EdgesOf(edges[..i + 1]));
          assert AllEdges(edges[..i + 1]);
          assert State() == AddEdges(old(State()), Some(edges[..i + 1]));
        }
        assert edges[..|edges|] == edges;
      }
    }

    /**
      The graphViewChanged handler: marks the board changed, moves records, deletes
      elements (stopping at the first exception) and records created edges. The change
      itself is handed back unaltered.
    */
    method OnGraphChanged(change: GraphViewChange) returns (r: GraphViewChange, thrown: Option<Failure>)
      requires Valid()
      requires change.edgesToCreate.Some? ==> AllEdges(change.edgesToCreate.value)
      modifies this, dataMap.Values
      ensures Valid() && hasUnsavedChanges && target == old(target) && r == change
      ensures forall m :: m in Items(change.movedElements) && m in old(dataMap) ==>
                old(dataMap)[m].position == m.position
      ensures forall n :: n in old(dataMap.Values)
                          && (forall m :: m in Items(change.movedElements) && m in old(dataMap) ==> old(dataMap)[m] != n) ==>
                n.position == old(n.position)
      ensures var removed := RemoveAll(old(State()), Items(change.elementsToRemove));
              thrown == removed.thrown
              && State() == if thrown.Some? then removed.lists else AddEdges(removed.lists, change.edgesToCreate)
    {
      r := change;
      MarkChanged();
      if change.movedElements.Some? {
        ApplyMoves(change.movedElements.value);
      }
      thrown := None;
      if change.elementsToRemove.Some? {
        thrown := RemoveElements(change.elementsToRemove.value);
        if thrown.Some? {
          return;
        }
      }
      AddCreatedEdges(change.edgesToCreate);
    }

    /**
      Undo or redo restored the window's lists: the graph is cleared and rebuilt from them,
      with the graphViewChanged handler detached meanwhile.
    */
    method OnUndoRedo() returns (failed: bool, ghost nodeElements: seq<GraphElement>, ghost groupElements: seq<GraphElement>)
      requires Valid()
      modifies this`dataMap, this`groupMap, this`nodeData
      ensures Valid()
      ensures old(nodeData).None? ==>
                !failed && nodeData.None? && dataMap == map[] && groupMap == old(groupMap)
      ensures old(nodeData).Some? ==>
                Shows(old(nodeData).value, nodeElements, dataMap)
                && failed == !(EdgesResolve(old(nodeData).value, Items(edgeData))
                               && GroupsResolveUpTo(old(nodeData).value, Items(groupData), |Items(groupData)|))
                && nodeData == (if failed then Some([]) else old(nodeData))
      ensures old(nodeData).Some? ==>
                GroupsRebuilt(old(nodeData).value, edgeData, groupData, groupElements, groupMap, old(groupMap))
                && (forall i :: 0 <= i < |groupElements| ==> fresh(groupElements[i]))
    {
      ClearGraph();
      failed, nodeElements, groupElements := RebuildGraph();
    }

    /**
      RebuildGraph, as far as the lists are concerned: a new node widget per record, at
      the record's position, mapped to it in _dataMap; then every edge endpoint and every
      group member is looked up among the records' payloads. A failed lookup throws, is
      caught and logged, and empties nodeData (the widgets and map entries made so far
      stay). When groupData is not null, _groupMap is rebuilt with a new Group widget per
      group whose members were all found, up to the failing one.
    */
    method RebuildGraph() returns (failed: bool, ghost nodeElements: seq<GraphElement>, ghost groupElements: seq<GraphElement>)
      requires Valid() && dataMap == map[]
      modifies this`dataMap, this`groupMap, this`nodeData
      ensures Valid()
      ensures old(nodeData).None? ==>
                !failed && nodeData.None? && dataMap == map[] && groupMap == old(groupMap)
      ensures old(nodeData).Some? ==>
                Shows(old(nodeData).value, nodeElements, dataMap)
                && (forall i :: 0 <= i < |nodeElements| ==> fresh(nodeElements[i]))
      ensures old(nodeData).Some? ==>
                failed == !(EdgesResolve(old(nodeData).value, Items(edgeData))
                            && GroupsResolveUpTo(old(nodeData).value, Items(groupData), |Items(groupData)|))
      ensures old(nodeData).Some? ==> nodeData == (if failed then Some([]) else old(nodeData))
      ensures old(nodeData).Some? ==>
                GroupsRebuilt(old(nodeData).value, edgeData, groupData, groupElements, groupMap, old(groupMap))
                && (forall i :: 0 <= i < |groupElements| ==> fresh(groupElements[i]))
    {
      failed, nodeElements, groupElements := false, [], [];
      if nodeData.None? {
        return;
      }
      var nodes := nodeData.value;
      var nodeMap;
      nodeMap, nodeElements := CreateNodeElements(nodes);
      failed, groupElements := ResolveReferences(nodeMap, nodes);
    }

    /**
      The edge loop and then, when groupData is not null, the group loop of RebuildGraph;
      `failed` when some edge endpoint or group member is not a payload of `nodes`, in
      which case the handler empties nodeData.
    */
    method ResolveReferences(nodeMap: map<BoardNodeData, GraphElement>, ghost nodes: seq<NodeData>)
      returns (failed: bool, ghost groupElements: seq<GraphElement>)
      requires forall x :: x in nodeMap <==> Contains(nodes, x)
      modifies this`groupMap, this`nodeData
      ensures nodeData == if failed then Some([]) else old(nodeData)
      ensures failed == !(EdgesResolve(nodes, Items(edgeData))
                          && GroupsResolveUpTo(nodes, Items(groupData), |Items(groupData)|))
      ensures GroupsRebuilt(nodes, edgeData, groupData, groupElements, groupMap, old(groupMap))
      ensures forall i :: 0 <= i < |groupElements| ==> fresh(groupElements[i])
    {
      groupElements := [];
      var found := LookUpEdges(nodeMap, Items(edgeData), nodes);
      failed := !found;
      if found && groupData.Some? {
        failed, groupElements := CreateGroupElements(nodeMap, nodes, groupData.value);
      }
      if failed {
        nodeData := Some([]);
      }
    }

    /**
      The node loop of RebuildGraph: a new widget per record, at its position, mapped to
      the record in _dataMap; returns the lookup table from payloads to widgets.
    */
    method CreateNodeElements(nodes: seq<NodeData>) returns (nodeMap: map<BoardNodeData, GraphElement>, ghost nodeElements: seq<GraphElement>)
      requires dataMap == map[] && Distinct(nodes)
      modifies this`dataMap
      ensures Shows(nodes, nodeElements, dataMap)
      ensures forall i :: 0 <= i < |nodeElements| ==> fresh(nodeElements[i])
      ensures Injective(dataMap)
      ensures forall x :: x in nodeMap <==> Contains(nodes, x)
    {
      nodeMap, nodeElements := map[], [];
      for i := 0 to |nodes|
        invariant |nodeElements| == i
        invariant forall k :: 0 <= k < i ==>
                    fresh(nodeElements[k]) && nodeElements[k].kind == BoardNode(nodes[k].data)
                    && nodeElements[k].position == nodes[k].position
                    && nodeElements[k] in dataMap && dataMap[nodeElements[k]] == nodes[k]
        invariant forall e :: e in dataMap ==> e in nodeElements
        invariant forall k :: 0 <= k < i ==> nodes[k].data in nodeMap
        invariant forall x :: x in nodeMap ==> Contains(nodes, x)
      {
        var n := nodes[i];
        var ge := new GraphElement(BoardNode(n.data), n.position, "");
        dataMap := dataMap[ge := n];
        nodeMap := nodeMap[n.data := ge];
        nodeElements := nodeElements + [ge];
      }
      assert dataMap.Keys == set e | e in nodeElements;
      ShowsInjective(nodes, nodeElements, dataMap);
    }

    /**
      The group loop of RebuildGraph: _groupMap starts afresh and gets a new Group widget
      per group whose members are all in the lookup table, until the first group with a
      member that is not, where the loop throws (`failed`).
    */
    method CreateGroupElements(nodeMap: map<BoardNodeData, GraphElement>, ghost nodes: seq<NodeData>, groups: seq<RefGroup>)
      returns (failed: bool, ghost groupElements: seq<GraphElement>)
      requires forall x :: x in nodeMap <==> Contains(nodes, x)
      modifies this`groupMap
      ensures failed == !GroupsResolveUpTo(nodes, groups, |groups|)
      ensures RebuiltGroups(nodes, groups, groupElements, groupMap)
      ensures forall i :: 0 <= i < |groupElements| ==> fresh(groupElements[i])
    {
      failed, groupElements := false, [];
      groupMap := map[];
      for i := 0 to |groups|
        invariant |groupElements| == i
        invariant GroupsResolveUpTo(nodes, groups, i)
        invariant forall k :: 0 <= k < i ==>
                    fresh(groupElements[k]) && groupElements[k].kind == GroupElement
                    && groupElements[k].title == groups[k].title
                    && groupElements[k] in groupMap && groupMap[groupElements[k]] == groups[k]
        invariant groupMap.Keys == set e | e in groupElements
      {
        var g := groups[i];
        var group := new GraphElement(GroupElement, GroupOrigin, g.title);
        var found := LookUpMembers(nodeMap, g.containedNodes);
        if !found {
          return true, groupElements;
        }
        groupMap := groupMap[group := g];
        groupElements := groupElements + [group];
      }
    }

    /**
      SaveToTarget: the board asset gets clones of the node records, in order, and the
      edges and groups with every reference replaced by the index of the first record
      holding it (-1 when none does). A null edge or group list saves as an empty one;
      a null node list throws before anything is written.
    */
    method SaveToTarget() returns (thrown: Option<Failure>)
      requires target != null
      modifies target
      ensures nodeData.None? ==> thrown == Some(NullReference) && unchanged(target)
      ensures nodeData.Some? ==>
                var nodes := nodeData.value;
                thrown.None?
                && CopiesOf(target.nodeData, nodes)
                && (forall i :: 0 <= i < |nodes| ==>
                      fresh(target.nodeData[i]) && fresh(target.nodeData[i].data))
                && DistinctData(target.nodeData)
                && target.edgeData == SavedEdges(nodes, Items(edgeData))
                && target.groupData == SavedGroups(nodes, Values(Items(groupData)))
    {
      if nodeData.None? {
        return Some(NullReference);
      }
      var nodes := nodeData.value;
      var cloned := CloneData(nodes);
      target.nodeData := cloned;
      var edges := SaveEdges(nodes, edgeData);
      target.edgeData := edges;
      var groups := SaveGroups(nodes, groupData);
      target.groupData := groups;
      thrown := None;
    }

    /**
      SetTarget past the unsaved-changes dialog: the current board changes nothing;
      another board replaces the lists with clones of its records and with edges and
      groups relinked to those clones, index by index. An index out of range throws out
      of the edge or group loop, leaving the lists built so far; otherwise the graph is
      rebuilt (which then always succeeds) and the unsaved flag is cleared.
    */
    method SetTarget(data: WorkBoardData)
      returns (thrown: Option<Failure>, ghost nodeElements: seq<GraphElement>, ghost groupElements: seq<GraphElement>)
      requires Valid()
      modifies this
      ensures Valid()
      ensures data == old(target) ==> thrown.None? && unchanged(this)
      ensures data != old(target) ==>
                target == data && nodeData.Some?
                && CopiesOf(nodeData.value, data.nodeData)
                && LoadedFrom(data, nodeData.value, edgeData, groupData, old(groupData), thrown)
                && (forall i :: 0 <= i < |nodeData.value| ==>
                      fresh(nodeData.value[i]) && fresh(nodeData.value[i].data))
      ensures data != old(target) && thrown.Some? ==>
                dataMap == map[] && groupMap == old(groupMap) && hasUnsavedChanges == old(hasUnsavedChanges)
      ensures data != old(target) && thrown.None? ==>
                !hasUnsavedChanges
                && Shows(nodeData.value, nodeElements, dataMap)
                && (forall i :: 0 <= i < |nodeElements| ==> fresh(nodeElements[i]))
                && ShowsGroups(groupData.value, groupElements, groupMap) && |groupElements| == |groupData.value|
                && (forall i :: 0 <= i < |groupElements| ==> fresh(groupElements[i]))
    {
      if data == target {
        return None, [], [];
      }
      thrown, nodeElements, groupElements := Retarget(data);
    }

    /** SetTarget for a board other than the current one. */
    method Retarget(data: WorkBoardData)
      returns (thrown: Option<Failure>, ghost nodeElements: seq<GraphElement>, ghost groupElements: seq<GraphElement>)
      requires Valid()
      modifies this
      ensures Valid()
      ensures target == data && nodeData.Some?
      ensures CopiesOf(nodeData.value, data.nodeData)
      ensures LoadedFrom(data, nodeData.value, edgeData, groupData, old(groupData), thrown)
      ensures forall i :: 0 <= i < |nodeData.value| ==>
                fresh(nodeData.value[i]) && fresh(nodeData.value[i].data)
      ensures thrown.Some? ==>
                dataMap == map[] && groupMap == old(groupMap) && hasUnsavedChanges == old(hasUnsavedChanges)
      ensures thrown.None? ==>
                !hasUnsavedChanges
                && Shows(nodeData.value, nodeElements, dataMap)
                && (forall i :: 0 <= i < |nodeElements| ==> fresh(nodeElements[i]))
                && ShowsGroups(groupData.value, groupElements, groupMap) && |groupElements| == |groupData.value|
                && (forall i :: 0 <= i < |groupElements| ==> fresh(groupElements[i]))
    {
      nodeElements, groupElements := [], [];
      thrown := Open(data);
      if thrown.Some? {
        return;
      }
      LoadedResolves(data, nodeData.value, edgeData, groupData, old(groupData));
      nodeElements, groupElements := ShowLoaded(data);
    }

    /**
      SetTarget from the assignment of `target` to the end of the load section: the
      graph is cleared and the lists are replaced by the ones loaded from `data`.
    */
    method Open(data: WorkBoardData) returns (thrown: Option<Failure>)
      requires Valid()
      modifies this`target, this`dataMap, this`nodeData, this`edgeData, this`groupData
      ensures Valid() && dataMap == map[]
      ensures target == data && nodeData.Some?
      ensures CopiesOf(nodeData.value, data.nodeData)
      ensures LoadedFrom(data, nodeData.value, edgeData, groupData, old(groupData), thrown)
      ensures forall i :: 0 <= i < |nodeData.value| ==>
                fresh(nodeData.value[i]) && fresh(nodeData.value[i].data)
    {
      target := data;
      ClearGraph();
      var nodes, edges, groups;
      nodes, edges, groups, thrown := Load(data, groupData);
      nodeData, edgeData, groupData := Some(nodes), Some(edges), groups;
    }

    /**
      The end of SetTarget: RebuildGraph over lists whose every reference resolves, which
      therefore does not fail, then OnTargetChanged.
    */
    method ShowLoaded(ghost data: WorkBoardData) returns (ghost nodeElements: seq<GraphElement>, ghost groupElements: seq<GraphElement>)
      requires Valid() && dataMap == map[] && nodeData.Some? && groupData.Some?
      requires EdgesResolve(nodeData.value, Items(edgeData))
      requires GroupsResolveUpTo(nodeData.value, groupData.value, |groupData.value|)
      modifies this`dataMap, this`groupMap, this`nodeData, this`hasUnsavedChanges
      ensures Valid() && !hasUnsavedChanges && nodeData == old(nodeData)
      ensures Shows(nodeData.value, nodeElements, dataMap)
      ensures forall i :: 0 <= i < |nodeElements| ==> fresh(nodeElements[i])
      ensures ShowsGroups(groupData.value, groupElements, groupMap) && |groupElements| == |groupData.value|
      ensures forall i :: 0 <= i < |groupElements| ==> fresh(groupElements[i])
      ensures unchanged(data) && unchanged(data.nodeData) && unchanged(nodeData.value) && unchanged(groupData.value)
    {
      var failed;
      failed, nodeElements, groupElements := RebuildGraph();
      assert !failed;
      OnTargetChanged();
    }
  }

  /** The edge loop of RebuildGraph: every endpoint of every edge is a key of the lookup table. */
  method LookUpEdges(nodeMap: map<BoardNodeData, GraphElement>, edges: seq<RefEdge>, ghost nodes: seq<NodeData>)
    returns (found: bool)
    requires forall x :: x in nodeMap <==> Contains(nodes, x)
    ensures found == EdgesResolve(nodes, edges)
  {
    for i := 0 to |edges|
      invariant forall k :: 0 <= k < i ==> edges[k].from in nodeMap && edges[k].to in nodeMap
    {
      if edges[i].from !in nodeMap || edges[i].to !in nodeMap {
        assert edges[i] in edges;
        return false;
      }
    }
    found := true;
  }

  /** The member loop of RebuildGraph: every member of a group is a key of the lookup table. */
  method LookUpMembers(nodeMap: map<BoardNodeData, GraphElement>, members: seq<BoardNodeData>) returns (found: bool)
    ensures found <==> forall x :: x in members ==> x in nodeMap
  {
    for i := 0 to |members|
      invariant forall k :: 0 <= k < i ==> members[k] in nodeMap
    {
      if members[i] !in nodeMap {
        return false;
      }
    }
    found := true;
  }
}
