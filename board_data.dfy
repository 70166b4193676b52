/**
  The persisted, index-based board (Runtime/Scripts/WorkBoardData.cs): node records that
  hold a polymorphic node payload and a position, and edge and group records that point
  at nodes by their index in the node list.
*/
module BoardData {

  /** A Unity Rect. The board only copies positions, it never computes with them. */
  datatype Rect = Rect(x: real, y: real, width: real, height: real)

  /** A UnityEngine.Object asset, compared by identity. */
  class UnityObject { }

  datatype ComponentLocator = ComponentLocator(typeName: string, index: int)

  /** A List<ComponentLocator>: a reference, so two payloads can share one list. */
  class ComponentList {
    var items: seq<ComponentLocator>

    constructor (items: seq<ComponentLocator>)
      ensures this.items == items
    {
      this.items := items;
    }
  }

  /**
    The fields of a BoardNodeData object. The constructor stands for the object's dynamic
    type: the base class has no fields, FileData and NoteData add their own.
  */
  datatype NodeFields =
    | Plain
    | File(asset: UnityObject?, showInspector: bool, showPreview: bool,
           inspectedComponents: ComponentList?)
    | Note(note: string)

  /**
    A BoardNodeData object: the payload of a node, compared by reference. Only the node
    widgets edit its fields, and they are not part of this model, so here the fields are
    fixed when the object is made.
  */
  class BoardNodeData {
    const fields: NodeFields

    constructor (fields: NodeFields)
      ensures this.fields == fields
    {
      this.fields := fields;
    }

    /**
      MemberwiseClone: a new object of the same dynamic type whose fields are copies of
      this one's. Reference fields are copied as references, so a FileData copy shares
      its asset and its inspectedComponents list with the original.
    */
    method ShallowCopy() returns (c: BoardNodeData)
      ensures fresh(c)
      ensures c.fields == fields
      ensures unchanged(this)
    {
      c := new BoardNodeData(fields);
    }
  }

  /**
    A WorkBoardData.NodeData record: the payload reference and the node's position. The
    payload reference is only ever set when the record is created, hence `const`; the
    position is updated in place when the node moves.
  */
  class NodeData {
    const data: BoardNodeData
    var position: Rect

    constructor (data: BoardNodeData, position: Rect)
      ensures this.data == data && this.position == position
    {
      this.data := data;
      this.position := position;
    }

    /**
      A new record with the same position and a shallow copy of the payload; neither this
      record nor its payload is changed.
    */
    method CloneData() returns (c: NodeData)
      ensures fresh(c) && fresh(c.data)
      ensures c.position == position
      ensures c.data.fields == data.fields
      ensures unchanged(this, data)
    {
      var copy := data.ShallowCopy();
      c := new NodeData(copy, position);
    }
  }

  /** A persisted edge: the indices of its two end nodes in the node list. */
  datatype EdgeData = EdgeData(fromIndex: int, toIndex: int)

  /** A persisted group: its title and the indices of the nodes it contains. */
  datatype GroupData = GroupData(title: string, containedNodes: seq<int>)

  /** The board asset (a ScriptableObject) whose three lists the window saves and loads. */
  class WorkBoardData {
    var nodeData: seq<NodeData>
    var edgeData: seq<EdgeData>
    var groupData: seq<GroupData>

    constructor ()
      ensures nodeData == [] && edgeData == [] && groupData == []
    {
      nodeData, edgeData, groupData := [], [], [];
    }
  }
}
