# WorkBoard: the board model of the editor window

WorkBoard is a Unity editor extension: a graph board of nodes that hold payloads such as
notes, assets and labels, with edges between nodes and titled groups of nodes. It has two
forms of the board.

- **The board asset** (`WorkBoardData`, a ScriptableObject) persists the board by index.
  Each edge and each group points at nodes by their position in the asset's node list.
- **The editor window** (`WorkBoardWindow`) edits the board by reference. Each edge and
  each group holds the `BoardNodeData` payload objects themselves. The window keeps its
  node records in step with the GraphView widgets through two dictionaries, `_dataMap`
  and `_groupMap`.

This project models the conversion between the two forms and the window's handlers:

- saving the window's board into the asset (`SaveToTarget`);
- loading an asset into the window (`SetTarget`);
- rebuilding the graph from the lists (`RebuildGraph`, `OnUndoRedo`);
- the handlers that keep the lists in step with graph edits (nodes, edges and groups
  added, moved, removed, renamed or refilled);
- cloning of node records and payloads (`NodeData.CloneData`, `BoardNodeData.ShallowCopy`).

Modules:

- `Wrappers` (wrappers.dfy): `Option` stands for nullable lists, and `Failure` for the
  .NET exceptions the code can throw.
- `BoardData` (board_data.dfy): the asset's records, and the payload classes with their
  shallow copy.
- `Serialisation` (serialisation.dfy):
  - the reference ↔ index conversion as functions (`SavedEdges`, `SavedGroups`,
    `LoadedEdges`, `LoadedGroups`), with their round-trip lemmas;
  - the loops that compute them, as methods proved against those functions.
- `Bookkeeping` (bookkeeping.dfy): what element deletion and edge creation do to the
  window's five collections, as functions on their values.
  - `List.Remove` and `List.RemoveAll` are included.
  - The lemmas show that the handlers keep no record twice and map no record from two
    widgets.
- `BoardWindow` (board_window.dfy): the window as a class whose fields are its lists, its
  dictionaries and its unsaved flag.
  - Each handler is a method.
  - Its contract ties the new state to the functions above, or states the new state
    outright.

Objects are compared by reference, as in C#. An exception thrown out of a handler is an
`Option<Failure>` result. The handler then leaves the state exactly as far as the source
gets before it throws.

## Model

| member | source | states |
|---|---|---|
| BoardData.BoardNodeData.ShallowCopy | Runtime/Scripts/WorkBoardData.cs:49-51 | The copy is a new object of the same kind. Its fields equal the original's, so references (asset, component list) are shared, not copied. The original is unchanged. |
| BoardData.NodeData.CloneData | Runtime/Scripts/WorkBoardData.cs:16-22 | The clone is a new record holding a new payload with the same fields and the same position. The original and its payload are unchanged. |
| Serialisation.CloneData | Editor/Scripts/WorkBoardWindow.cs:415-422 | Gives one clone per record, in order, with the same positions and payload fields. All clones and cloned payloads are new and pairwise distinct, even when the input repeats a record. |
| Serialisation.FindIndex | Editor/Scripts/WorkBoardWindow.cs:390-391 | Returns the index of the first record holding the payload, or -1 exactly when no record holds it. |
| Serialisation.FindIndexOfDistinct | Editor/Scripts/WorkBoardWindow.cs:390-391 | When no payload is repeated, looking up a record's payload gives that record's own index. |
| Serialisation.SavedEdges | Editor/Scripts/WorkBoardWindow.cs:386-394 | One persisted edge per window edge, in order. An endpoint is saved as -1 exactly when no record holds it. Otherwise it is an in-range index of a record holding that payload. |
| Serialisation.SavedGroups | Editor/Scripts/WorkBoardWindow.cs:396-406 | One persisted group per window group, in order, with the same title and member count. A member is saved as -1 exactly when no record holds it. Otherwise it is an in-range index of a record holding that payload. |
| Serialisation.LoadedEdges | Editor/Scripts/WorkBoardWindow.cs:155-162 | Loaded edges correspond one to one, in order, to the saved edges, each relinked to the payloads at its two indices. The list stops only at the first saved edge with an index out of range. |
| Serialisation.LoadMembers | Editor/Scripts/WorkBoardWindow.cs:170 | Gives the payloads at the given indices, in order. It is defined exactly when every index is in range. |
| Serialisation.LoadedGroups | Editor/Scripts/WorkBoardWindow.cs:164-172 | Loaded groups correspond one to one, in order, to the saved groups, with their titles and relinked members. The list stops only at the first group with a member index out of range. |
| Serialisation.LoadedEdgesResolve | Editor/Scripts/WorkBoardWindow.cs:155-162 | Every endpoint of every loaded edge is the payload of some loaded record. |
| Serialisation.LoadedGroupsResolve | Editor/Scripts/WorkBoardWindow.cs:164-172 | Every member of every loaded group is the payload of some loaded record. |
| Serialisation.EdgesSaveLoad | Editor/Scripts/WorkBoardWindow.cs:386-394 | Take edges whose endpoints are all on the board. Saving them and loading the result against a same-length list of clones gives every edge back. Each endpoint becomes the clone at the endpoint's first index. |
| Serialisation.EdgesRoundTrip | Editor/Scripts/WorkBoardWindow.cs:386-394 | The save/load round trip with pairwise-distinct payloads: each loaded endpoint is the clone at the very index of the original endpoint. |
| Serialisation.EdgesLoadAfterSave | Editor/Scripts/WorkBoardWindow.cs:386-394 | Loading saved edges against the list they were saved from gives back exactly the original edges. |
| Serialisation.EdgesSaveAfterLoad | Editor/Scripts/WorkBoardWindow.cs:155-162 | The converse, with distinct payloads: saving edges loaded from in-range indices writes back exactly those indices. |
| Serialisation.GroupsSaveAfterLoad | Editor/Scripts/WorkBoardWindow.cs:164-172 | The groups counterpart, with distinct payloads: saving groups loaded from in-range member indices writes back exactly the groups that were loaded. |
| Serialisation.DanglingEdgeBreaksLoad | Editor/Scripts/WorkBoardWindow.cs:390-391 | An edge with an endpoint missing from the board is saved with index -1. Loading the saved list then stops at or before that edge. |
| Serialisation.MembersSaveLoad | Editor/Scripts/WorkBoardWindow.cs:401-402 | Group members that are all on the board survive save and load against clones. Each member becomes the clone at its first index. |
| Serialisation.GroupsSaveLoad | Editor/Scripts/WorkBoardWindow.cs:396-406 | Groups whose members are all on the board load back after saving, with the same titles and member counts. Each member becomes the clone at its first index. |
| Serialisation.GroupsRoundTrip | Editor/Scripts/WorkBoardWindow.cs:396-406 | With distinct payloads, each loaded member is the clone at its original's own index, and titles are kept. |
| Serialisation.GroupsLoadAfterSave | Editor/Scripts/WorkBoardWindow.cs:396-406 | Loading saved groups against the list they were saved from gives back exactly the original groups. |
| Serialisation.SaveEdges | Editor/Scripts/WorkBoardWindow.cs:386-394 | Writes one persisted edge per window edge, in order. Each endpoint is the first index of its payload, or -1. A null list saves as empty. The result equals `SavedEdges`. |
| Serialisation.SaveGroups | Editor/Scripts/WorkBoardWindow.cs:396-406 | Writes one persisted group per window group, in order, with its title and each member's first index, or -1. A null list saves as empty. The result equals `SavedGroups`. |
| Serialisation.LoadEdges | Editor/Scripts/WorkBoardWindow.cs:155-162 | Builds exactly `LoadedEdges`. It throws ArgumentOutOfRange exactly when some saved index is out of range. |
| Serialisation.LoadGroups | Editor/Scripts/WorkBoardWindow.cs:164-172 | Builds new group objects whose contents are exactly `LoadedGroups`. It throws ArgumentOutOfRange exactly when some member index is out of range. |
| Bookkeeping.RemoveFirst | Editor/Scripts/WorkBoardWindow.cs:286 | `List.Remove` drops exactly one occurrence, the first, and otherwise keeps the order. It leaves the list alone when the item is absent. The multiset loses exactly that item. |
| Bookkeeping.RemoveFirstDistinct | Editor/Scripts/WorkBoardWindow.cs:286 | In a list without repeats, Remove leaves no occurrence of the item and no repeats. |
| Bookkeeping.RemoveMatching | Editor/Scripts/WorkBoardWindow.cs:293 | `RemoveAll` on edges leaves no edge with the given endpoints. Every other edge stays, as often as it was there. |
| Bookkeeping.RemoveMatchingConcat | Editor/Scripts/WorkBoardWindow.cs:293 | RemoveAll keeps the order of what it keeps: it distributes over concatenation. |
| Bookkeeping.RemoveMatchingNoMatch | Editor/Scripts/WorkBoardWindow.cs:293 | A list with no matching edge is left as it is. |
| Bookkeeping.RemoveMatchingIdempotent | Editor/Scripts/WorkBoardWindow.cs:293 | Removing the same edge twice removes nothing more. |
| Bookkeeping.RemoveMapped | Editor/Scripts/WorkBoardWindow.cs:283-287 | A mapped element loses its `_dataMap` entry, and its record leaves nodeData exactly once (multiset). With nodeData null this throws NullReference after the entry is gone. An unmapped element, and the three other lists, are left alone. |
| Bookkeeping.RemoveLinks | Editor/Scripts/WorkBoardWindow.cs:290-300 | Leaves the node records and `_dataMap` alone. An Edge drops every edgeData entry with its endpoints and keeps the rest (multiset), or throws NullReference on a null list. A Group loses its `_groupMap` entry, or throws KeyNotFound or NullReference. Other elements change nothing. |
| Bookkeeping.RemoveStep | Editor/Scripts/WorkBoardWindow.cs:281-301 | Deleting one element always drops its `_dataMap` entry. Only an Edge changes edgeData, and only a Group changes groupData and `_groupMap`, which loses the group when nothing throws. The only exceptions are NullReference, and KeyNotFound for a Group. |
| Bookkeeping.RemoveAll | Editor/Scripts/WorkBoardWindow.cs:280-302 | The removal loop only drops `_dataMap` entries, never adds or changes one. Entries of elements not deleted stay. When nothing throws, every deleted element is unmapped. The only exceptions are NullReference and KeyNotFound. |
| Bookkeeping.AddEdges | Editor/Scripts/WorkBoardWindow.cs:304-309 | The created edges are appended to edgeData, in order, each as its output and input payloads, after the unchanged old entries. A null list of created edges changes nothing. The other collections are untouched. |
| Bookkeeping.DeleteEdge | Editor/Scripts/WorkBoardWindow.cs:290-294 | Deleting an Edge widget removes exactly the entries with its endpoints and changes nothing else. A null edge list throws NullReference. |
| Bookkeeping.DeleteMappedNode | Editor/Scripts/WorkBoardWindow.cs:283-287 | Deleting a node widget drops its `_dataMap` entry and its record from nodeData. The record is then gone from both. The list is one shorter when the record was in nodeData, which can fail after a failed rebuild emptied nodeData but kept `_dataMap`. |
| Bookkeeping.DeleteUnmapped | Editor/Scripts/WorkBoardWindow.cs:281-301 | Deleting an element that is neither mapped, nor an Edge, nor a Group changes nothing. |
| Bookkeeping.DeleteGroup | Editor/Scripts/WorkBoardWindow.cs:296-300 | Deleting an unknown Group throws KeyNotFound. A known Group loses its `_groupMap` entry, and its GroupData leaves groupData. |
| Bookkeeping.RemoveStepConsistent | Editor/Scripts/WorkBoardWindow.cs:281-301 | Deleting one element keeps nodeData free of repeats and `_dataMap` injective, even when it throws. |
| Bookkeeping.RemoveAllConsistent | Editor/Scripts/WorkBoardWindow.cs:280-302 | The whole removal loop keeps those two invariants. |
| BoardWindow.Load | Editor/Scripts/WorkBoardWindow.cs:153-172 | The load section yields clones of the asset's records, plus `LoadedEdges` and `LoadedGroups` over them. On an edge-load exception it keeps the previous group list. New records and payloads are pairwise distinct. |
| BoardWindow.ShowsInjective | Editor/Scripts/WorkBoardWindow.cs:201-208 | A widget per distinct record, mapped to it, gives an injective `_dataMap`. |
| BoardWindow.LoadedResolves | Editor/Scripts/WorkBoardWindow.cs:153-172 | After a load that did not throw, every edge endpoint and every group member is a loaded payload. |
| BoardWindow.SavedBoardReloads | Editor/Scripts/WorkBoardWindow.cs:383-409 | A board saved by SaveToTarget, with distinct payloads and all references on the board, loads back by SetTarget without throwing. Every edge endpoint and group member comes back as the clone at its original's index, with titles and counts kept. |
| BoardWindow.WorkBoardWindow.MarkChanged | Editor/Scripts/WorkBoardWindow.cs:364-367 | Sets the unsaved flag. |
| BoardWindow.WorkBoardWindow.OnTargetChanged | Editor/Scripts/WorkBoardWindow.cs:181-186 | Clears the unsaved flag. |
| BoardWindow.WorkBoardWindow.OnNodeWillChange | Editor/Scripts/WorkBoardWindow.cs:263-267 | Sets the unsaved flag. |
| BoardWindow.WorkBoardWindow.ClearGraph | Editor/Scripts/WorkBoardWindow.cs:188-195 | Empties `_dataMap`. |
| BoardWindow.WorkBoardWindow.OnNodeAdded | Editor/Scripts/WorkBoardWindow.cs:244-261 | A board node appends a new record with its payload and position to nodeData (created if null), mapped from the widget. Other elements change only the flag. Invariants are kept. |
| BoardWindow.WorkBoardWindow.OnEdgeAdded | Editor/Scripts/WorkBoardWindow.cs:314-321 | Appends the edge's endpoints to edgeData, creating the list if it is null. |
| BoardWindow.WorkBoardWindow.OnGroupAdded | Editor/Scripts/WorkBoardWindow.cs:323-335 | Appends a new group record with the widget's title and members, mapped from the widget in `_groupMap`. |
| BoardWindow.WorkBoardWindow.OnGroupTitleChanged | Editor/Scripts/WorkBoardWindow.cs:337-339 | A known group's record takes the new title and keeps its members. An unknown group throws KeyNotFound. |
| BoardWindow.WorkBoardWindow.OnGroupMembershipChanged | Editor/Scripts/WorkBoardWindow.cs:341-347 | A known group's record takes the new member list and keeps its title. An unknown group throws KeyNotFound. |
| BoardWindow.WorkBoardWindow.ApplyMoves | Editor/Scripts/WorkBoardWindow.cs:272-278 | Every moved, mapped widget's record takes the widget's position. Every other record keeps its position. |
| BoardWindow.WorkBoardWindow.RemoveElement | Editor/Scripts/WorkBoardWindow.cs:281-301 | Deleting one element yields exactly `RemoveStep`, including its exception. Invariants are kept. |
| BoardWindow.WorkBoardWindow.RemoveRecord | Editor/Scripts/WorkBoardWindow.cs:283-287 | The first step of a deletion yields exactly `RemoveMapped`. |
| BoardWindow.WorkBoardWindow.RemoveLinksOf | Editor/Scripts/WorkBoardWindow.cs:290-300 | The Edge and Group steps of a deletion yield exactly `RemoveLinks`. |
| BoardWindow.WorkBoardWindow.RemoveElements | Editor/Scripts/WorkBoardWindow.cs:280-302 | The removal loop yields exactly `RemoveAll` and stops at the first exception. |
| BoardWindow.WorkBoardWindow.AddCreatedEdges | Editor/Scripts/WorkBoardWindow.cs:304-309 | edgeData gains the created edges, in order, after its old entries. A null list of created edges changes nothing. |
| BoardWindow.WorkBoardWindow.OnGraphChanged | Editor/Scripts/WorkBoardWindow.cs:269-312 | Sets the flag, applies moves, and removes elements as `RemoveAll` does. If nothing threw, it appends the created edges. It returns the change unaltered. |
| BoardWindow.WorkBoardWindow.OnUndoRedo | Editor/Scripts/WorkBoardWindow.cs:130-135 | With nodeData null it only empties `_dataMap`, keeping `_groupMap`. Otherwise it rebuilds from the restored lists: one widget per record, and `_groupMap` rebuilt afresh up to the first unresolvable group. It fails, emptying nodeData, exactly when some reference does not resolve. |
| BoardWindow.WorkBoardWindow.RebuildGraph | Editor/Scripts/WorkBoardWindow.cs:197-242 | Creates a new widget per record at its position, mapped to the record. It fails, emptying nodeData, exactly when an edge endpoint or group member is missing. Groups are rebuilt up to the first unresolvable one. |
| BoardWindow.WorkBoardWindow.ResolveReferences | Editor/Scripts/WorkBoardWindow.cs:210-236 | Runs the edge and group loops. It fails exactly when some reference does not resolve, and a failure empties nodeData. |
| BoardWindow.WorkBoardWindow.CreateNodeElements | Editor/Scripts/WorkBoardWindow.cs:200-209 | Creates one new widget per record, in order, at its position. `_dataMap` maps exactly those widgets to their records, injectively. The lookup table covers exactly the payloads. |
| BoardWindow.WorkBoardWindow.CreateGroupElements | Editor/Scripts/WorkBoardWindow.cs:217-230 | Rebuilds `_groupMap` afresh, with one titled widget per group, up to the first group with an unresolvable member. It fails exactly then. |
| BoardWindow.WorkBoardWindow.SaveToTarget | Editor/Scripts/WorkBoardWindow.cs:383-409 | The asset gets new clones of the records plus `SavedEdges` and `SavedGroups`. A null node list throws NullReference before anything is written. |
| BoardWindow.WorkBoardWindow.SetTarget | Editor/Scripts/WorkBoardWindow.cs:137-179 | Setting the same board changes nothing. Another board becomes the target, with cloned records and `LoadedEdges`/`LoadedGroups`, which throw on an out-of-range index. On a throw `_dataMap` is left empty, and `_groupMap` and the flag are kept. Otherwise the graph shows every record, `_groupMap` maps one new titled widget to each group, and the flag is cleared. |
| BoardWindow.WorkBoardWindow.Retarget | Editor/Scripts/WorkBoardWindow.cs:149-178 | SetTarget for another board: the same outcome, on the throwing and on the normal path. |
| BoardWindow.WorkBoardWindow.Open | Editor/Scripts/WorkBoardWindow.cs:149-172 | Sets the target, clears `_dataMap` and replaces the lists by the loaded ones. |
| BoardWindow.WorkBoardWindow.ShowLoaded | Editor/Scripts/WorkBoardWindow.cs:174-178 | When every reference resolves, the rebuild does not fail and shows every record. `_groupMap` maps one new titled widget to each group. The flag is cleared, and the lists and the asset are unchanged. |
| BoardWindow.LookUpEdges | Editor/Scripts/WorkBoardWindow.cs:211-215 | Succeeds exactly when every edge endpoint is a payload of the board. |
| BoardWindow.LookUpMembers | Editor/Scripts/WorkBoardWindow.cs:224-226 | Succeeds exactly when every group member is in the lookup table. |

## Left out

- BoardWindow.WorkBoardWindow.SetTarget: the unsaved-changes dialog (WorkBoardWindow.cs:140-147) is not modelled. It is user interaction, and its Save branch calls SaveChanges. The model starts where the dialog lets the load proceed.
- SaveChanges (WorkBoardWindow.cs:369-381) is not modelled. It opens a save-file panel and creates an asset through the AssetDatabase, which are editor I/O. It calls SaveToTarget, which is modelled.
- Node widgets (LabelNode, FileNode, NoteNode and BoardNode.Create) are not modelled. A new widget is a fresh element carrying its payload.
  - The widgets' edits of payload fields are left out, so payload fields are constant here.
  - SubscribeWillChange is left out. OnNodeWillChange, which the subscription triggers, is modelled.
- CollectContainedNodes (WorkBoardWindow.cs:424-426) depends on GraphView's group contents. The group handlers take its result as a parameter.
- BoardWindow.WorkBoardWindow.OnGraphChanged: the Edge endpoints are given as payloads, so the case where an edge's node is not a board element (a null cast) is not modelled.
- Undo.RegisterCompleteObjectUndo, EditorUtility.SetDirty, window titles, buttons and Debug.LogException are editor side effects with no bearing on the board's lists. They are not modelled.
- OnEnable, the toolbar, the object picker and the menus (WorkBoardWindow.cs up to line 128, and 349-362) are UI and are not modelled.
- The graphViewChanged subscription being detached and re-attached around a rebuild (WorkBoardWindow.cs:150 and 176) is not modelled. The window is not re-entered here. One consequence is therefore not captured: after SetTarget throws, the handler stays detached, so graph edits go untracked until the next OnUndoRedo re-attaches it.
- `_groupMap` is modelled as a map, so a null `_groupMap` reads the same as an empty one. It is created before every insert. The exception type differs, however: a lookup in a null `_groupMap` (WorkBoardWindow.cs:297, 338, 342 and 346) throws NullReferenceException in the source.
- Bookkeeping.RemoveLinks: deleting a Group while `_groupMap` is null reports KeyNotFound, where the source throws NullReferenceException (WorkBoardWindow.cs:297).
- Bookkeeping.RemoveStep: deleting a Group while `_groupMap` is null reports KeyNotFound, where the source throws NullReferenceException (WorkBoardWindow.cs:297).
- BoardWindow.WorkBoardWindow.OnGroupTitleChanged: with `_groupMap` null it reports KeyNotFound, where the source throws NullReferenceException (WorkBoardWindow.cs:338).
- BoardWindow.WorkBoardWindow.OnGroupMembershipChanged: with `_groupMap` null it reports KeyNotFound, where the source throws NullReferenceException (WorkBoardWindow.cs:342 and 346).
- Rect positions use real numbers in place of float. Positions are only copied, never computed with.
- The asset's persisted lists, its node payloads and the board passed to SetTarget are taken to be non-null. Unity's serialiser does not produce null lists, and all three callers pass an existing board. The asset opener (WorkBoardWindow.cs:26) type-tests it and goes through OpenBoard (line 36). The inspector's Open button (WorkBoardDataEditor.cs:11 and 15) passes the inspected asset through OpenBoard or OpenBoardInNewWindow (lines 36 and 42). The object picker (WorkBoardWindow.cs:124) type-tests it.
- OnGroupAdded and OnEdgeAdded do not set the unsaved flag, just as in the source.

## Findings

None. Every contract above holds of the code as written.
