# TalosMapEditor core, modelled in Dafny

TalosMapEditor is a desktop editor for AGV (automated guided vehicle) floor
maps. A map holds stations of named types, path nodes and AGVs. This project
models the part of the editor that is plain data and arithmetic:

- the identifier allocator;
- the backend entity store (`ClassHolder`) with its id maps and name indexes;
- the entity records: path nodes, AGVs, station types and their catalogue,
  stations and their derived port;
- the registry of canvas proxies (`QClassHolder`) and the scene placement
  rule: scene point = (100·x, −100·y), x and y in metres;
- the abstract document the exporter writes, the loader's skip and link
  rules, and the reset that precedes a load;
- the 3D view's camera state machine and its perspective matrix;
- the 2D editor's mode and tool switches, scene rectangle, grid, wheel zoom,
  and the clicks that create path nodes and stations.

Everything is a pure function over immutable datatypes. Each mutating Python
method becomes a function from the old state to the new one. Trigonometry is
a parameter record `Geometry.Trig` of cosine, sine and tangent. The 3D
unprojection from a screen point to a world point is a parameter of
`Camera.Screen`. Python floats are modelled as `real`. Python's floored `%`
is `Geometry.FloorMod`.

Files, one module each, in dependency order:

- `optional.dfy` (`Optional`);
- `geometry.dfy` (`Geometry`);
- `id_manager.dfy` (`Ids`);
- `path.dfy` (`Paths`);
- `agv.dfy` (`Agvs`);
- `station.dfy` (`Stations`);
- `registry.dfy` (`Registry`): the id-plus-name index the store is built
  from;
- `class_holder.dfy` (`Store`);
- `qclass_holder.dfy` (`Proxies`);
- `file_management.dfy` (`Persistence`);
- `realtime_view.dfy` (`Camera`);
- `map_editor.dfy` (`Editor`).

The model keeps three behaviours of the code as written:

- Deletes return nothing, rather than whether something was removed.
- A name collision overwrites the name index rather than failing.
- Deleting a station leaves its port alone.

The 3D gestures read the view matrix of the last repaint
(`paintGL` in ui/realtime_view.py, line 134, is the only place that rebuilds it).
As a result, the pivot compensation of a zoom or an orbit adds the
difference of two identical unprojections. `Camera.Wheel` and
`Camera.MouseMove` prove that the pan offset is left unchanged.

## Model

| member | source | states |
|---|---|---|
| Optional.Get | components/class_holder.py:44-46 | A dictionary `get`: a value exactly when the key is present, and then the stored value. |
| Geometry.FromScene | ui/map_editor.py:526 | Converting a scene point to metres is the inverse of the placement rule: placing the result gives back the scene point. |
| Geometry.ToScene | components/agv.py:48 | The placement rule for a point in metres: dividing the scene x by 100 gives x back, and dividing the negated scene y by 100 gives y back. `Geometry.PlacementRoundTrip` and `Geometry.FromScene` pin it as the inverse of the conversion back. |
| Geometry.PlacementRoundTrip | components/agv.py:48 | Placing a point in the scene and converting it back to metres gives the point again. |
| Geometry.RotatePreservesLength | components/station.py:110-112 | The rotation used for the port offset keeps lengths when cos² + sin² = 1. |
| Geometry.FloorMod | components/station.py:115 | Python's `% 360` on a float always lands in [0, 360), and leaves a value already in range unchanged. |
| Geometry.FloorModPeriodic | components/station.py:115 | Adding whole multiples of the modulus does not change the result of `%`. |
| Ids.GetNewId | components/id_manager.py:8-11 | Each new id is the previous counter plus one, and the counter then equals that id. |
| Ids.ResetIds | components/id_manager.py:13-15 | After a reset the next id is 1. |
| Ids.ReleaseId | components/id_manager.py:21-28 | Releasing an id always fails with "not implemented" and leaves the counter as it was. |
| Ids.FirstIdIsOne | components/id_manager.py:3-11 | A fresh allocator's first id is 1. |
| Ids.DrawMany | components/id_manager.py:8-11 | n draws return counter+1 … counter+n in order, and advance the counter by n. |
| Ids.DrawManyFromFresh | components/id_manager.py:3-11 | From a fresh allocator, n draws return exactly 1 … n, all distinct. |
| Ids.NoReuseWithoutReset | components/id_manager.py:8-28 | In any run of draws and releases without a reset, the ids issued strictly increase, all exceed the starting counter, and the counter never decreases. |
| Ids.IdsArePositive | components/id_manager.py:8-15 | In any run of draws, releases and resets from a non-negative counter, every id issued is at least 1. |
| Paths.NewPathNode | components/path.py:15-25 | A new node has the given position, no connected paths, and the given direction, id and name. |
| Paths.NewPathNodeDefaults | components/path.py:15 | Direction defaults to 0, and id and name to nothing. |
| Paths.GetPosition | components/path.py:27-29 | Returns the stored position. |
| Paths.SetDirection | components/path.py:31-33 | Changes the direction and nothing else. |
| Paths.ArrowPolygon | components/path.py:71-93 | The arrow polygon has five points: the origin; the tip, repeated as the fourth point; and two barbs, half the arrow's size long, pointing back from the origin at θ+180°±30°, behind the node's centre rather than beside the tip. |
| Paths.ArrowTipAlongHeading | components/path.py:76-78 | Read back in metres, the arrow tip lies 0.08 along the heading: (0.08·cos θ, 0.08·sin θ). |
| Paths.ArrowTipLength | components/path.py:47-78 | The tip is 8 scene units from the node's centre. |
| Paths.MakeQPathNode | components/path.py:39-66 | The proxy's 10×10 circle is centred on the node's scene point, and its arrow follows the node's direction. |
| Paths.WithId | components/path.py:109-117 | Writing the proxy's id writes the node's id; both read back the new value and nothing else changes. |
| Paths.SetQDirection | components/path.py:119-123 | Turning the proxy stores the angle on the node, redraws the arrow for it, and does not move the proxy. |
| Agvs.StatusesAreSevenDistinct | components/agv.py:7-14 | There are exactly seven statuses, every status is among them, and their texts are pairwise distinct. |
| Agvs.NewAgv | components/agv.py:17-32 | A new AGV has no id, status unknown, direction 0, limits 1.0/0.5/0.5, no interactions, no port and no latest node. |
| Agvs.MakeQAgv | components/agv.py:38-48 | The proxy copies id, position, direction and name, and sits at the AGV's scene point. |
| Agvs.BoundingRect | components/agv.py:67-72 | The body rectangle is centred on the origin, 100·length wide and 100·width high. |
| Agvs.ArrowLength | components/agv.py:94 | The arrow is 0.8 of the rectangle's width, that is 80·length. |
| Agvs.ArrowWidth | components/agv.py:95 | The arrow's width is 0.3 of its length, that is 24·length. |
| Agvs.ArrowPoints | components/agv.py:94-108 | The arrow has three points: the tip, half the arrow's length ahead of the body's centre, and two base corners level with the centre, the arrow's width apart and symmetric about it. `Agvs.ArrowInsideBody` pins them inside the body. |
| Agvs.ArrowInsideBody | components/agv.py:94-108 | When the AGV is at least 0.3 of its length wide, all three arrow points lie inside the body. |
| Stations.NewStationType | components/station.py:15-23 | A type holds the given name, colour, description and port pose. |
| Stations.StationTypeDefaults | components/station.py:20-23 | A type built from name and colour alone has an empty description, port offset (1.5, 0) and port direction 0. |
| Stations.AddType | components/station.py:38-43 | Adding succeeds exactly when the name is free. A refused add leaves the catalogue unchanged; a successful one files the type under its name. |
| Stations.GetType | components/station.py:45-47 | A type is found exactly when its name is in the catalogue. |
| Stations.GetAllTypes | components/station.py:49-51 | The copy has the same names and entries as the catalogue. |
| Stations.RemoveType | components/station.py:53-58 | Reports success exactly when the name was present. Afterwards the name is absent and every other type is unchanged. |
| Stations.NewManager | components/station.py:27-36 | A fresh catalogue holds exactly Loading, Unloading, Charging and Storage, with their colours and descriptions. |
| Stations.AddTypeThenGet | components/station.py:38-47 | After an add, looking up the name gives the new type if the name was free, and the old type otherwise. |
| Stations.NewStation | components/station.py:64-76 | A new station has size (1, 1, 1), direction 0, no port and no mesh. |
| Stations.Set3dSize | components/station.py:78-82 | Overwrites exactly the three size components. |
| Stations.PortPosition | components/station.py:110-113 | The port is the station's position plus the type's offset rotated by the station's heading, so a zero offset puts the port on the station. `Stations.PortDistance` pins its distance and `Stations.PortScenario` a concrete case. |
| Stations.PortHeading | components/station.py:115 | The port heading lies in [0, 360), and equals heading + port direction when that sum is already in range. |
| Stations.PortHeadingWholeTurns | components/station.py:115 | Turning the station by whole turns does not change the port heading. |
| Stations.PortDistance | components/station.py:110-112 | The port is as far from the station as the type's offset is long. |
| Stations.StationRect | components/station.py:93 | The station's rectangle is centred on its scene point, 100·length wide and 100·width high. |
| Stations.MovePort | components/station.py:122-127 | Moving the existing port updates its node's position and heading, centres it on the new scene point, and redraws its arrow. |
| Stations.UpdatePort | components/station.py:106-127 | Re-deriving the port leaves the port consistent with the station. A new port has no id and is named "<station> Port"; an existing port keeps its id. |
| Stations.MakeQStation | components/station.py:89-104 | The proxy's rectangle is centred on the station's scene point, 100·length wide and 100·width high. It carries a consistent port whose circle is not offset. |
| Stations.SetStationDirection | components/station.py:215-218 | Sets the heading and keeps the port consistent, reusing the existing port node. |
| Stations.PortScenario | components/station.py:110-127 | A station at (2, 3) turned to 90° has its port at (2, 4.5) with heading 90. |
| Stations.MovePortAsWritten | components/station.py:124-126 | As written, `setPos` offsets a circle that already sits at its scene point, so the port is drawn at the sum of the two offsets. |
| Stations.PortDrawnTwiceAsFar | components/station.py:124-126 | For a station at (1, 0) whose type has the default port pose, the moved port is drawn at scene x 500 as written, against 250 intended. |
| Stations.FreshPortAt | components/station.py:106-118 | That station's first port proxy is for (2.5, 0): a circle built around scene point (250, 0), with no item offset. |
| Stations.PortAheadOfStation | components/station.py:110-113 | The default port of a station at (1, 0) facing 0° lies 1.5 m ahead, at (2.5, 0). |
| Stations.MovesOfPortAt250 | components/station.py:124-126 | Any port circle built around scene point (250, 0) and moved to (2.5, 0) is drawn at (500, 0) as written, and at (250, 0) corrected. |
| Registry.Put | components/class_holder.py:38-40 | Filing replaces the id entry, and the name entry only when the name is non-empty; all other entries are kept. |
| Registry.Pop | components/class_holder.py:52-56 | An absent id changes nothing. Otherwise the id entry goes, and so does the name entry keyed by the removed entity's name. |
| Registry.ListEntries | components/class_holder.py:58-60 | The listing has every key exactly once, each with its value. |
| Registry.KeyedImageSize | ui/file_management.py:32-35 | A set tagged one-to-one with a map's keys has as many elements as the map. |
| Store.NewClassHolder | components/class_holder.py:9-27 | A new store is well formed and empty: no stations or AGVs by id or by name, no path nodes, no station types, and all four allocators fresh. |
| Store.AddStation | components/class_holder.py:32-42 | A new id is drawn only when the station has none, and a preset id is kept. The station is filed by id, and by name when the name is non-empty. Nothing else changes. |
| Store.GetStationById | components/class_holder.py:44-46 | Found exactly when the id is stored. |
| Store.GetStationByName | components/class_holder.py:48-50 | Found exactly when the name is indexed. |
| Store.DeleteStation | components/class_holder.py:52-56 | An absent id is a no-op. Otherwise the id entry goes, and so does the name entry for the removed station's name. Every surviving id and name entry keeps its value, and the rest of the store is unchanged. |
| Store.GetAllStations | components/class_holder.py:58-60 | Lists exactly the stored stations. |
| Store.AddAgv | components/class_holder.py:65-75 | As for stations, with the AGV allocator. |
| Store.GetAgvById | components/class_holder.py:77-79 | Found exactly when the id is stored. |
| Store.GetAgvByName | components/class_holder.py:81-83 | Found exactly when the name is indexed. |
| Store.DeleteAgv | components/class_holder.py:85-89 | As for stations. |
| Store.GetAllAgvs | components/class_holder.py:91-93 | Lists exactly the stored AGVs. |
| Store.AddPathNode | components/class_holder.py:98-106 | A new id is drawn only when the node has none; the node is filed under its id. |
| Store.GetPathNodeById | components/class_holder.py:108-110 | Found exactly when the id is stored. |
| Store.DeletePathNode | components/class_holder.py:112-114 | Removes exactly that key; an unknown id is a no-op. |
| Store.GetAllPathNodes | components/class_holder.py:116-118 | Lists exactly the stored nodes. |
| Store.AddStationType | components/class_holder.py:123-125 | Files the type under its name, overwriting any type already there. |
| Store.GetStationType | components/class_holder.py:127-129 | Found exactly when the name is stored. |
| Store.DeleteStationType | components/class_holder.py:131-133 | Removes exactly that name; an unknown name is a no-op. |
| Store.AddStationThenLookup | components/class_holder.py:32-50 | After an add, the station is found by its id. It is found by its name when the name is non-empty; an empty name leaves every name lookup as it was. |
| Store.StationNameCollision | components/class_holder.py:38-40 | Two stations with one name both stay in the id map, and the name finds the later one. |
| Store.DeleteDropsNewerNameEntry | components/class_holder.py:52-56 | Deleting the earlier of two same-named stations drops the name entry that now points to the later one. |
| Store.AddDeleteGet | components/class_holder.py:32-114 | For each class, add then delete then get by id finds nothing. |
| Store.IndependentAllocators | components/class_holder.py:11-14 | In a new store, the first station, first AGV and first path node each get id 1. |
| Store.TypeOverwriteVersusRefuse | components/class_holder.py:123-125 | The store overwrites a same-named type, while the catalogue keeps the old one. |
| Store.StationOpsKeepWellFormed | components/class_holder.py:32-56 | Adding and deleting stations keeps every entry filed under its own id and name. |
| Store.AgvOpsKeepWellFormed | components/class_holder.py:65-89 | The same for AGVs. |
| Store.OtherOpsKeepWellFormed | components/class_holder.py:98-133 | The same for path nodes and station types. |
| Proxies.NewQClassHolder | components/qclass_holder.py:9-16 | A new registry is empty and holds the given store. |
| Proxies.AddQStation | components/qclass_holder.py:21-27 | Builds the proxy and files it under the station's id, replacing any earlier one; the store is untouched. |
| Proxies.GetQStationById | components/qclass_holder.py:29-31 | Found exactly when registered. |
| Proxies.GetQStationByName | components/qclass_holder.py:33-38 | Found exactly when the store's name index knows the name and a proxy is filed under that station's id. |
| Proxies.DeleteQStation | components/qclass_holder.py:40-42 | Removes exactly that key; an unknown key is a no-op; the store is untouched. |
| Proxies.GetAllQStations | components/qclass_holder.py:44-46 | Lists exactly the registered proxies. |
| Proxies.AddQAgv | components/qclass_holder.py:51-57 | As for stations. |
| Proxies.GetQAgvById | components/qclass_holder.py:59-61 | Found exactly when registered. |
| Proxies.GetQAgvByName | components/qclass_holder.py:63-68 | Resolved through the store's AGV name index, then by that AGV's id. |
| Proxies.DeleteQAgv | components/qclass_holder.py:70-72 | As for stations. |
| Proxies.GetAllQAgvs | components/qclass_holder.py:74-76 | Lists exactly the registered proxies. |
| Proxies.AddQPathNode | components/qclass_holder.py:81-87 | As for stations. |
| Proxies.GetQPathNodeById | components/qclass_holder.py:89-91 | Found exactly when registered. |
| Proxies.DeleteQPathNode | components/qclass_holder.py:93-95 | As for stations. |
| Proxies.GetAllQPathNodes | components/qclass_holder.py:97-99 | Lists exactly the registered proxies. |
| Proxies.AddedStationFoundByName | components/qclass_holder.py:21-38 | A named station added to the store and then given a proxy is found by name and by id, and its port is consistent. |
| Proxies.AddedAgvFoundByName | components/qclass_holder.py:51-68 | A named AGV added to the store and then given a proxy is found by name. |
| Proxies.DeletedStationUnreachableByName | components/qclass_holder.py:33-42 | Deleting a station from the store alone makes its proxy unreachable by name, though it stays reachable by id. |
| Persistence.Export | ui/file_management.py:14-74 | The document has one element per catalogue type and per stored station, node and AGV, and no other element in any section. |
| Persistence.ExportWritesOwnIds | ui/file_management.py:32-74 | In a well-formed store, each element's id is its entity's own id. |
| Persistence.ExportCounts | ui/file_management.py:32-74 | The document has exactly as many station, node and AGV elements as the store has entries. |
| Persistence.PortGeometryNotSaved | ui/file_management.py:24-29 | A type's port pose is not written. |
| Persistence.LatestNodeWrittenOnlyIfPresent | ui/file_management.py:72-74 | The latest-node element is written exactly when the AGV has a latest node. |
| Persistence.LoadStationTypes | ui/file_management.py:108-116 | The loader's type loop: each element is offered to the catalogue in turn, and the catalogue never loses a name. `Persistence.LoadStationTypesKeepsExisting` pins which names it gains and that existing types are kept. |
| Persistence.LoadStationTypesKeepsExisting | ui/file_management.py:108-116 | Loading types adds every written name, keeps existing types, and gives new types the default port pose. |
| Persistence.LoadStation | ui/file_management.py:144-168 | A station element with an unknown type is skipped. Otherwise it yields a station with the written id, name, position, heading, size and mesh, and the catalogue's type. |
| Persistence.LoadStations | ui/file_management.py:142-173 | One station per element that names a known type, in document order: the j-th station is built from the j-th such element. |
| Persistence.KnownIndices | ui/file_management.py:152-157 | The positions, in increasing order, of exactly the station elements whose type the catalogue knows. |
| Persistence.LoadStationsFromIndexed | ui/file_management.py:142-173 | From any position on, the loaded stations correspond one for one, in order, to the known-type elements from that position. |
| Persistence.LoadedAreExactlyKnown | ui/file_management.py:142-173 | A sequence built one for one from the known-type elements holds exactly the stations that some element loads to. |
| Persistence.LinkLatestNode | ui/file_management.py:198-203 | An AGV's latest node is linked exactly when the element is present and names a node read from the same document. |
| Persistence.ClearExistingData | ui/file_management.py:216-236 | Empties the stations, AGVs and path nodes of the store and the registry, and resets those three allocators. Station types and the path allocator are kept. |
| Persistence.ClearThenAdd | ui/file_management.py:216-236 | After the reset, the next station, AGV and path node each get id 1. |
| Camera.InitialView | ui/realtime_view.py:88-105 | The camera starts at rotation (45, 45, 0), distance 15 and position (−5, −5, 5), within the zoom and tilt limits. |
| Camera.Paint | ui/realtime_view.py:134 | A repaint rebuilds the view matrix from the current pose. |
| Camera.ProposedDistance | ui/realtime_view.py:624-628 | A positive delta proposes distance/1.1, any other delta distance·1.1. |
| Camera.Wheel | ui/realtime_view.py:621-645 | The proposed distance is taken only inside [2, 50]; otherwise nothing changes. The stale view matrix makes the compensation cancel, so the pan offset stays put. |
| Camera.ZoomInThenOut | ui/realtime_view.py:621-645 | A zoom in that is taken is undone exactly by the next zoom out. |
| Camera.ZoomScenario | ui/realtime_view.py:621-645 | From the initial view a step in is taken (15/1.1); from 2.1 it is refused. |
| Camera.ClampTilt | ui/realtime_view.py:674 | The tilt clamp lands in [−89, 89] and leaves in-range values alone. |
| Camera.MousePress | ui/realtime_view.py:647-652 | A press records the cursor; a middle press also records the world point under it. |
| Camera.MouseMove | ui/realtime_view.py:654-706 | Without a recorded cursor nothing happens. A left drag tilts by dy/2 (clamped) and orbits by dx/2. A middle drag moves x and y back by the world motion and keeps z. The cursor is then recorded. |
| Camera.MouseRelease | ui/realtime_view.py:708-713 | A release forgets the cursor, and a middle release forgets the pan start. |
| Camera.ReleaseThenMoveIsInert | ui/realtime_view.py:654-713 | After a release, moves change nothing. |
| Camera.PanThereAndBack | ui/realtime_view.py:686-700 | A middle drag out and back restores the pan offset. |
| Camera.GesturesKeepValid | ui/realtime_view.py:621-706 | Every gesture keeps the distance in [2, 50] and the tilt in [−89, 89]. |
| Camera.PerspectiveMatrix | ui/realtime_view.py:181-190 | The five formula entries are as written, with f = 1/tan(fovy/2), and every other entry is 0. |
| Camera.DepthRangeMapsToUnitInterval | ui/realtime_view.py:181-190 | The near plane maps to normalised depth −1 and the far plane to +1. |
| Camera.UpperEdgeMapsToOne | ui/realtime_view.py:181-190 | A point on the upper edge of the field of view maps to normalised height +1. |
| Camera.Dehomogenise | ui/realtime_view.py:604-605 | Divides by w when w is non-zero. |
| Camera.GroundPointAsWritten | ui/realtime_view.py:608-612 | The plane step as written scales the point by 1 − z. |
| Camera.AsWrittenOnPlaneOnlyAtZeroOrOne | ui/realtime_view.py:608-611 | The step as written reaches z = 0 exactly when the point's z is 0 or 1. |
| Camera.AsWrittenMissesPlane | ui/realtime_view.py:608-611 | The point (1, 1, 2) is sent to (−1, −1, −2). |
| Camera.GroundIntersect | ui/realtime_view.py:608-611 | The line from the eye through the point meets z = 0 at the returned point, or there is no result when the line is parallel to the plane. |
| Camera.GroundIntersectFixesPlanePoints | ui/realtime_view.py:608-611 | A point already on the plane is its own intersection. |
| Editor.NewEditor | ui/map_editor.py:212-216 | The editor starts in station mode with the add tool, nothing picked, map size 10, the station button checked, tool page 0 and rubber-band drag. |
| Editor.SetMode | ui/map_editor.py:460-482 | Only the new mode's button is checked. The page is 0, 1 or 2 and the drag mode follows. Leaving path mode drops the picked node; station mode drops the current path. |
| Editor.ModeButtonMatchesPage | ui/map_editor.py:468-482 | The checked button agrees with the tool page, and some button is checked exactly for the three known modes. |
| Editor.LastModeWins | ui/map_editor.py:460-482 | The visible result depends only on the last mode chosen, and a node picked in path mode does not survive a second switch. |
| Editor.SetPathTool | ui/map_editor.py:484-490 | Button 0 selects add, button 1 delete; any other button changes nothing. |
| Editor.LastToolButtonWins | ui/map_editor.py:484-490 | The last recognised tool button decides the tool. |
| Editor.SceneRect | ui/map_editor.py:660-664 | The scene rectangle is a square of side 200·m centred on the origin. |
| Editor.GridLines | ui/map_editor.py:666-677 | For m ≥ 0 there are 2(2m+1) lines: for each i from −m to m, a vertical and a horizontal line at 100·i, each spanning ±100·m. |
| Editor.GridInsideScene | ui/map_editor.py:660-677 | Every grid line starts and ends inside the scene rectangle. |
| Editor.WheelScale | ui/map_editor.py:148-157 | A positive delta scales by 1.15, any other delta by 1/1.15. |
| Editor.WheelInOutCancel | ui/map_editor.py:148-157 | One step in and one step out, in either order, compose to scale 1. |
| Editor.StepsInAreGeometric | ui/map_editor.py:148-157 | n steps in multiply the scale by 1.15ⁿ. |
| Editor.AddNodeAtClick | ui/map_editor.py:524-535 | An accepted path-add click stores a node at the click converted to metres, with the next path-node id and the chosen direction, and registers its proxy under that id. |
| Editor.ClickedNodeSitsUnderCursor | ui/map_editor.py:524-535 | The new node's proxy is centred exactly on the clicked scene point, with its arrow at the chosen direction. |
| Editor.HandleMousePress | ui/map_editor.py:492-553 | Middle presses and presses outside path mode change no store. In path mode a left press adds a node when the dialog was accepted, or deletes the node under the cursor from both stores. A delete removes exactly that node's key from each layer. Every other node and proxy keeps its value, and the allocators, station and AGV stores and their proxies are unchanged. |
| Editor.AddThenDeleteNode | ui/map_editor.py:492-550 | A node added by a click and then clicked with the delete tool is gone from both stores. |
| Editor.AddStationAtPosition | ui/map_editor.py:587-625 | Nothing is created without a selected type, or when the name dialog is cancelled or empty. Otherwise a station with the form's position, size and heading is stored and given a proxy. AGV and path-node proxies are unchanged. |
| Editor.PanelStationFoundByName | ui/map_editor.py:587-625 | A station added from the side panel is found by its name, with the type, position, heading and size entered. |

## Left out

- Qt and OpenGL presentation is not modelled: painting, tooltips, pens and brushes, scene membership, dialogs and signals, the 3D draw routines and mesh loading. Dialog outcomes are parameters.
- The XML text layer is not modelled: serialisation, pretty-printing, file reading and writing, and parsing. The document is abstract, with element order dropped.
- A load-then-save round trip is not stated, because the loader as written cannot achieve it. It puts a node's id in the direction slot. It calls `add_path_node` and `add_station`, which the registry does not have. It calls `set_latest_node` on AGVs, which do not have it.
- The loader's node and AGV sections, and the whole `load_map` sequence, are not modelled as operations. Only their skip and link rules are (`LoadStation`, `LoadStations`, `LinkLatestNode`, `LoadStationTypes`).
- Aliasing between the store and proxies is not modelled: in Python they share one mutable record, while here each proxy holds a value copy.
- QAGV keeps a live reference to its AGV beside the id, position, heading and name it copies at construction (components/agv.py:40-44). The split between the two is not modelled: with value copies, an in-place edit of the AGV cannot be told apart from a fresh record. `Agvs.MakeQAgv` states only what the copies hold when the proxy is built.
- `ClassHolder.paths` and `QClassHolder.qpaths` are not modelled. They are never filled.
- `MapEditor.update_map_size` and its proxy rebuild are not modelled. It passes proxies where entities are expected.
- `GLWidget.update_map_size` is not modelled. It is nested inside `mouseReleaseEvent`, so the widget never has it.
- `_create_view_matrix` and the matrix inversion in `_screen_to_world` are not modelled. Both live inside the unprojection parameter.
- Python's float is modelled as `real`, so rounding is not modelled.
- Camera.PerspectiveMatrix: requires a non-zero tangent, a non-zero aspect and distinct clip planes. In those cases numpy yields infinities or NaN, not an error.
- `QStation` reads `self.station_type` and `station.size.width`, which do not exist. `_update_port` calls `direction_arrow.update_arrow`, which does not exist either. The model follows the evidently intended arithmetic: the type of the station, and size components 0/1/2 as width/length/height.
- Export: the exporter reads `station.size.width`, `.length` and `.height` (ui/file_management.py:43-45). Those raise AttributeError on the first stored station, because `size` is a list. The model writes size components 0/1/2.
- Export: the exporter writes `station.size.mesh_path` (ui/file_management.py:46), which raises in the same way. The model writes the station's own mesh path.
- LatestNodeWrittenOnlyIfPresent: the exporter reads `agv.latest_node` (ui/file_management.py:73). components/agv.py:17-32 never declares that field, so every stored AGV raises. The model uses the evidently intended optional latest node.
- LoadStation: the loader assigns `station.size.mesh_path` (ui/file_management.py:168), which raises because `size` is a list. The model stores the mesh path on the station.
- `GLWidget` defines `mousePressEvent` twice. The two bodies are identical and the later one is modelled.
- Python's `None` versus `""` for names is not modelled: both are the empty string, and neither enters a name index.

## Findings

| source | as written | input that shows it | evidently intended | confidence | as-written member | corrected member |
|---|---|---|---|---|---|---|
| ui/realtime_view.py:608-611 | `t = -z; p = p + t*p` scales the point by 1 − z, which reaches z = 0 only when z is 0 or 1 | the point (1, 1, 2) is sent to (−1, −1, −2) | the point where the eye's line through the point meets z = 0, and no point when that line is parallel to the plane | high, not executed | Camera.GroundPointAsWritten, Camera.AsWrittenMissesPlane | Camera.GroundIntersect, Camera.GroundIntersectFixesPlanePoints |
| components/station.py:124-126 | `setPos(100·x, −100·y)` on a port circle whose rectangle already sits at its scene point adds the offset twice | a station at (1, 0) with the default port: the port is drawn at scene x 500 instead of 250. As written the bug is latent: `QStation.__init__` raises first at components/station.py:97, and `_update_port` at lines 108 and 127 | the port circle centred on the port's scene point | high, not executed | Stations.MovePortAsWritten, Stations.PortDrawnTwiceAsFar | Stations.MovePort |
