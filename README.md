# Corkbrick Studio 3D — a verified model of the block designer's core

Corkbrick Studio 3D is a browser tool for designing furniture out of cork
building blocks ("Brocks"): seven block types (base cube, double-height
block, four kinds of connector and a finishing cap) placed on a half-unit
grid inside a room. This project models, in Dafny, the part of the program
that decides where blocks go and what a design is made of:

- **the block catalogue and the live settings** (`constants.ts`,
  `services/geometryConfig.ts`): the seven block specs, room sizes, the
  price, weight and SDG-impact tables, the price/colour/prompt setters with
  their listener list, and the nineteen tunable geometry parameters with
  their get/set/reset/subscribe service — modules `Constants` and
  `GeometryConfig`, the two services as classes over their fields;
- **block shapes** (`services/geometry.ts`): the visual and the collision
  decomposition of every type into axis-aligned sub-boxes, driven by the
  current geometry parameters — module `Geometry`;
- **the physics** (`services/builder.ts`): quarter-turn rotations of
  dimensions and boxes (module `QuarterTurn` holds the exact rotation
  algebra that the source gets from Euler angles), world bounding boxes,
  box overlap, room bounds, collision checking, statistics, selection
  bounds and the layer-by-layer assembly steps — modules `Builder`,
  `BuilderStats` and `InstructionSteps`;
- **snapping and hovering** (`components/Scene.tsx`): the snap of a new
  block against the face of an existing one, the snap on the floor, the
  group of blocks being moved, and the hover validity check — module
  `Scene`, with the ghost state as a class;
- **the editor commands** (`App.tsx`): undo/redo history, placing,
  selecting, moving, absolute transforms, deleting, copy/paste, rotating a
  group about its leader, clearing, and the set of block ids visible in
  instruction mode — module `Editor`, with the editor state as a class;
- **import and bill of materials** (`services/importer.ts`,
  `components/BOMModal.tsx`): recognising a block type from a bounding box
  and a mesh name, the half-unit position snap, and the per-type bill of
  materials with its grand totals — modules `Importer` and `Bom`.

Coordinates are `real`s in grid units (one unit is 0.2 m); rotations are
integer counts of quarter turns about x, y and z. `Math.round`, `Math.sign`,
`Math.abs`, `Math.min`/`max` and `toFixed(1)` are written out in module
`JsMath` with the rounding the JavaScript functions use. A block record may
carry a type tag outside the seven (loaded JSON, AI output); the model keeps
that case as `Unlisted(tag)`, so the "no spec for this type" fallbacks of
the builder, the shapes, the snapping and the statistics are reachable and
modelled. The bill of materials is the exception: it is modelled for listed
types only (see "Left out").

Things the model shows about the program as written:

- `getRotatedDimensions` swaps dimensions per odd turn in x, y, z order,
  whereas the Euler rotation used for collision boxes composes the turns
  the other way; the two agree when at most one axis has an odd turn
  (`Builder.RotatedDimensionsSingleAxis`) and differ on a 3D connector
  turned about x and y (`Builder.RotatedDimensionsMultiAxis`).
- The group rotation in `handleUpdateSelected` turns a member's offset
  about the world axis while adding the turn to the block's own Euler
  angles; for x turns the two agree (`Editor.UpdateSelectedTurnsBlockX`),
  for a y turn on a tilted block they do not (`Editor.TiltedTurnY`).

## Model

| member | source | states |
|---|---|---|
| Types.IndexOf | constants.ts:105 | `indexOf`: -1 exactly when the value is absent, otherwise the position of its first occurrence |
| Types.Find | App.tsx:313 | a block is found exactly when the id occurs, and it is the first block carrying that id |
| JsMath.Round | components/Scene.tsx:189 | `Math.round`: the nearest integer, halves rounded up |
| JsMath.Snap | components/Scene.tsx:280 | rounding to a grid of `1/snap`: the result times `snap` is the rounded scaled input |
| JsMath.RoundHalfAway | services/builder.ts:194 | the rounding of `toFixed`: nearest integer, halves away from zero |
| JsMath.SnapNear | components/Scene.tsx:189 | snapping to a grid of `1/snap` moves a value by at most half a grid step |
| JsMath.SnapIdempotent | components/Scene.tsx:280 | on the half-unit and tenth grids, snapping a snapped value changes nothing |
| Constants.InitialSpec | constants.ts:86-94 | exactly the seven types have a spec; all are cork-coloured; the four connectors are the connector-flagged ones; dimensions agree with the dimension table |
| Constants.Dimensions | constants.ts:87-93 | exactly the seven types have dimensions, all positive |
| Constants.InitialSpecs | constants.ts:86-94 | the catalogue is keyed by the seven types and holds their specs |
| Constants.RoomSpecOf | constants.ts:51-57 | every room has positive width and depth, and its offset is half of each |
| Constants.InitialPrices | constants.ts:71 | the price table covers exactly the seven types |
| Constants.InitialWeights | constants.ts:72 | the weight table covers exactly the seven types |
| Constants.InitialSdgImpacts | constants.ts:73 | the SDG table covers exactly the seven types |
| Constants.InitialColors | constants.ts:85-94 | every type starts cork-coloured |
| Constants.InitialTablesAgree | constants.ts:71-93 | the price and weight tables agree with the catalogue's cost and weight for each type |
| Constants.InitialEntryAgrees | constants.ts:71-93 | a catalogue entry rebuilt from the tables is the entry itself |
| Constants.RemoveFirst | constants.ts:105 | an absent listener leaves the list as it is; otherwise the first occurrence is cut out and the listeners before and after it keep their order |
| Constants.RemoveFirstOnce | constants.ts:105 | a listener subscribed once is gone after unsubscribing, and unsubscribing again changes nothing |
| Constants.AppConfigService.Spec | constants.ts:98-104 | the live spec of a type carries the current cost, weight and colour and the catalogue's name, dimensions and connector flag |
| Constants.AppConfigService.constructor | constants.ts:68-94 | the settings start at the published tables, with every live spec equal to the catalogue |
| Constants.AppConfigService.Notify | constants.ts:108 | every listener is called once, in order |
| Constants.AppConfigService.SetPrice | constants.ts:98 | the price and the spec's cost of that type change, nothing else does, listeners are called |
| Constants.AppConfigService.SetWeight | constants.ts:99 | the weight and the spec's weight of that type change, nothing else does, listeners are called |
| Constants.AppConfigService.SetSdgImpact | constants.ts:100 | only that type's SDG impact changes, listeners are called |
| Constants.AppConfigService.SetPrompt | constants.ts:101 | only that prompt changes, listeners are called |
| Constants.AppConfigService.SetColor | constants.ts:103 | only that type's colour changes, listeners are called |
| Constants.AppConfigService.SetGlobalColor | constants.ts:104 | every type gets the colour, nothing else changes, listeners are called |
| Constants.AppConfigService.Subscribe | constants.ts:105 | the listener is appended |
| Constants.AppConfigService.Unsubscribe | constants.ts:105 | the listener list becomes RemoveFirst of the old one: the first occurrence is cut out, the rest keep their (notification) order |
| QuarterTurn.Cos | services/builder.ts:32-35 | the cosine of a quarter-turn count is 1, 0 or -1, and 0 exactly for odd counts |
| QuarterTurn.Sin | services/builder.ts:32-35 | the sine of a quarter-turn count is 1, 0 or -1, and 0 exactly for even counts |
| QuarterTurn.OddIsRemainder | services/builder.ts:23-25 | an odd turn count is one that leaves 1 or 3 quarter turns |
| QuarterTurn.PermXPermutes | services/builder.ts:23 | the x-turn swap keeps the three dimensions as a multiset |
| QuarterTurn.PermYPermutes | services/builder.ts:24 | the y-turn swap keeps the three dimensions as a multiset |
| QuarterTurn.PermZPermutes | services/builder.ts:25 | the z-turn swap keeps the three dimensions as a multiset |
| QuarterTurn.AxisPermutationPermutes | services/builder.ts:35-39 | the axis permutation of a rotation keeps the components as a multiset |
| QuarterTurn.RotateScale | services/builder.ts:45-60 | rotating a sign-flipped half-size flips the signs of the rotated half-size along the permuted axes |
| QuarterTurn.AbsRotate | services/builder.ts:42-64 | the absolute rotated half-size is the permuted absolute half-size |
| QuarterTurn.AbsRotateAtLeast | services/builder.ts:42-64 | a rotated box keeps every half-extent at least as large as its smallest one |
| QuarterTurn.RotateNegate | services/builder.ts:45-60 | rotating the opposite corner gives the opposite rotated corner |
| QuarterTurn.RotateIdentity | services/builder.ts:32-35 | zero turns leave a vector unchanged (`Rotate` is `applyEuler` with XYZ order at quarter turns) |
| QuarterTurn.RotateFullTurn | services/builder.ts:32-35 | adding whole turns changes nothing |
| GeometryConfig.Assign | services/geometryConfig.ts:160-161 | setting a parameter changes that one and no other |
| GeometryConfig.AssignRoundTrip | services/geometryConfig.ts:160-161 | setting a parameter back to its old value restores the configuration |
| GeometryConfig.Extensionality | services/geometryConfig.ts:4-35 | two configurations with the same value for every parameter are equal |
| GeometryConfig.MetaOf | services/geometryConfig.ts:40-146 | every default lies within its dashboard range, and every step is positive |
| GeometryConfig.RemoveAll | services/geometryConfig.ts:172-174 | unsubscribing removes every occurrence of the listener and keeps the others |
| GeometryConfig.RemoveAllAppend | services/geometryConfig.ts:172-174 | the filter distributes over concatenation |
| GeometryConfig.RemoveAllAbsent | services/geometryConfig.ts:172-174 | unsubscribing an absent listener changes nothing |
| GeometryConfig.GeometryConfigService.constructor | services/geometryConfig.ts:148-150 | the service starts at the defaults with no listeners |
| GeometryConfig.GeometryConfigService.Get | services/geometryConfig.ts:152-154 | returns the current value of the parameter |
| GeometryConfig.GeometryConfigService.GetAll | services/geometryConfig.ts:156-158 | returns the current configuration |
| GeometryConfig.GeometryConfigService.Notify | services/geometryConfig.ts:177-179 | every listener is called once, in order |
| GeometryConfig.GeometryConfigService.Set | services/geometryConfig.ts:160-163 | the configuration is the old one with that parameter set, and listeners are called |
| GeometryConfig.GeometryConfigService.Reset | services/geometryConfig.ts:165-168 | the configuration is back at the defaults, and listeners are called |
| GeometryConfig.GeometryConfigService.Subscribe | services/geometryConfig.ts:170-171 | the listener is appended |
| GeometryConfig.GeometryConfigService.Unsubscribe | services/geometryConfig.ts:172-174 | every occurrence of the listener is removed |
| Geometry.ComponentBoxes | services/geometry.ts:14-145 | each type has its fixed number of sub-boxes, visual and collision alike; `VisualBoxes` and `CollisionBoxes` are its two branches |
| Geometry.UnlistedFallback | services/geometry.ts:143-144 | a type without a shape gets one unit box for display (line 65) and one half-unit box for collision |
| Geometry.Conn1DVisualFixed | services/geometry.ts:48-54 | the linear connector's visual shape does not depend on the parameters |
| Geometry.BaseSlabOnFloor | services/geometry.ts:42-43 | the base block's visual slab rests on the block's bottom face and is as high as the parameter says |
| Geometry.CollisionShrink | services/geometry.ts:71-72 | connector and cap collision boxes are shrunk in height, base and double slabs in width and depth |
| Geometry.BackStubs | services/geometry.ts:128-132 | the short back stubs appear exactly on the 2D connector's -x and -z sides and the 3D connector's -z side |
| Geometry.Conn4DMirrorSymmetric | services/geometry.ts:134-135 | the 4-way connector's collision shape is symmetric under both mirrors |
| Geometry.Conn4DMirrorX | services/geometry.ts:134-135 | the 4-way connector's collision shape is symmetric under the x mirror |
| Geometry.Conn4DMirrorZ | services/geometry.ts:134-135 | the 4-way connector's collision shape is symmetric under the z mirror |
| Geometry.BasePillars | services/geometry.ts:108-112 | after its slab, a base block's collision shape is one ring of pillars at height 0.25 |
| Geometry.DoublePillars | services/geometry.ts:114-119 | after its slab, a double block's collision shape is pillar rings at heights 0.75 and -0.75 |
| Geometry.PillarLayout | services/geometry.ts:100-105 | a pillar ring has its pillars at the four corners ±0.35, at the given height, with the pillar size |
| Builder.RotatedDimensionsPositive | services/builder.ts:13-28 | rotated dimensions are positive |
| Builder.RotatedDimensionsPermutes | services/builder.ts:13-28 | a type without a spec is a unit cube; otherwise the rotated dimensions are a permutation of the spec's; `RotatedDimensions` is `getRotatedDimensions`, `SwapByParity` its three exchanges |
| Builder.RotatedDimensionsParity | services/builder.ts:19-25 | rotated dimensions depend only on which turn counts are odd |
| Builder.RotatedDimensionsHalfTurn | services/builder.ts:19-25 | half turns and negated turns do not change rotated dimensions |
| Builder.RotatedDimensionsSingleAxis | services/builder.ts:13-28 | with at most one odd turn, rotated dimensions are the extents of the rotated box |
| Builder.RotatedDimensionsMultiAxis | services/builder.ts:23-25 | with odd x and y turns a 3D connector's rotated dimensions differ from the extents of its rotated box |
| Builder.WorldAabb | services/builder.ts:31-67 | a world bounding box has min at most max on every axis |
| Builder.CornerInWorldAabb | services/builder.ts:45-64 | every rotated corner lies in the world box, and corners 0 and 7 are the centre plus and minus the rotated half-size |
| Builder.TransformBoxToWorld | services/builder.ts:31-67 | the loop over the eight corners computes the world box, and every corner lies in it |
| Builder.WorldAabbUnrotated | services/builder.ts:31-67 | without rotation the world box is the sub-box moved by the block position |
| Builder.WorldAabbExtentsPermuted | services/builder.ts:42-64 | the world box's half-extents are a permutation of the sub-box's half-size |
| Builder.OverlapsSymmetric | services/builder.ts:69-76 | overlap is symmetric, and boxes that touch within the margin on any axis do not overlap (`Overlaps` is `checkBoxOverlap`) |
| Builder.SelfOverlap | services/builder.ts:69-76 | a box overlaps itself exactly when it is thicker than the margin on every axis |
| Builder.InRoom | services/builder.ts:78-97 | an unlimited room accepts everything; otherwise the rotated footprint must lie within the room up to the margin |
| Builder.InRoomIgnoresHeight | services/builder.ts:78-97 | room bounds do not depend on height |
| Builder.NicheBoundsExamples | services/builder.ts:78-97 | in the 2 m niche a base block may reach 0.01 past the wall but not 0.02, and a turned 3D connector fits where an unturned one does not |
| Builder.DistSq | services/builder.ts:117 | squared distances are non-negative |
| Builder.CheckCollision | services/builder.ts:99-131 | the check reports a collision exactly when the position is missing, the block would sink below the floor, or a nearby block not ignored has overlapping sub-boxes; `BelowFloor` is the floor guard and `Collides` the verdict it is proved equal to |
| Builder.AnyBoxesOverlap | services/builder.ts:122-128 | the nested loops find an overlapping pair of sub-boxes exactly when one exists |
| Builder.CollidesEmpty | services/builder.ts:106-114 | on an empty scene only the floor can block a placement |
| Builder.CollidesAppend | services/builder.ts:114-130 | a collision with two lists of blocks is a collision with one of them |
| Builder.CollidesAllIgnored | services/builder.ts:115 | ignored blocks never block a placement |
| Builder.FirstPartThick | services/geometry.ts:107-141 | every type's first collision box is at least 0.1 thick on every axis |
| Builder.SamePlacementCollides | services/builder.ts:99-131 | a block placed exactly where a non-ignored block of the same type and rotation sits collides with it |
| BuilderStats.CalculateStats | services/builder.ts:133-158 | the loop sums cost, weight and SDG impact over the blocks that have a spec and counts the blocks per spec name |
| BuilderStats.TotalsAppend | services/builder.ts:143-155 | the totals and counts of two lists add up (`TotalCost` and its weight, SDG and count companions) |
| BuilderStats.UnlistedAddsNothing | services/builder.ts:145-146 | a block without a spec adds nothing to the totals or counts |
| BuilderStats.Footprint | services/builder.ts:171-177 | a block's footprint has positive extent on every axis |
| BuilderStats.Hull | services/builder.ts:163-178 | the hull of the selected footprints has min at most max |
| BuilderStats.CalculateSelectionBounds | services/builder.ts:160-187 | the loop returns nothing exactly when no block is selected, and otherwise the hull's size in metres |
| BuilderStats.HullExists | services/builder.ts:166-180 | there is a hull exactly when some block on the scene is selected |
| BuilderStats.HullEmptySelection | services/builder.ts:161 | an empty selection has no bounds |
| BuilderStats.HullContains | services/builder.ts:167-178 | every selected block's footprint lies within the hull |
| BuilderStats.HullTight | services/builder.ts:167-178 | every face of the hull is a face of some selected block's footprint |
| BuilderStats.SelectionSizeExact | services/builder.ts:181-186 | the reported size is the hull's extent times 0.2 m, and positive on every axis |
| InstructionSteps.KeyOf | services/builder.ts:194 | a block's layer key is its height rounded to tenths |
| InstructionSteps.KeyMonotone | services/builder.ts:194-198 | a higher block never gets a lower layer key |
| InstructionSteps.Layer | services/builder.ts:195-196 | a layer holds only blocks of the scene with that key |
| InstructionSteps.KeysInOrder | services/builder.ts:195 | layer keys are recorded once each, in first-seen order |
| InstructionSteps.KeysInOrderComplete | services/builder.ts:192-197 | every block's key is recorded |
| InstructionSteps.KeysInOrderSound | services/builder.ts:192-197 | every recorded key belongs to some block |
| InstructionSteps.LayerAbsent | services/builder.ts:195-196 | a key that was not recorded has an empty layer |
| InstructionSteps.InsertByTenths | services/builder.ts:198 | inserting a key adds exactly that key |
| InstructionSteps.InsertSorted | services/builder.ts:198 | inserting into a sorted key list keeps it sorted |
| InstructionSteps.SortByTenths | services/builder.ts:198 | the sorted keys are a permutation of the keys, in ascending height |
| InstructionSteps.InsertNoDuplicates | services/builder.ts:198 | inserting a new key keeps the keys distinct |
| InstructionSteps.SortNoDuplicates | services/builder.ts:198 | sorting distinct keys keeps them distinct |
| InstructionSteps.LayersOf | services/builder.ts:199 | one layer per key, in the keys' order |
| InstructionSteps.GroupByLayer | services/builder.ts:191-197 | the loop builds one layer per recorded key, holding that key's blocks in scene order |
| InstructionSteps.LookUp | services/builder.ts:199 | one looked-up layer per key |
| InstructionSteps.LookUpLayers | services/builder.ts:199 | looking the sorted keys up in the grouped layers gives the layers of those keys |
| InstructionSteps.GenerateInstructionSteps | services/builder.ts:189-200 | the steps are the layers of the scene in ascending height (`Steps` is what it returns) |
| InstructionSteps.StepsAreLayers | services/builder.ts:189-200 | each step is a non-empty layer whose blocks all share the step's key |
| InstructionSteps.LayerHas | services/builder.ts:192-196 | every block lies in its own layer |
| InstructionSteps.StepsAscend | services/builder.ts:198-199 | a block of an earlier step sits on a strictly lower layer than a block of a later step |
| InstructionSteps.FlattenGrouped | services/builder.ts:199 | the blocks of the layers of distinct keys are the blocks with those keys |
| InstructionSteps.GroupedSnoc | services/builder.ts:192-197 | adding a block adds it to the grouped blocks exactly when its key is among the keys |
| InstructionSteps.GroupedAll | services/builder.ts:192-199 | when every block's key is listed, the grouped blocks are all blocks |
| InstructionSteps.GroupedEmpty | services/builder.ts:190 | an empty scene groups nothing |
| InstructionSteps.StepsPermutation | services/builder.ts:189-200 | the steps together hold every block exactly once |
| InstructionSteps.StepsExample | services/builder.ts:189-200 | blocks at heights 0, 0.5, 0.5 and 1 give the steps [a], [b, c], [d] |
| InstructionSteps.ExampleBlockKeys | services/builder.ts:194 | heights 0, 0.5 and 1 have keys 0, 5 and 10 tenths |
| InstructionSteps.ExampleKeys | services/builder.ts:195 | the example's keys are recorded in first-seen order |
| InstructionSteps.ExampleSort | services/builder.ts:198 | sorted keys stay in place |
| InstructionSteps.ExampleLayers | services/builder.ts:195-196 | the example's layers are [a], [b, c] and [d] |
| Scene.ConnectorClassTypes | components/Scene.tsx:178-179 | the connector class is the four connectors and the finishing cap (`ConnectorClass`) |
| Scene.EdgeOffset | components/Scene.tsx:199-204 | a hit farther than 0.2 from the centre shifts half a unit toward it, a nearer one does not shift |
| Scene.CalculateSnap | components/Scene.tsx:174-209 | no snap when either type lacks a spec; precision mode always snaps |
| Scene.SnapPrecisionTop | components/Scene.tsx:187-190 | in precision mode a top face gives x and z equal to the hit point rounded to a tenth (ten times each is `Math.round` of ten times the hit), within 0.05 of it, and the stacked height |
| Scene.SnapPrecisionSide | components/Scene.tsx:183-191 | in precision mode any other face gives, on each axis, the point half the rotated extent out along the normal (`OutAlongNormal`) rounded to a tenth and within 0.05 of it |
| Scene.SnapOnTenths | components/Scene.tsx:191 | snapping with 10 lands on a tenth at most 0.05 from the input |
| Scene.SnapGridTop | components/Scene.tsx:193-206 | on a top face the block stacks on the target, sunk half a unit on an interlock, shifted half a unit toward an edge hit; `StackHeight` is the touching-faces height |
| Scene.SnapGridSide | components/Scene.tsx:207-208 | on a side face the block is the neighbour along the rounded normal exactly when the face is vertical, and otherwise there is no snap |
| Scene.StackingExamples | components/Scene.tsx:193-205 | a linear connector dropped on a base block sinks to height 0.5; a base block on a base block stacks at 1 |
| Scene.FloorSnapOnFloor | components/Scene.tsx:280 | a floor snap rests the block on the floor, so the floor guard of the collision check passes (`FloorSnap`) |
| Scene.FloorSnapOnGrid | components/Scene.tsx:280 | a floor snap puts x and z on tenths with precision and on halves without |
| Scene.FloorSnapStable | components/Scene.tsx:280 | snapping the snapped position again gives the same position, so a resting cursor does not make the ghost drift |
| Scene.Offsets | components/Scene.tsx:306 | the group has at most one member per block |
| Scene.MovingGroupHasLeader | components/Scene.tsx:301-306 | `MovingGroup` is empty unless moving with a selection whose first id is on the scene; then the first block with that id is in the group, unturned at offset zero |
| Scene.OffsetsRoundTrip | components/Scene.tsx:306 | each member is a selected block, and the leader's position plus the offset is that block's position |
| Scene.LeaderOffsetZero | components/Scene.tsx:306 | with unique ids the leader's own offset is zero |
| Scene.OffsetsSource | components/Scene.tsx:306 | each member comes from a selected block with the same id, type and rotation, its offset taken from the leader |
| Scene.OffsetsComplete | components/Scene.tsx:306 | every selected block on the scene is in the group |
| Scene.GroupFits | components/Scene.tsx:247-251 | the loop finds the group valid exactly when every member fits the room and collides with nothing unselected |
| Scene.Ghost.constructor | components/Scene.tsx:299-300 | no ghost, placement valid |
| Scene.Ghost.HandleHover | components/Scene.tsx:241-254 | the ghost follows the cursor; validity is unchanged when there is no position and otherwise is the room, group and collision check (`HoverValid`) |
| Editor.Remove | App.tsx:291 | removing an id keeps every other id and keeps ids distinct; an absent id changes nothing, and with distinct ids the id is cut out of its place with the others in their order, so the first remaining id is the next leader |
| Editor.Toggle | App.tsx:289-294 | toggling flips membership of that id only, keeping ids distinct; a new id goes at the end, a present one is cut out of its place with the others in their order |
| Editor.ToggleTwice | App.tsx:289-294 | toggling twice gives the same selection |
| Editor.SelectedBlocks | App.tsx:393 | the copied blocks are exactly the selected blocks (their order: SelectedBlocksOrder) |
| Editor.SelectedBlocksOrder | App.tsx:393 | the copy keeps scene order: filtering a concatenation is filtering each part, one after the other |
| Editor.UnselectedBlocks | App.tsx:384 | the remaining blocks are exactly the unselected ones (their order: UnselectedBlocksOrder) |
| Editor.UnselectedBlocksOrder | App.tsx:384 | a delete keeps the rest in scene order: filtering a concatenation is filtering each part, one after the other |
| Editor.DeletePartition | App.tsx:382-393 | deleted and remaining blocks together are the scene |
| Editor.UnselectedNothing | App.tsx:384 | with nothing selected nothing is deleted |
| Editor.MoveGroup | App.tsx:320-333 | moving keeps the number of blocks |
| Editor.MoveGroupRigid | App.tsx:309-337 | a move keeps ids, types and timestamps, leaves unselected blocks alone, keeps each selected block's offset from the leader, puts the leader where asked and keeps followers' rotations |
| Editor.SetAbsolute | App.tsx:350-368 | the transform keeps the number of blocks |
| Editor.SetAbsoluteRigid | App.tsx:339-370 | the leader gets the absolute position, every selected block the absolute rotation, followers keep their offsets, unselected blocks are unchanged |
| Editor.StepSign | App.tsx:431-433 | `Math.sign` of a non-zero step is ±1 with the step's sign |
| Editor.TurnsAreRotations | App.tsx:431-433 | each offset turn is a quarter turn about that axis in the step's direction (`TurnX`, `TurnY`, `TurnZ`, composed by `TurnOffset`) |
| Editor.TurnOffsetKeepsLength | App.tsx:427-433 | turning an offset keeps its length |
| Editor.TurnXKeepsLength | App.tsx:431 | the x turn keeps length |
| Editor.TurnYKeepsLength | App.tsx:432 | the y turn keeps length |
| Editor.TurnZKeepsLength | App.tsx:433 | the z turn keeps length |
| Editor.TurnOffsetUndo | App.tsx:431-433 | a single-axis turn followed by the opposite turn restores the offset |
| Editor.TurnOffsetFourTimes | App.tsx:431-433 | four equal single-axis turns restore the offset |
| Editor.UpdateSelected | App.tsx:425-448 | the update keeps the number of blocks |
| Editor.UpdateSelectedRigid | App.tsx:416-450 | unselected blocks are unchanged; selected ones add the rotation step, keep their distance from the moved leader, and the leader moves by the position step |
| Editor.UpdateSelectedTurnsBlockX | App.tsx:431-445 | for a ±1 x step the offset turn agrees with the block's new Euler rotation |
| Editor.TiltedTurnY | App.tsx:432-445 | for a block tilted about x, a y step turns the offset differently from the block |
| Editor.Copies | App.tsx:400-408 | pasted copies carry exactly the new ids, one per clipboard block |
| Editor.PasteKeepsIdsDistinct | App.tsx:397-414 | pasting with fresh distinct ids keeps the scene's ids distinct |
| Editor.VisibleBlockIds | App.tsx:219-226 | outside instruction mode nothing; otherwise the ids of steps 0 to the current one that exist |
| Editor.UnionIdsFlatten | App.tsx:219-226 | the visible ids are the ids of the blocks of those steps (`UnionIds`) |
| Editor.AllVisibleAtLastStep | App.tsx:219-226 | at the last step every block of the scene is visible |
| Editor.EditorState.Blocks | App.tsx:177 | the scene is the history entry at the cursor |
| Editor.EditorState.constructor | App.tsx:175-199 | one empty snapshot, build mode, base type, nothing selected or moving, empty clipboard |
| Editor.EditorState.PushState | App.tsx:249-255 | redo entries are cut off, the new scene is appended and becomes current, and the previous scene stays one step back |
| Editor.EditorState.Undo | App.tsx:257-263 | steps the cursor back and clears selection and moving, unless at the start |
| Editor.EditorState.Redo | App.tsx:265-271 | steps the cursor forward and clears selection and moving, unless at the end |
| Editor.EditorState.PlaceBlock | App.tsx:273-284 | in build mode appends the new block as a new snapshot and clears the selection; otherwise nothing changes |
| Editor.EditorState.SelectBlock | App.tsx:286-307 | in edit mode multi-select toggles, a click on a selected block starts moving, another click selects only it; other modes select only it |
| Editor.EditorState.MoveBlock | App.tsx:309-337 | when moving with a leader on the scene, pushes the moved group and stops moving; otherwise nothing changes |
| Editor.EditorState.SetAbsoluteTransform | App.tsx:339-370 | with a leader on the scene, pushes the transformed group; otherwise nothing changes |
| Editor.EditorState.DeleteSelected | App.tsx:382-389 | with a selection, pushes the scene without the selected blocks and clears selection and moving |
| Editor.EditorState.Copy | App.tsx:391-395 | with a selection, the clipboard becomes the selected blocks |
| Editor.EditorState.Paste | App.tsx:397-414 | with a clipboard, pushes the scene plus fresh copies, selects them, switches to edit mode and starts moving |
| Editor.EditorState.UpdateSelectedBlocks | App.tsx:416-450 | with a leader on the scene, pushes the group turned and moved about the leader; otherwise nothing changes |
| Editor.EditorState.Clear | App.tsx:372-380 | the history is one empty snapshot at cursor 0, nothing selected or moving |
| Importer.Sort3 | services/importer.ts:13 | the sorted dimensions are ascending |
| Importer.Sort3Permutes | services/importer.ts:13 | the sorted dimensions are a permutation of the input |
| Importer.SortedUnique | services/importer.ts:13 | two ascending triples with the same components are equal |
| Importer.Sort3Symmetric | services/importer.ts:12-13 | every ordering of the three sizes sorts the same |
| Importer.SwapFirst | services/importer.ts:13 | swapping the first two sizes does not change the sort |
| Importer.SwapLast | services/importer.ts:13 | swapping the last two sizes does not change the sort |
| Importer.CubeKind | services/importer.ts:20-25 | a cube-sized part is a linear connector, a cap or a base block |
| Importer.ShapeOf | services/importer.ts:19-47 | a recognised shape is within the tolerance of its nominal size |
| Importer.ShapeType | services/importer.ts:19-45 | every recognised shape maps to one of the seven types |
| Importer.MatchBlockType | services/importer.ts:11-48 | a match is always one of the seven types |
| Importer.MatchPermutationInvariant | services/importer.ts:12-13 | the match does not depend on the order of the sizes |
| Importer.MatchAgreesWithCatalogue | services/importer.ts:19-45 | a matched type's catalogue size in metres is within the tolerance of the part |
| Importer.ShapeTypeNominal | services/importer.ts:19-45 | each shape's nominal size is the catalogue size of the type it maps to |
| Importer.NominalSizes | constants.ts:87-93 | the catalogue sizes in metres, sorted: cubes 0.2³, double 0.2×0.2×0.4, 2D 0.2×0.3×0.3, 3D 0.2×0.3×0.4, 4D 0.2×0.4×0.4 |
| Importer.MatchNone | services/importer.ts:19-47 | there is no match exactly when the part is near none of the five sizes, and only a cube's match depends on the name |
| Importer.ToleranceStrict | services/importer.ts:16-17 | a size 0.05 off does not match, 0.04 off does |
| Importer.ToLower | services/importer.ts:21 | lower-casing keeps the length |
| Importer.ContainsAt | services/importer.ts:22-23 | a substring found at some position is contained (`Contains` is `String.prototype.includes`) |
| Importer.ContainsLetters | services/importer.ts:22-23 | every letter of a contained substring is in the name |
| Importer.MissingLetter | services/importer.ts:22-23 | a name missing a letter of the word does not contain it |
| Importer.ConnCapName | services/importer.ts:22 | "Conn-Cap" is a linear connector, because the connector words are checked first |
| Importer.CapName | services/importer.ts:23 | "CAP" is a finishing cap |
| Importer.PlainName | services/importer.ts:24 | a name with none of the words is a base block |
| Importer.MatchCubeExample | services/importer.ts:19-24 | a 0.2 m cube named "Conn-Cap" is a linear connector |
| Importer.MatchTallExample | services/importer.ts:27-30 | a 0.21×0.4×0.19 part is a double block whatever its name |
| Importer.SnapHalfProperties | services/importer.ts:137-139 | an imported coordinate is on the half-unit grid and within a quarter unit of the exact one (`SnapHalf`) |
| Importer.ImportedBlock | services/importer.ts:133-143 | an imported block has the given id, type and time, no rotation, and each coordinate on the half-unit grid within a quarter unit of the centre in grid units |
| Bom.Count | components/BOMModal.tsx:52 | the number of blocks of a type |
| Bom.CountPositive | components/BOMModal.tsx:38-52 | a type has a positive count exactly when some block has it |
| Bom.Total | components/BOMModal.tsx:57-59 | the grand total of a table over the blocks |
| Bom.RepeatIsProduct | components/BOMModal.tsx:53-55 | adding a unit value once per block gives count times value |
| Bom.ItemOf | components/BOMModal.tsx:38-55 | a line carries its type, its block count and the unit values of the tables |
| Bom.NameKeyIsInitial | components/BOMModal.tsx:63 | the sort key is the first letter of the catalogue name |
| Bom.NameOrderCovers | components/BOMModal.tsx:63 | the name order lists exactly the seven types |
| Bom.NameOrderAscending | components/BOMModal.tsx:63 | the name order is ascending by name key |
| Bom.NameOrderDistinct | components/BOMModal.tsx:63 | the name order lists each type once |
| Bom.ItemsFor | components/BOMModal.tsx:62-63 | at most one line per listed type |
| Bom.BillOfMaterials | components/BOMModal.tsx:15-68 | the lines are those of the present types in name order, and the grand totals are the tables summed over the blocks; `Items` is its line list |
| Bom.GroupByType | components/BOMModal.tsx:32-60 | the loop keeps one group per type present, each the line of that type, and the running grand totals |
| Bom.SortByName | components/BOMModal.tsx:62-63 | the groups emitted in name order are the bill's lines |
| Bom.TallyStep | components/BOMModal.tsx:38-55 | tallying one more block keeps the groups those of the blocks seen (`Tally` adds one block to its line) |
| Bom.GroupKeysStep | components/BOMModal.tsx:38-50 | tallying keeps exactly the seen types as groups |
| Bom.GroupLinesStep | components/BOMModal.tsx:52-55 | tallying keeps every group equal to its type's line |
| Bom.OtherLineStep | components/BOMModal.tsx:52-55 | tallying a block leaves other types' lines as they were |
| Bom.OwnLineStep | components/BOMModal.tsx:38-55 | tallying a block makes its type's group the line over one more block |
| Bom.CountStep | components/BOMModal.tsx:52 | one more block adds one to its type's count |
| Bom.TotalsStep | components/BOMModal.tsx:57-59 | one more block adds its unit values to the grand totals |
| Bom.TotalStep | components/BOMModal.tsx:57 | one more block adds its unit value to a total |
| Bom.LinesPerType | components/BOMModal.tsx:53-55 | the line totals sum to the per-type sums |
| Bom.LineTotalOf | components/BOMModal.tsx:53-55 | a line's total is its unit value added once per block |
| Bom.CountsPerType | components/BOMModal.tsx:52 | the line counts sum to the per-type counts |
| Bom.TotalPerType | components/BOMModal.tsx:57-59 | a grand total is the sum over the types of its per-type sums |
| Bom.BlocksPerType | components/BOMModal.tsx:52 | the per-type counts sum to the number of blocks |
| Bom.GrandTotalsAreLineSums | components/BOMModal.tsx:53-59 | each grand total is the sum of the line totals, and the line counts sum to the number of blocks |
| Bom.Present | components/BOMModal.tsx:63 | the listed types that occur in the blocks |
| Bom.KindsPresent | components/BOMModal.tsx:62-63 | the bill has lines for exactly the present types, in the listed order |
| Bom.PresentAscending | components/BOMModal.tsx:63 | the present types keep the name order |
| Bom.ItemsForValues | components/BOMModal.tsx:38-63 | every line carries its type's count, unit values and totals |
| Bom.BillTypes | components/BOMModal.tsx:62-63 | the bill has a line for exactly the types that occur, in ascending name order |
| Bom.BillValues | components/BOMModal.tsx:38-63 | every line of the bill carries its type's count, unit values and totals |

## Left out

- Rendering, meshes, cameras, the ruler, drag-selection rectangles, modals, printing, local storage and the React lifecycle: they draw or store data and compute nothing the core relies on.
- The AI architect (prompt building, the network call, parsing its answer) and `setAiArchitect`, which only stores model settings for it.
- File import parsing (`parseGltfToBlocks`): loading, scene traversal and unit detection are asynchronous I/O; only the type match and the half-unit snap it applies to each part are modelled.
- Floating point: every number is an exact real, so rounding errors of the source's doubles (in rotations by π/2, in sums of prices) are not modelled; `Math.PI`-based sines and cosines are replaced by their exact values at quarter turns.
- Builder.TransformBoxToWorld: the loop starts its minimum and maximum at corner 0 instead of at plus and minus infinity, which reals do not have; the result is the same.
- Null and undefined guards on blocks, positions and lists (`!block`, `|| []`, `|| 0`) are not modelled, because Dafny values are never missing; the missing position of `checkCollision` is kept as an `Option`.
- Default parameters of `checkCollision` and `getComponentBoxes` are not modelled; callers pass every argument.
- Builder.CheckCollision and Geometry.ComponentBoxes take the geometry configuration as a parameter instead of reading the live service on every call.
- Random ids and `Date.now()` are parameters of the editor commands (`newId`, `newIds`, `now`); that pasted ids are distinct is a precondition of Editor.EditorState.Paste, and that they are new to the scene a hypothesis of Editor.PasteKeepsIdsDistinct, rather than properties of the random generator.
- Listener callbacks are opaque identities; their bodies (which re-render the page) are not modelled, and a call is recorded in a log instead.
- Editor.EditorState.Clear: it also closes instruction mode and the confirm dialog, which are not part of the modelled editor state.
- Editor.UpdateSelectedTurnsBlockX: agreement between offset turns and block rotations is proved for x steps of ±1 only; for y and z steps it fails on tilted blocks (Editor.TiltedTurnY).
- InstructionSteps.SortByTenths: keys that parse to the same number (`"-0.0"` and `"0.0"`) are distinct keys that the stable sort keeps in first-seen order; the model's keys record the sign of a negative zero, but the sort's stability among such ties is not stated.
- Importer.ToLower: lower-cases ASCII letters only; other Unicode case mappings are not modelled.
- Bom.BillOfMaterials: requires every block's type to be in the three tables. For a type missing from them the source stores an undefined spec and undefined prices, so the totals become NaN, and once the bill has a second line the sort comparator reads `name` of the undefined spec and throws a TypeError; neither failure is modelled.
- Editor.SelectedBlocks and Editor.UnselectedBlocks: their own contracts state membership; the order they keep is stated by SelectedBlocksOrder and UnselectedBlocksOrder beside them.
- Bom.BillOfMaterials: lines are sorted by the catalogue names, which start with distinct characters, so `localeCompare` is reduced to comparing first characters in a fixed order; names edited at runtime are not followed.
- Bom.Total: grand totals are exact repeated additions of reals, not floating-point sums.
