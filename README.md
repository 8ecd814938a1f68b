# Collaborative whiteboard core, modelled in Dafny

A model of the core of a collaborative whiteboard. Its React frontend lets
signed-in users place sticky notes, shapes, text, lines, frames and
connectors on a shared, pannable and zoomable canvas, and shows other users'
live cursors. Its Python backend turns natural-language commands into board
actions through a language model's tool calls.

The model has one Dafny module per source file:

- **Geometry and view rules** (`ConnectorUtils`, `ConnectorView`, `SelectionRect`,
  `Transformer`): object centres, where a connector meets a rectangle's or a
  circle's outline, how a connector resolves its ends, rectangle normalisation
  and the resize guard. Each is proved against what it means geometrically:
  every edge point lies on the ray toward the other object, and a
  rectangle's also lies on its outline (for a circle the square root is a
  parameter, so only the ray is proved).
- **Viewport and selection** (`UseCanvas`, `UseSelection`): the canvas hook is a
  class whose zoom, pan and reset methods keep the scale within its bounds. The
  wheel zoom is proved to keep the canvas point under the pointer fixed.
  Selection is a set of ids with its transitions.
- **Object store** (`Board`): the Firestore client as a class over an abstract
  document map. Commits can be refused, and ids are drawn from an injective
  supply. Bulk creates and deletes are split into chunks of 500, and the
  chunking loops are proved to cover every item exactly once.
- **AI action executor** (`AiExecutor`): the frontend's partition of actions into
  creates, connectors, updates and deletes. It assigns zIndex values, resolves
  connector ids through the id map and tallies successes and failures.
- **Presence and colours** (`StringHash`, `Colors`, `Presence`, `UsePresence`): the
  32-bit-shift string hash, the palette, the presence records, the cursor
  throttle and the peer list.
- **Chat hook** (`UseAiAgent`): the chat panel's message list and its loading and
  panel flags, as a state machine.
- **Object components** (`BoardCanvas`, `ObjectHandlers`, `StickyNote`, `Frame`,
  `TextElement`, `LineShape`): click-to-create and keyboard rules, and transform
  clamps. A drag end is written to the object's x and y, or handed to the
  group drag handler when several objects are selected. The text and title
  editors are modelled through their lifecycles.
- **Backend** (`ToolDispatch`, `Tools`, `Auth`): the tool-call-to-action translator
  with its defaults and error paths, and the conversion loop of the command
  endpoint. The tool table is proved consistent with the translator. The
  bearer-token check takes the Firebase verifier as a parameter.

`Wrappers` holds `Option` and `Result`. `Values` holds the JSON/JavaScript
values that documents and actions carry.

## Model

| member | source | states |
|---|---|---|
| ConnectorUtils.ObjectCenter | frontend/src/utils/connectorUtils.js:1-33 | no object gives the origin; a circle is anchored at its own x and y as stored, undefined when missing; a line's y is its y as stored, not converted (lines 22-26); every other coordinate is a number exactly when its x (or y) converts to one, and NaN otherwise |
| ConnectorUtils.CenterPoint | frontend/src/utils/connectorUtils.js:1-33 | the centre as a point exactly when both coordinates convert to numbers |
| ConnectorUtils.MissingCoordinate | frontend/src/utils/connectorUtils.js:6-29 | an object without x has an undefined centre x if it is a circle and a NaN one otherwise, and no centre point |
| ConnectorUtils.LineKeepsStoredY | frontend/src/utils/connectorUtils.js:22-26 | a line's centre y is its stored y: a missing y stays undefined and leaves no centre point; a null y stays null, and with a numeric x the centre point's y is then 0 |
| ConnectorUtils.CenterIsOutlineMiddle | frontend/src/utils/connectorUtils.js:1-33 | for every non-circle type the centre x is x plus half the outline width getEdgePoint uses (lines 73-80), with JavaScript's `+`; the centre y is y plus half the outline height for every type but a line, whose centre y is its stored y, not converted |
| ConnectorUtils.CenterDefaults | frontend/src/utils/connectorUtils.js:5-31 | with numeric x, y and no size fields the per-type defaults (200x150, 400x300, 200x20, 150, 120x120) put the centre at the stated offsets; a circle's centre is its x, y |
| ConnectorUtils.RectEdgePoint | frontend/src/utils/connectorUtils.js:36-56 | a target at the centre yields the centre; a rectangle of positive size always has an edge point |
| ConnectorUtils.EdgeScale | frontend/src/utils/connectorUtils.js:47-54 | the scale factor exists whenever both half extents are positive and the direction is not zero |
| ConnectorUtils.EdgeScalePositive | frontend/src/utils/connectorUtils.js:47-54 | that scale factor is positive |
| ConnectorUtils.RectEdgeOnRay | frontend/src/utils/connectorUtils.js:36-56 | for a rectangle of positive size the edge point lies on the ray from the centre toward the target |
| ConnectorUtils.RectEdgeOnSide | frontend/src/utils/connectorUtils.js:48-50 | when the side test holds the point is on a vertical side: horizontal offset exactly half the width, vertical offset within half the height |
| ConnectorUtils.RectEdgeOnTopOrBottom | frontend/src/utils/connectorUtils.js:51-54 | otherwise the point is on the top or bottom edge: vertical offset exactly half the height, horizontal offset within half the width |
| ConnectorUtils.SideAxisMoves | frontend/src/utils/connectorUtils.js:48-50 | when \|dx\| * hh > \|dy\| * hw the ray leaves through a vertical side: dx is non-zero and the scale is hw / \|dx\| |
| ConnectorUtils.CrossingAxisMoves | frontend/src/utils/connectorUtils.js:51-54 | otherwise, for a non-zero direction, dy is non-zero and the scale is hh / \|dy\| |
| ConnectorUtils.ScaledEdgePoint | frontend/src/utils/connectorUtils.js:55 | the edge point is the centre plus the direction times the scale |
| ConnectorUtils.ScaledEdgeWithin | frontend/src/utils/connectorUtils.js:48-55 | a scaled direction whose horizontal part is exactly hw and vertical part at most hh puts the point on a vertical side |
| ConnectorUtils.ScaledEdgeAcross | frontend/src/utils/connectorUtils.js:51-55 | a scaled direction whose vertical part is exactly hh and horizontal part at most hw puts the point on the top or bottom edge |
| ConnectorUtils.SideOffsets | frontend/src/utils/connectorUtils.js:36-56 | a target in the side sector of a positively sized rectangle gives a point half the width from the centre horizontally and within half the height vertically |
| ConnectorUtils.TopOrBottomOffsets | frontend/src/utils/connectorUtils.js:36-56 | a target outside that sector, other than the centre, gives a point half the height from the centre vertically and within half the width horizontally |
| ConnectorUtils.CircleEdgePoint | frontend/src/utils/connectorUtils.js:59-65 | a target at the centre yields the rightmost point (cx + r, cy) |
| ConnectorUtils.CircleEdgeOnRay | frontend/src/utils/connectorUtils.js:59-65 | for a positive radius the circle's edge point lies on the ray toward the target |
| ConnectorUtils.EdgePoint | frontend/src/utils/connectorUtils.js:67-83 | a non-circle whose target is its centre yields the centre; a circle always has an edge point |
| ConnectorUtils.EdgePointOnRay | frontend/src/utils/connectorUtils.js:67-83 | every object of positive size has an edge point, on the ray toward the target |
| ConnectorUtils.ConnectionPoints | frontend/src/utils/connectorUtils.js:85-98 | each end is the edge point of its object facing the other object's centre; defined exactly when both centres are points and both edge points are defined |
| ConnectorUtils.RectangleShape | frontend/src/utils/connectorUtils.js:27-31 | a positively sized rectangle with numeric position has its centre at the middle of its box, and that box is its outline |
| ConnectorUtils.RectangleEdge | frontend/src/utils/connectorUtils.js:67-83 | a rectangle's edge point is rectEdgePoint on its outline box |
| ConnectorUtils.JoinedEnds | frontend/src/utils/connectorUtils.js:85-98 | the connection is the segment between the two edge points, each facing the other object's centre |
| ConnectorUtils.SideBySideEdges | frontend/src/utils/connectorUtils.js:36-56 | the centres (50, 50) and (350, 50) of two 100x100 boxes face each other at (100, 50) and (300, 50) |
| ConnectorUtils.SideBySideExample | frontend/src/utils/connectorUtils.js:85-98 | two 100x100 rectangles 300 apart are joined from (100, 50) to (300, 50) |
| ConnectorUtils.CircleCoincidentExample | frontend/src/utils/connectorUtils.js:63 | a default-radius circle whose target is its centre yields the point 60 to its right |
| ConnectorView.FindById | frontend/src/components/Objects/Connector.jsx:6-7 | finds an object iff one has the referenced id, and then the first such object |
| ConnectorView.CachedPoints | frontend/src/components/Objects/Connector.jsx:14-17 | the cached end coordinates, each 0 when missing |
| ConnectorView.View | frontend/src/components/Objects/Connector.jsx:5-38 | live connection points when both ends are found, cached ones otherwise; blue stroke while selected, else strokeColor or grey; width strokeWidth or 2; arrowhead unless arrowEnd is exactly false |
| ConnectorView.DanglingConnectorUsesCache | frontend/src/components/Objects/Connector.jsx:9-18 | a connector whose source object is missing is drawn at its cached coordinates |
| ConnectorView.NoFromIdUsesCache | frontend/src/components/Objects/Connector.jsx:6-18 | a connector without fromId is always drawn from its cache |
| ConnectorView.ArrowByDefault | frontend/src/components/Objects/Connector.jsx:21 | a missing arrowEnd draws an arrow |
| ConnectorView.LivePointsExample | frontend/src/components/Objects/Connector.jsx:9-13 | with both rectangles present the stale cached fromX is ignored and the live points are drawn |
| UseSelection.Initial | frontend/src/hooks/useSelection.js:4 | the selection starts empty |
| UseSelection.SelectObject | frontend/src/hooks/useSelection.js:6-17 | a falsy id clears; an additive select toggles the id and keeps the rest; a plain select leaves exactly that id |
| UseSelection.SelectMultiple | frontend/src/hooks/useSelection.js:19-21 | the selection becomes exactly the given ids |
| UseSelection.ClearSelection | frontend/src/hooks/useSelection.js:23-25 | the selection becomes empty |
| UseSelection.ToggleTwiceRestores | frontend/src/hooks/useSelection.js:9-13 | toggling the same id twice restores the selection |
| UseSelection.ToggleChangesSizeByOne | frontend/src/hooks/useSelection.js:9-13 | a toggle removes a selected id or adds an unselected one, changing the size by one |
| UseSelection.SelectMultipleIdempotent | frontend/src/hooks/useSelection.js:19-21 | selecting the same ids twice is the same as once |
| UseCanvas.Clamp | frontend/src/hooks/useCanvas.js:26 | the result is within [0.1, 5] and equals a scale already in range |
| UseCanvas.WheelScale | frontend/src/hooks/useCanvas.js:25-26 | the wheel scale stays within the bounds; scrolling up zooms in and down zooms out unless already at the bound |
| UseCanvas.ZoomInScale | frontend/src/hooks/useCanvas.js:52-54 | never above 5, never below 0.1 from a scale in range, strictly larger below 5 |
| UseCanvas.ZoomOutScale | frontend/src/hooks/useCanvas.js:56-58 | never below 0.1, never above 5 from a scale in range, strictly smaller above 0.1 |
| UseCanvas.CanvasPoint | frontend/src/hooks/useCanvas.js:20-23 | the canvas point under a screen point is the one that scaling by the stage scale and moving by the stage position takes back to that screen point |
| UseCanvas.ScreenPoint | frontend/src/hooks/useCanvas.js:28-31 | where a canvas point is drawn; no contract of its own: CanvasScreenRoundTrip proves it inverts CanvasPoint |
| UseCanvas.WheelPosition | frontend/src/hooks/useCanvas.js:28-31 | the stage position after a wheel zoom; no contract of its own: WheelKeepsPointerFixed proves it keeps the canvas point under the pointer |
| UseCanvas.CanvasScreenRoundTrip | frontend/src/hooks/useCanvas.js:20-31 | the screen-to-canvas map and its inverse undo each other for any non-zero scale |
| UseCanvas.WheelKeepsPointerFixed | frontend/src/hooks/useCanvas.js:13-35 | after a wheel zoom the canvas point under the pointer is the one that was there before |
| UseCanvas.RepeatedZoomInBounded | frontend/src/hooks/useCanvas.js:52-54 | any number of zoom-ins keeps the scale within bounds |
| UseCanvas.RepeatedZoomOutBounded | frontend/src/hooks/useCanvas.js:56-58 | any number of zoom-outs keeps the scale within bounds |
| UseCanvas.Canvas.constructor | frontend/src/hooks/useCanvas.js:8-11 | scale 1, position (0, 0), tool SELECT, no colour |
| UseCanvas.Canvas.HandleWheel | frontend/src/hooks/useCanvas.js:13-35 | the new scale and position, the pointer's canvas point unchanged, bounds kept, tool and colour untouched |
| UseCanvas.Canvas.HandleDragEnd | frontend/src/hooks/useCanvas.js:37-45 | only a drag of the stage itself moves the view; nothing else changes |
| UseCanvas.Canvas.ResetView | frontend/src/hooks/useCanvas.js:47-50 | scale 1 and position (0, 0); tool and colour untouched |
| UseCanvas.Canvas.ZoomIn | frontend/src/hooks/useCanvas.js:52-54 | scale grows below the maximum and stays within bounds; nothing else changes |
| UseCanvas.Canvas.ZoomOut | frontend/src/hooks/useCanvas.js:56-58 | scale shrinks above the minimum and stays within bounds; nothing else changes |
| UseCanvas.Canvas.SetSelectedTool | frontend/src/hooks/useCanvas.js:10 | sets the tool and nothing else |
| UseCanvas.Canvas.SetSelectedColor | frontend/src/hooks/useCanvas.js:11 | sets the colour and nothing else |
| StringHash.ToInt32 | frontend/src/utils/colors.js:31 | the 32-bit conversion `<<` applies: in [-2^31, 2^31), congruent to its input modulo 2^32, the identity inside that range |
| StringHash.ShiftLeft5 | frontend/src/utils/colors.js:31 | `acc << 5` is a 32-bit value congruent to 32 times the truncated accumulator |
| StringHash.StepIsTimes31 | frontend/src/utils/colors.js:31 | while the shift does not overflow, one step is acc * 31 + code |
| StringHash.Step | frontend/src/utils/colors.js:31 | one step of the reduce is acc * 31 + code modulo 2^32, the wrap-around of `<<` included |
| StringHash.Poly | frontend/src/utils/colors.js:30-32 | the polynomial hash without wrap-around, the reference the fold is compared with; no contract of its own |
| StringHash.Fold | frontend/src/utils/colors.js:30-32 | the reduce over the code units from 0; no contract of its own: FoldIsPoly relates it to Poly |
| StringHash.FoldIsPoly | frontend/src/utils/colors.js:30-32 | the fold agrees with the polynomial hash modulo 2^32 for every sequence of code units |
| StringHash.Hash | frontend/src/utils/colors.js:30-32 | the hash of an id agrees modulo 2^32 with the polynomial hash of its UTF-16 code units, as the same reduce in frontend/src/services/presence.js:23-25 also computes |
| StringHash.CharUnits | frontend/src/utils/colors.js:30-31 | a character is one UTF-16 code unit inside the Basic Multilingual Plane and two outside it, each a code unit |
| StringHash.SurrogatePairDecodes | frontend/src/utils/colors.js:30-31 | the surrogate pair determines the character |
| StringHash.CodeUnits | frontend/src/utils/colors.js:30 | `split('')` yields between one and two code units per character, each below 2^16 |
| StringHash.CodeUnitsAppend | frontend/src/utils/colors.js:30 | encoding distributes over appending a character |
| StringHash.HashOfEmpty | frontend/src/utils/colors.js:30-32 | the fold over an empty id starts and ends at 0 |
| StringHash.HashAppend | frontend/src/utils/colors.js:30-32 | appending a character is one more step of the fold with its code inside the Basic Multilingual Plane, and two more steps (high surrogate, then low) outside it |
| StringHash.LastCharacterShiftsHash | frontend/src/utils/colors.js:30-32 | ids that differ only in the last character have hashes that differ by the difference of the last code units: the characters' codes inside the Basic Multilingual Plane, the low surrogates of characters sharing a high surrogate outside it |
| StringHash.SurrogatePairHash | frontend/src/utils/colors.js:30-32 | U+1F600 is hashed as its two code units 0xD83D then 0xDE00, giving 1772899 |
| StringHash.FoldMagnitude | frontend/src/utils/colors.js:30-32 | the fold moves by less than 2^31 + 2^16 per code unit |
| StringHash.HashMagnitude | frontend/src/utils/colors.js:30-32 | an id has one to two code units per character and the hash grows by a bounded amount per unit, so it stays exact in double precision for ids below 2^20 characters |
| StringHash.HashIndex | frontend/src/utils/colors.js:34 | the index `Math.abs(hash) % n` is below n |
| StringHash.EmptyIdIndex | frontend/src/utils/colors.js:34 | the empty id selects index 0 |
| StringHash.UserPrefixFold | frontend/src/utils/colors.js:30-32 | the code units of "user-" fold to 111578562 |
| StringHash.UserIdUnits | frontend/src/utils/colors.js:30 | "user-0" and "user-1" split into their six ASCII code units |
| StringHash.UserIdHashes | frontend/src/utils/colors.js:30-32 | the hashes of "user-0" and "user-1", whose last shift wraps past 2^31 |
| StringHash.UserIdIndexes | frontend/src/utils/colors.js:34 | their palette indices are the magnitudes of those hashes, reduced |
| Values.ToNumber | frontend/src/utils/connectorUtils.js:5-31 | JavaScript's numeric conversion under `+`: a number is itself, null is 0, a boolean is 0 or 1, and undefined, NaN and timestamps give NaN; strings are taken as NaN too (see "## Left out") |
| Values.PlusNum | frontend/src/utils/connectorUtils.js:5-31 | `v + k` is the sum when v converts to a number and NaN otherwise |
| Values.NumOr | frontend/src/utils/connectorUtils.js:9-10 | `rec.key \|\| d` on a numeric field: the stored number when it is present and non-zero, the default otherwise |
| Values.StrOr | frontend/src/components/Objects/Frame.jsx:95 | `rec.key \|\| d` on a string field: the stored string when it is present and non-empty, the default otherwise; also StickyNote.jsx:42 and TextElement.jsx:93 |
| Values.NatToDecimal | frontend/src/hooks/useAiAgent.js:31 | the printed count is a non-empty string of digits without a leading zero |
| Values.DecimalRoundTrip | frontend/src/hooks/useAiAgent.js:31 | reading the printed count back gives the count |
| Colors.PaletteValues | frontend/src/utils/colors.js:1-11 | exactly the set of palette fill values |
| Colors.PaletteWellFormed | frontend/src/utils/colors.js:1-11 | nine entries with distinct names, every value and shade a #RRGGBB colour |
| Colors.DefaultIsYellow | frontend/src/utils/colors.js:13 | DEFAULT_COLOR is the first palette entry, yellow |
| Colors.FillDefaultsInPalette | frontend/src/utils/colors.js:15-22 | sticky notes default to yellow, rectangles and circles to the palette's gray, all six type defaults are #RRGGBB |
| Colors.RandomColor | frontend/src/utils/colors.js:24-26 | always a palette value |
| Colors.UserColor | frontend/src/utils/colors.js:28-36 | always a palette value |
| Colors.EmptyIdGetsDefault | frontend/src/utils/colors.js:28-36 | the empty id gets the default colour |
| Colors.UserColorsVary | frontend/src/utils/colors.js:28-36 | "user-0" gets pink and "user-1" yellow |
| Presence.CursorColorsWellFormed | frontend/src/services/presence.js:11-20 | eight distinct #RRGGBB cursor colours |
| Presence.CursorColor | frontend/src/services/presence.js:22-27 | always one of the cursor colours |
| Presence.EmptyIdGetsRed | frontend/src/services/presence.js:22-27 | the empty id gets the first colour, red |
| Presence.CursorColorsVary | frontend/src/services/presence.js:22-27 | "user-0" gets green and "user-1" blue |
| Presence.DisplayName | frontend/src/services/presence.js:35 | never empty: the display name if set, else the email if set, else "Anonymous" |
| Presence.JoinedRecord | frontend/src/services/presence.js:34-39 | the joined record has cursor (0, 0), the user's cursor colour, that display name and the current time |
| Presence.PresenceStore.constructor | frontend/src/services/presence.js:1-8 | an empty presence collection with its failure oracle |
| Presence.PresenceStore.JoinBoard | frontend/src/services/presence.js:32-40 | on success the user's record is replaced by the joined record; a refused write changes nothing |
| Presence.PresenceStore.UpdateCursor | frontend/src/services/presence.js:45-51 | succeeds iff the write is accepted and the record exists; then only cursor and lastSeen change; a missing record is not-found |
| Presence.PresenceStore.Heartbeat | frontend/src/services/presence.js:57-60 | succeeds iff accepted and the record exists; then only lastSeen changes |
| Presence.PresenceStore.LeaveBoard | frontend/src/services/presence.js:65-68 | on success the user's record is gone (deleting a missing one succeeds); a refused write changes nothing |
| UsePresence.CursorThrottle.constructor | frontend/src/hooks/usePresence.js:11 | the last update time starts at 0 |
| UsePresence.CursorThrottle.UpdateCursorPosition | frontend/src/hooks/usePresence.js:44-53 | a write is sent iff there is a user and at least 66 ms have passed since the last one; its time is then remembered |
| UsePresence.CursorThrottle.AcceptedSpaced | frontend/src/hooks/usePresence.js:7 | any two accepted updates are at least 66 ms apart per update between them: at most about 15 a second |
| UsePresence.PeerOf | frontend/src/hooks/usePresence.js:26 | the peer record has every data field, plus id from the document unless the data has its own id |
| UsePresence.CollectPeers | frontend/src/hooks/usePresence.js:22-30 | the snapshot loop builds exactly the peer list |
| UsePresence.PeersAreTheOthers | frontend/src/hooks/usePresence.js:24-28 | the peer list is the documents whose id is not the local user's, in snapshot order |
| UsePresence.MyColor | frontend/src/hooks/usePresence.js:58 | the user's cursor colour, or blue with no user |
| UseAiAgent.OrElse | frontend/src/hooks/useAiAgent.js:29 | a present non-empty string, else the fallback |
| UseAiAgent.FailureNote | frontend/src/hooks/useAiAgent.js:30-32 | the note is empty exactly when no action failed |
| UseAiAgent.FailureNoteReportsCount | frontend/src/hooks/useAiAgent.js:31 | the note is " (", the failure count in decimal, then " action(s) failed)" |
| UseAiAgent.Reply | frontend/src/hooks/useAiAgent.js:26-56 | an error reply with err.message or the fallback when the call throws; with actions, the message or "Done!", the failure note and the three counts; with none, the message or the fallback and a count of 0 |
| UseAiAgent.ReplyNotesFailures | frontend/src/hooks/useAiAgent.js:29-32 | the reply starts with the message and is longer exactly when some action failed |
| UseAiAgent.AiAgent.constructor | frontend/src/hooks/useAiAgent.js:8-10 | no messages, not loading, panel closed |
| UseAiAgent.AiAgent.TogglePanel | frontend/src/hooks/useAiAgent.js:12 | flips the panel flag and nothing else |
| UseAiAgent.AiAgent.OpenPanel | frontend/src/hooks/useAiAgent.js:13 | opens the panel and nothing else |
| UseAiAgent.AiAgent.ClosePanel | frontend/src/hooks/useAiAgent.js:14 | closes the panel and nothing else |
| UseAiAgent.AiAgent.ClearMessages | frontend/src/hooks/useAiAgent.js:62 | empties the messages and nothing else |
| UseAiAgent.AiAgent.BeginCommand | frontend/src/hooks/useAiAgent.js:17-20 | a blank command or no user is ignored; otherwise the user message is appended and loading raised |
| UseAiAgent.AiAgent.FinishCommand | frontend/src/hooks/useAiAgent.js:22-59 | exactly one reply is appended and loading is cleared whatever the outcome |
| UseAiAgent.AiAgent.SendCommand | frontend/src/hooks/useAiAgent.js:16-60 | a handled command appends the user message and then exactly one reply and ends not loading; an ignored one changes nothing |
| Board.SegmentCount | frontend/src/services/board.js:65 | the number of non-empty path segments of an id: at most its length, and 0 exactly when it has no character other than "/" |
| Board.HasDoubleSlash | frontend/src/services/board.js:65 | the id holds "//" somewhere; a definition |
| Board.ValidId | frontend/src/services/board.js:65 | `doc(db, path, id)` accepts the id: no "//" and an odd number of non-empty segments, so the full path names a document; a definition |
| Board.ValidRef | frontend/src/services/board.js:97 | an id is present and `doc()` accepts it; a definition |
| Board.PlainIdValid | frontend/src/services/board.js:65 | an id without "/" is accepted exactly when it is not empty |
| Board.IdExamples | frontend/src/services/board.js:82 | "abc", "a/b/c" and "/a/" are accepted; "", "/", "a/b" and "a//b" make `doc()` throw |
| Board.BoardIdFor | frontend/src/services/board.js:14-15 | the board id is "test-board" exactly when the environment is "test", otherwise "default-board" |
| Board.Stamped | frontend/src/services/board.js:46-52 | the caller's fields with the four provenance fields written over them; no contract of its own: StampedFields states it |
| Board.StampedFields | frontend/src/services/board.js:46-52 | a created document records the creating user in createdBy and updatedBy and server timestamps in createdAt and updatedAt, overriding caller values |
| Board.Merged | frontend/src/services/board.js:66-70 | the stored document with the changes and the update provenance written over it; no contract of its own: MergedFields states it |
| Board.MergedFields | frontend/src/services/board.js:66-70 | an updated document takes the new values, records who updated it and when, and keeps every other field |
| Board.Covered | frontend/src/services/board.js:114-116 | the first m chunks cover at most all n items |
| Board.ChunkExists | frontend/src/services/board.js:114-116 | a chunk exists exactly when its start is before the end of the items |
| Board.ChunkStep | frontend/src/services/board.js:116 | the next chunk starts where the previous ones end and ends 500 later or at the end |
| Board.ChunkLayout | frontend/src/services/board.js:111-148 | the chunks cover all items contiguously, without gap or overlap, 1 to 500 items each; none exactly when there is nothing to write |
| Board.Targets | frontend/src/services/board.js:143 | every id in the list is among the targets |
| Board.RemoveWrites | frontend/src/services/board.js:142-144 | one delete per id, in order |
| Board.RemovesExactly | frontend/src/services/board.js:142-145 | a delete batch removes exactly the ids it names, present or not |
| Board.UpdateTargets | frontend/src/services/board.js:96-97 | every update's id is among the targets |
| Board.PatchWrites | frontend/src/services/board.js:96-99 | one update per item, carrying its changes and the updating user |
| Board.PatchWritesFront | frontend/src/services/board.js:96-99 | the batch for all items extends the batch for all but the last |
| Board.PatchesCommitIff | frontend/src/services/board.js:93-105 | an update batch applies exactly when every target exists, and then keeps the same documents |
| Board.PatchesKeep | frontend/src/services/board.js:93-105 | an applied update batch leaves every untargeted document as it was |
| Board.PatchesStamp | frontend/src/services/board.js:98 | an applied update batch records the user and a timestamp on every target |
| Board.ObjectStore.constructor | frontend/src/services/board.js:45 | an empty collection, no commits, no ids issued |
| Board.ObjectStore.CreateWrites | frontend/src/services/board.js:117-127 | one create per record of the chunk, under the ids drawn in order |
| Board.ObjectStore.IdsFrom | frontend/src/services/board.js:126 | the ids drawn from a given point, in order |
| Board.ObjectStore.CreateWritesCommit | frontend/src/services/board.js:117-128 | a create batch always applies and takes the documents from the first records to the first `end` |
| Board.ObjectStore.Created | frontend/src/services/board.js:111-132 | the documents after the first k records are created under the ids drawn in order; no contract of its own: CreatedKeys, CreatedHolds and CreatedKeeps state it |
| Board.ObjectStore.CreatedKeys | frontend/src/services/board.js:111-132 | creating k records adds exactly the k ids drawn |
| Board.ObjectStore.CreatedHolds | frontend/src/services/board.js:119-125 | each created document holds its stamped record |
| Board.ObjectStore.CreatedKeeps | frontend/src/services/board.js:111-132 | creating leaves every other document as it was |
| Board.ObjectStore.Commit | frontend/src/services/board.js:100 | a commit may be refused; otherwise the batch applies as a whole or not at all (an update of a missing document is not-found) |
| Board.ObjectStore.CreateObject | frontend/src/services/board.js:43-58 | draws an id and makes one write call; succeeds exactly when the record has no undefined field and the call is accepted, with a fresh id holding the caller's fields plus provenance; otherwise nothing changes and it throws, with an unsupported-value error for an undefined field |
| Board.ObjectStore.UpdateObject | frontend/src/services/board.js:63-75 | an id that `doc()` refuses (empty, "//", or an even number of segments) throws before any write call; otherwise one write call, which succeeds iff accepted and the document exists, and then merges the changes; a failure changes nothing |
| Board.ObjectStore.DeleteObject | frontend/src/services/board.js:80-88 | an id that `doc()` refuses throws before any write call; otherwise one write call, which succeeds iff accepted, and the document is then gone even if it never existed |
| Board.ObjectStore.UpdateMultipleObjects | frontend/src/services/board.js:93-105 | an id that is missing or that `doc()` refuses throws before the commit and changes nothing; otherwise one commit, which applies all updates iff it is accepted and every target exists |
| Board.ObjectStore.CommitCreateChunk | frontend/src/services/board.js:115-128 | draws one id per record of the chunk, pushes them in order and commits the chunk |
| Board.ObjectStore.CreateMultipleObjects | frontend/src/services/board.js:111-132 | succeeds iff every chunk is accepted, returning one fresh id per record in input order and creating all of them; a failure stops at the first refused chunk (every earlier one accepted), whose ids are drawn but not written, and the earlier chunks stay created |
| Board.ObjectStore.DrawRemoveBatch | frontend/src/services/board.js:140-144 | the chunk's delete batch, one delete per id in order, exactly when every id of the chunk is present and accepted by `doc()`; nothing otherwise |
| Board.ObjectStore.CommitRemoveChunk | frontend/src/services/board.js:140-145 | a chunk whose ids `doc()` all accepts is one commit, which removes exactly those ids iff accepted; a missing or refused id throws before the commit and changes nothing |
| Board.ObjectStore.DeleteMultipleObjects | frontend/src/services/board.js:137-148 | succeeds iff every id is present and accepted by `doc()` and every chunk is accepted, deleting exactly the given ids; a failure stops at the first chunk that is refused or holds a bad id (every earlier chunk sent and accepted), and the chunks before it stay deleted |
| Board.TargetsSplit | frontend/src/services/board.js:139-147 | the ids of consecutive chunks add up |
| AiExecutor.GroupOf | frontend/src/services/ai.js:81-93 | an action belongs to a group exactly when its type is create, update or delete; connector creates and other creates are told apart by objectType |
| AiExecutor.InGroup | frontend/src/services/ai.js:81-93 | a group's list, in input order, holds only actions of that group and is no longer than the input |
| AiExecutor.Recognised | frontend/src/services/ai.js:81-93 | the recognised actions, in input order, each one of the four groups |
| AiExecutor.InGroupMembers | frontend/src/services/ai.js:81-93 | a group's list holds exactly the actions of that group |
| AiExecutor.GroupsCoverRecognised | frontend/src/services/ai.js:81-93 | the four lists together hold every recognised action once |
| AiExecutor.PartitionActions | frontend/src/services/ai.js:76-93 | the partition loop yields each group's actions in input order |
| AiExecutor.TypeField | frontend/src/services/ai.js:100 | the type field is the action's objectType, null when the action carries none |
| AiExecutor.CreateData | frontend/src/services/ai.js:98-107 | one record per plain create |
| AiExecutor.CreateRecord | frontend/src/services/ai.js:98-106 | one create's record; no contract of its own: CreateDataFields states its fields |
| AiExecutor.CreateZIndex | frontend/src/services/ai.js:101-105 | one create's stacking order; no contract of its own: CreateDataFields and CreateZIndexOrder state it |
| AiExecutor.CreateDataFields | frontend/src/services/ai.js:98-107 | each record carries the action's type, zIndex 0 for a frame and count + i + 1 otherwise, and every other property unchanged |
| AiExecutor.CreateZIndexOrder | frontend/src/services/ai.js:101-105 | non-frame creates are stacked above every existing object, strictly in input order |
| AiExecutor.SeedMap | frontend/src/services/ai.js:73 | every entry is one of the current objects, stored under its own id |
| AiExecutor.SeedMapKeys | frontend/src/services/ai.js:73 | the lookup holds exactly the current objects' ids |
| AiExecutor.SeedMapLast | frontend/src/services/ai.js:73 | an id maps to the last object carrying it |
| AiExecutor.Lookup | frontend/src/services/ai.js:124-125 | found exactly when the id is in the lookup |
| AiExecutor.WithEndpoints | frontend/src/services/ai.js:123-133 | a connector's coordinates from the two centres; no contract of its own: ConnectorRecordFields states it |
| AiExecutor.ConnectorRecord | frontend/src/services/ai.js:123-135 | a connector create's record; no contract of its own: ConnectorRecordFields states it |
| AiExecutor.ConnectorRecordFields | frontend/src/services/ai.js:123-135 | a connector record is typed connector at its zIndex; its coordinates are the two centres' coordinates as computed (possibly undefined or NaN) when both ends resolve, else the action's own; nothing else changes |
| AiExecutor.RunConnectors | frontend/src/services/ai.js:121-145 | the state after the first n connector creates; no contract of its own: RunConnectorsTally, RunConnectorsRegister and RunConnectorsNext state it |
| AiExecutor.ConnectorRecordAt | frontend/src/services/ai.js:123-135 | the k-th connector's record, built against the lookup and created ids the earlier connectors leave; no contract of its own: ConnectorAtState unfolds it |
| AiExecutor.ConnectorWritten | frontend/src/services/ai.js:137-143 | the k-th connector is written exactly when its record holds no undefined field and its write call is accepted; a definition |
| AiExecutor.ConnectorAtState | frontend/src/services/ai.js:123-137 | the k-th connector's record is built from the lookup and created-id count after the first k, and it is written exactly when that record is storable and call c0 + k is accepted |
| AiExecutor.ConnectorStep | frontend/src/services/ai.js:137-144 | a written connector adds a success and its id; a failed one adds an error |
| AiExecutor.FailedCount | frontend/src/services/ai.js:141-144 | at most one error per connector |
| AiExecutor.WrittenIds | frontend/src/services/ai.js:138 | one created id per written connector: the connectors that fail are the others |
| AiExecutor.RunConnectorsTally | frontend/src/services/ai.js:121-145 | every connector is counted once, as a success or an error, and the ids of the written ones (no undefined field, write accepted) are appended in order |
| AiExecutor.RunConnectorsRegister | frontend/src/services/ai.js:111-139 | every id created earlier stays resolvable for later connectors |
| AiExecutor.RunConnectorsNext | frontend/src/services/ai.js:121-145 | one more connector is one more step at the next id and write call, with the record built against the state so far |
| AiExecutor.CreateConnector | frontend/src/services/ai.js:122-144 | one connector's record and its createObject call draw one id and one write call and take the run one connector further |
| AiExecutor.CreateConnectors | frontend/src/services/ai.js:120-145 | the connector loop draws one id and one commit per connector and ends in the RunConnectors state and tally |
| AiExecutor.RegisterIds | frontend/src/services/ai.js:109-112 | the lookup after a batch is recorded; no contract of its own: RegisterIdsKeys states it |
| AiExecutor.RegisterIdsKeys | frontend/src/services/ai.js:109-112 | recording a batch keeps every earlier entry and adds each new id |
| AiExecutor.RecordBatch | frontend/src/services/ai.js:109-113 | the recording loop keeps, registers and counts every new id |
| AiExecutor.RecordBatchResolvable | frontend/src/services/ai.js:109-112 | recording a batch keeps every created id resolvable |
| AiExecutor.CreatePhase | frontend/src/services/ai.js:95-118 | succeeds iff every chunk is accepted; then the documents are exactly the created records, and the new ids are recorded in the lookup and counted; on failure every plain create is one error, the lookup is unchanged, the batch stopped at the first refused chunk, and the documents hold the chunks committed before it; nothing is written when there are no plain creates |
| AiExecutor.UpdateRequests | frontend/src/services/ai.js:151 | one `{id, changes}` item per update, in order |
| AiExecutor.DeleteRequests | frontend/src/services/ai.js:164 | one id per delete, in order |
| AiExecutor.UpdatePhase | frontend/src/services/ai.js:147-159 | all updates counted together as successes or as errors; the group fails iff an id is missing or refused, the commit is refused, or a target does not exist; on success the documents are the merged updates, on failure they are unchanged |
| AiExecutor.DeletePhase | frontend/src/services/ai.js:161-170 | with deletes present, fails iff some id is missing or refused by `doc()` or some chunk is refused; on success exactly the named objects are gone, one commit per chunk, and all deletes count as successes; otherwise all count as errors, the run stopped at the first chunk that holds a bad id (not sent) or was refused (sent), and the documents lose exactly the ids of the chunks before it |
| AiExecutor.ExecuteActions | frontend/src/services/ai.js:67-173 | every recognised action is counted once; the created ids are the batch ids then the written connector ids; the error count is the sum over the four steps; the connectors start at the id and commit the batch leaves, whether it succeeded or stopped at its first refused chunk; whether the updates and the deletes fail is decided by their ids, the refusal of their own commits and (for updates) the targets present; the lookup and the documents after each step are pinned: batch records, connector records, merged updates, then deletions |
| BoardCanvas.CreatedType | frontend/src/components/Board/BoardCanvas.jsx:73-115 | only the sticky note, rectangle and circle tools create, each an object type with a default colour |
| BoardCanvas.ColorFor | frontend/src/components/Board/BoardCanvas.jsx:82-109 | the chosen colour, or the type's default when none is chosen |
| BoardCanvas.NewObject | frontend/src/components/Board/BoardCanvas.jsx:73-115 | a created object has its type, the click position, its colour, rotation 0 and zIndex equal to the number of objects |
| BoardCanvas.NewObjectStorable | frontend/src/components/Board/BoardCanvas.jsx:73-115 | a new object holds no undefined field, so createObject accepts it unless the write is refused |
| BoardCanvas.NewObjectSizes | frontend/src/components/Board/BoardCanvas.jsx:73-115 | exactly the listed fields: an empty 200x150 sticky note, a 120x120 rectangle, a circle of radius 60 |
| BoardCanvas.DefaultColorsOfNewObjects | frontend/src/components/Board/BoardCanvas.jsx:82-109 | without a chosen colour a sticky note is the default yellow and a shape the palette's gray |
| BoardCanvas.StageClick | frontend/src/components/Board/BoardCanvas.jsx:53-71 | a click deselects exactly when it hits the empty stage; only a creation tool on the empty stage creates, at the canvas point under the pointer |
| BoardCanvas.CreatedUnderPointer | frontend/src/components/Board/BoardCanvas.jsx:65-70 | the new object, drawn through the stage transform, lies exactly under the pointer |
| BoardCanvas.CursorMove | frontend/src/components/Board/BoardCanvas.jsx:122-130 | the reported cursor is the canvas point under the pointer; nothing without a listener or stage |
| BoardCanvas.KeyActionFor | frontend/src/components/Board/BoardCanvas.jsx:36-47 | Delete or Backspace deletes the selected object exactly when there is one and the key did not go to an input or textarea; Escape clears |
| BoardCanvas.Canvas.constructor | frontend/src/components/Board/BoardCanvas.jsx:10 | the canvas holds the selected id it is handed |
| BoardCanvas.Canvas.HandleStageClick | frontend/src/components/Board/BoardCanvas.jsx:53-119 | deselects on the empty stage, then creates the stamped object through the store; a refused write creates nothing |
| BoardCanvas.Canvas.HandleKeyDown | frontend/src/components/Board/BoardCanvas.jsx:36-47 | a delete of an id `doc()` refuses throws and changes nothing; otherwise it removes exactly the selected object and clears the selection once it succeeds, and a refused delete changes nothing; Escape only clears |
| BoardCanvas.DeleteWhileTypingKeepsAll | frontend/src/components/Board/BoardCanvas.jsx:39 | Delete typed into a textarea neither deletes nor deselects |
| ObjectHandlers.WriteAs | frontend/src/components/Objects/LineShape.jsx:27 | a write is issued exactly when there is a user, under that user |
| ObjectHandlers.PositionPatch | frontend/src/components/Objects/LineShape.jsx:27 | a drag writes exactly x and y |
| ObjectHandlers.DragEnd | frontend/src/components/Objects/LineShape.jsx:19-31 | a drag goes to the group handler exactly when several objects are selected, this one among them, and a handler exists; otherwise its position is written |
| ObjectHandlers.SingleDragWritesOwnPosition | frontend/src/components/Objects/LineShape.jsx:19-31 | a lone selection or an unselected object always writes its own position |
| ObjectHandlers.KonvaNode.constructor | frontend/src/components/Objects/LineShape.jsx:34 | a node with the given position, scale and rotation |
| ObjectHandlers.KonvaNode.ResetScale | frontend/src/components/Objects/LineShape.jsx:36-37 | the scale goes back to 1 and nothing else changes |
| LineShape.Look | frontend/src/components/Objects/LineShape.jsx:11-13 | length 150, colour grey and stroke 3 by default, never zero or empty |
| LineShape.TransformPatch | frontend/src/components/Objects/LineShape.jsx:39-44 | writes exactly x, y, rotation and the length times abs(scaleX), at least 20 |
| LineShape.MirroredTransformSameLength | frontend/src/components/Objects/LineShape.jsx:42 | a mirrored transform writes the same length |
| LineShape.UnitTransformKeepsLength | frontend/src/components/Objects/LineShape.jsx:42 | a unit scale keeps a length of at least 20 |
| LineShape.HandleTransformEnd | frontend/src/components/Objects/LineShape.jsx:33-48 | resets the node's scale and writes the folded length from the node's values before the reset |
| Frame.Look | frontend/src/components/Objects/Frame.jsx:28-30 | 400 by 300 and grey by default, never zero or empty |
| Frame.ShownTitle | frontend/src/components/Objects/Frame.jsx:188 | never empty: the title, or "Frame" when it is empty or missing |
| Frame.TitleChanged | frontend/src/components/Objects/Frame.jsx:120 | the typed title differs from the stored one (a missing title differs from every string); a definition used by Save |
| Frame.TransformPatch | frontend/src/components/Objects/Frame.jsx:39-45 | writes exactly x, y, rotation and the drawn size times the scale, at least 100 by 80 |
| Frame.TransformKeepsMinimumSize | frontend/src/components/Objects/Frame.jsx:42-43 | however far a frame is shrunk, the written size is at least 100 by 80 |
| Frame.UnitTransformKeepsSize | frontend/src/components/Objects/Frame.jsx:42-43 | a unit scale keeps a frame of at least the minimum size at its drawn size |
| Frame.HandleTransformEnd | frontend/src/components/Objects/Frame.jsx:32-49 | resets the node's scale and writes the folded size from the values before the reset |
| Frame.UntitledFrameSavesShownTitle | frontend/src/components/Objects/Frame.jsx:95-120 | an untitled frame's untouched editor saves the title "Frame" |
| Frame.TitleEditor.constructor | frontend/src/components/Objects/Frame.jsx:14-18 | mounted, with no editor in the document |
| Frame.TitleEditor.RemoveInput | frontend/src/components/Objects/Frame.jsx:69-77 | detaches the open editor's listeners, removes it and forgets it; a no-op without one |
| Frame.TitleEditor.Open | frontend/src/components/Objects/Frame.jsx:79-143 | drops any open editor, then a single fresh editor holding the shown title is in the document and listening |
| Frame.TitleEditor.Type | frontend/src/components/Objects/Frame.jsx:119 | typing changes only the editor's text |
| Frame.TitleEditor.Save | frontend/src/components/Objects/Frame.jsx:117-128 | nothing once unmounted; otherwise writes exactly the typed title when it differs from the stored one and removes the editor |
| Frame.TitleEditor.Blur | frontend/src/components/Objects/Frame.jsx:137 | a blur saves only while the editor's listener is attached |
| Frame.TitleEditor.KeyDown | frontend/src/components/Objects/Frame.jsx:130-136 | Enter saves, Escape removes the editor without writing, other keys do nothing |
| Frame.TitleEditor.Unmount | frontend/src/components/Objects/Frame.jsx:19-25 | marks the frame unmounted and removes an open editor, leaving its listeners attached |
| Frame.EscapeThenBlurWritesNothing | frontend/src/components/Objects/Frame.jsx:133-141 | Escape and a later blur write nothing |
| Frame.BlurAfterUnmountWritesNothing | frontend/src/components/Objects/Frame.jsx:118 | a blur after unmount writes nothing |
| Frame.EnterWritesTypedTitle | frontend/src/components/Objects/Frame.jsx:130-132 | typing a new title and pressing Enter writes exactly that title |
| TextElement.Look | frontend/src/components/Objects/TextElement.jsx:27-28 | font size 20 and width 200 by default, never zero |
| TextElement.TransformPatch | frontend/src/components/Objects/TextElement.jsx:36-42 | writes exactly x, y, rotation, the width times scaleX (at least 50) and the font size times scaleX (at least 8) |
| TextElement.TransformKeepsMinimums | frontend/src/components/Objects/TextElement.jsx:39-40 | however far it is shrunk, width stays at least 50 and font size at least 8 |
| TextElement.GrowingNeverShrinks | frontend/src/components/Objects/TextElement.jsx:39-40 | growing by a factor of at least 1 never writes a smaller width or font size |
| TextElement.HandleTransformEnd | frontend/src/components/Objects/TextElement.jsx:30-46 | resets the node's scale and writes the folded width and font size from the values before the reset |
| TextElement.VerticalScaleIgnored | frontend/src/components/Objects/TextElement.jsx:32 | two transforms that differ only in the vertical scale write the same fields |
| TextElement.EditorText | frontend/src/components/Objects/TextElement.jsx:93 | a fresh editor holds the stored text, or nothing |
| TextElement.TextChanged | frontend/src/components/Objects/TextElement.jsx:122 | the typed text differs from the stored one; a definition used by Blur |
| TextElement.Shown | frontend/src/components/Objects/TextElement.jsx:162-172 | nothing while editing; otherwise the text, or the placeholder when it is empty or missing |
| TextElement.TextEditor.constructor | frontend/src/components/Objects/TextElement.jsx:11-17 | mounted, not editing, no textarea |
| TextElement.TextEditor.RemoveTextarea | frontend/src/components/Objects/TextElement.jsx:66-75 | detaches and removes the open textarea and, while mounted, stops editing |
| TextElement.TextEditor.Open | frontend/src/components/Objects/TextElement.jsx:77-143 | drops any open textarea and starts editing in a single fresh one holding the stored text |
| TextElement.TextEditor.Type | frontend/src/components/Objects/TextElement.jsx:121 | typing changes only the textarea's text |
| TextElement.TextEditor.Blur | frontend/src/components/Objects/TextElement.jsx:119-137 | while attached and mounted, writes the typed text when it changed and closes the editor; otherwise nothing |
| TextElement.TextEditor.KeyDown | frontend/src/components/Objects/TextElement.jsx:132-136 | Escape closes the editor without saving; other keys change nothing |
| TextElement.TextEditor.Unmount | frontend/src/components/Objects/TextElement.jsx:18-24 | marks the element unmounted and removes an open textarea |
| TextElement.EditThenEscape | frontend/src/components/Objects/TextElement.jsx:133-162 | the text is hidden while editing and shown again after Escape |
| TextElement.EditThenBlur | frontend/src/components/Objects/TextElement.jsx:119-130 | typing new text and blurring writes exactly that text and ends editing |
| TextElement.BlurAfterUnmountWritesNothing | frontend/src/components/Objects/TextElement.jsx:120 | a blur after unmount writes nothing |
| StickyNote.HandleDragEnd | frontend/src/components/Objects/StickyNote.jsx:15-26 | a drag always writes exactly x and y, with no group handling |
| StickyNote.EditorText | frontend/src/components/Objects/StickyNote.jsx:42 | a fresh editor holds the stored text, or nothing |
| StickyNote.TextChanged | frontend/src/components/Objects/StickyNote.jsx:69 | the typed text differs from the stored one; a definition used by Blur |
| StickyNote.Shown | frontend/src/components/Objects/StickyNote.jsx:118-133 | nothing while editing; otherwise the text, or the placeholder for an empty note |
| StickyNote.Fill | frontend/src/components/Objects/StickyNote.jsx:106 | the note's colour, yellow by default, never empty |
| StickyNote.NoteEditor.constructor | frontend/src/components/Objects/StickyNote.jsx:12 | not editing, no textarea |
| StickyNote.NoteEditor.Open | frontend/src/components/Objects/StickyNote.jsx:28-90 | starts editing and adds a fresh listening textarea with the stored text, leaving earlier ones in place |
| StickyNote.NoteEditor.Type | frontend/src/components/Objects/StickyNote.jsx:68 | typing changes only the textarea's text |
| StickyNote.NoteEditor.Blur | frontend/src/components/Objects/StickyNote.jsx:67-79 | writes the typed text when it changed; removing a textarea already gone throws and leaves the editing flag as it was |
| StickyNote.NoteEditor.KeyDown | frontend/src/components/Objects/StickyNote.jsx:82-89 | Escape removes the textarea and stops editing without saving; Enter is an ordinary key |
| StickyNote.EditThenBlur | frontend/src/components/Objects/StickyNote.jsx:67-79 | typing new text and blurring writes exactly that text and ends editing |
| StickyNote.EscapeThenBlur | frontend/src/components/Objects/StickyNote.jsx:81-86 | after Escape the blur listener is still attached, so a later blur still writes the typed text and its removal throws |
| Transformer.BoundBox | frontend/src/components/Board/TransformerComponent.jsx:36-40 | a box narrower than 20 or lower than 5 keeps the old box; any other is taken unchanged |
| Transformer.Resized | frontend/src/components/Board/TransformerComponent.jsx:36-40 | the box after each proposal of a gesture is bounded in turn; no contract of its own: ResizeKeepsBound and ResizedIsAProposal state it |
| Transformer.ResizeKeepsBound | frontend/src/components/Board/TransformerComponent.jsx:36-40 | from an acceptable box no sequence of proposals makes it too small |
| Transformer.ResizedIsAProposal | frontend/src/components/Board/TransformerComponent.jsx:36-40 | the box after a gesture is the start box or one of the proposals |
| Transformer.AttachedNodes | frontend/src/components/Board/TransformerComponent.jsx:12-16 | exactly the selected ids that name a node on the stage |
| Transformer.FoundIndices | frontend/src/components/Board/TransformerComponent.jsx:12-14 | the positions kept by the filter increase strictly, and each names a node on the stage |
| Transformer.FoundIndicesComplete | frontend/src/components/Board/TransformerComponent.jsx:12-14 | every position whose id names a node on the stage is kept |
| Transformer.AttachedAtFound | frontend/src/components/Board/TransformerComponent.jsx:12-14 | the attached nodes are the selected ids at the kept positions |
| Transformer.AttachedNodesKeepOrder | frontend/src/components/Board/TransformerComponent.jsx:12-14 | the attached nodes are the subsequence of the selection at strictly increasing positions that keeps exactly the ids on the stage |
| Transformer.AllFoundAllAttached | frontend/src/components/Board/TransformerComponent.jsx:12-16 | when every selected id is on the stage all are attached, in order |
| Transformer.Rendered | frontend/src/components/Board/TransformerComponent.jsx:20 | drawn exactly when something is selected |
| SelectionRect.Normalize | frontend/src/components/Board/SelectionRect.jsx:4-11 | nothing without a rectangle; otherwise non-negative size at the smaller corner coordinates |
| SelectionRect.SpansBothCorners | frontend/src/components/Board/SelectionRect.jsx:7-10 | the far edges are at the larger coordinates |
| SelectionRect.SwappedCornersSameRect | frontend/src/components/Board/SelectionRect.jsx:7-10 | swapping the corners draws the same rectangle |
| SelectionRect.UnmovedDragIsEmpty | frontend/src/components/Board/SelectionRect.jsx:7-10 | a drag that has not moved draws an empty rectangle at its start |
| ToolDispatch.GetOr | backend/app/routes/ai.py:22-29 | `args.get(key, default)`: the argument whenever the key is present, even when it is null, and the default only when it is absent |
| ToolDispatch.FirstMissing | backend/app/routes/ai.py:14-114 | None exactly when every subscripted key is present; otherwise the first absent key in evaluation order, all earlier ones present |
| ToolDispatch.OptionalStr | backend/app/routes/ai.py:91-112 | an objectId or objectType is accepted exactly when it is a string or null, and is carried over unchanged |
| ToolDispatch.Targeted | backend/app/routes/ai.py:91-112 | an update or delete succeeds exactly when the objectId is a string or null, names that object, and fails on the objectId otherwise |
| ToolDispatch.Present | backend/app/routes/ai.py:93-108 | the properties are exactly the listed keys the call carries, each with its given value |
| ToolDispatch.ToolCallToAction | backend/app/routes/ai.py:14-114 | an unknown tool name is exactly the ValueError case; a missing-argument failure names a subscripted key the call lacks; a success had every subscripted key |
| ToolDispatch.SucceedsIff | backend/app/routes/ai.py:14-114 | a call translates if and only if its tool is known, every subscripted argument is present and its id arguments are strings or null |
| ToolDispatch.BuildSucceedsIff | backend/app/routes/ai.py:19-112 | once dispatched, a branch succeeds if and only if its id arguments are strings or null |
| ToolDispatch.Executable | backend/app/routes/ai.py:19-112 | the action kinds the frontend executor carries out: create, update or delete; a definition |
| ToolDispatch.Build | backend/app/routes/ai.py:19-112 | every action a branch builds is a create, an update or a delete |
| ToolDispatch.StickyNoteAction | backend/app/routes/ai.py:19-31 | a create of a stickyNote with no target id; StickyNoteFills states its properties |
| ToolDispatch.ShapeAction | backend/app/routes/ai.py:32-40 | succeeds exactly when the shape is a string or null, and is then a create with no target id; ShapeFills and ShapeSizes state its properties |
| ToolDispatch.TextAction | backend/app/routes/ai.py:41-53 | a create of a text object with no target id; TextFills states its properties |
| ToolDispatch.LineAction | backend/app/routes/ai.py:54-65 | a create of a line with no target id; LineFills states its properties |
| ToolDispatch.FrameAction | backend/app/routes/ai.py:66-79 | a create of a frame with no target id; FrameFills states its properties |
| ToolDispatch.ConnectorAction | backend/app/routes/ai.py:80-90 | a create of a connector with no target id; ConnectorFills states its properties |
| ToolDispatch.Defaults | backend/app/routes/ai.py:19-90 | the default of each optional argument, per tool; no contract of its own: the Fills lemmas and Tools.DefaultsAgree state it |
| ToolDispatch.Dispatches | backend/app/routes/ai.py:19-112 | a known tool with its subscripted arguments goes to its own branch |
| ToolDispatch.StickyNoteFills | backend/app/routes/ai.py:19-31 | the sticky note branch copies the position, fills yellow, 200 by 150 and empty text for what is not given, always writes rotation 0, and writes exactly those seven keys |
| ToolDispatch.StickyNoteDefaults | backend/app/routes/ai.py:19-31 | createStickyNote with a position always succeeds, makes a stickyNote, copies the position, fills its defaults and rotation 0, with exactly those keys |
| ToolDispatch.ShapeFills | backend/app/routes/ai.py:32-40 | the shape branch succeeds on a string or null shape, copies the position, fills the grey colour and the size defaults, and always writes rotation 0 |
| ToolDispatch.ShapeDefaults | backend/app/routes/ai.py:32-40 | createShape with a shape and position succeeds, copies the position, fills its defaults and writes rotation 0; ShapeSizes gives its exact keys |
| ToolDispatch.ShapeSizes | backend/app/routes/ai.py:32-40 | the object type is the given shape; a rectangle gets width and height (120 by default), a circle a radius (60), any other shape no size |
| ToolDispatch.TextFills | backend/app/routes/ai.py:41-53 | the text branch copies the position, fills size 20, dark grey and width 200 for what is not given, always writes rotation 0, and writes exactly those seven keys |
| ToolDispatch.TextDefaults | backend/app/routes/ai.py:41-53 | createText with a position always succeeds, makes a text object, copies the position, fills its defaults and rotation 0, with exactly those keys |
| ToolDispatch.LineFills | backend/app/routes/ai.py:54-65 | the line branch copies the position, fills length 150, grey, stroke 3 and rotation 0 for what is not given, and writes exactly those six keys |
| ToolDispatch.LineDefaults | backend/app/routes/ai.py:54-65 | createLine with a position always succeeds, makes a line, copies the position and fills its defaults, with exactly those keys |
| ToolDispatch.FrameFills | backend/app/routes/ai.py:66-79 | the frame branch copies the position, fills 400 by 300, grey and the title "Frame" for what is not given, always writes rotation 0 and zIndex 0, and writes exactly those eight keys |
| ToolDispatch.FrameDefaults | backend/app/routes/ai.py:66-79 | createFrame with a position always succeeds, makes a frame, copies the position, fills its defaults and writes rotation 0 and zIndex 0, with exactly those keys |
| ToolDispatch.FrameAtBack | backend/app/routes/ai.py:66-79 | a frame is always created at zIndex 0, titled "Frame" unless a title is given |
| ToolDispatch.ConnectorFills | backend/app/routes/ai.py:80-90 | the connector branch copies both ids and fills grey, width 2 and an arrowhead for what is not given, with exactly those keys |
| ToolDispatch.ConnectorDefaults | backend/app/routes/ai.py:80-90 | createConnector with both ends succeeds, makes a connector, copies both ids and fills grey, width 2 and an arrowhead, with exactly those five keys |
| ToolDispatch.ConnectorExample | backend/app/routes/ai.py:80-90 | a connector call with only its ends yields exactly the ids plus the three defaults |
| ToolDispatch.MoveWritesPosition | backend/app/routes/ai.py:91-92 | moveObject is an update of the named object writing exactly x and y |
| ToolDispatch.OnlyGivenKeys | backend/app/routes/ai.py:93-108 | resizeObject and updateText write exactly the size or text keys the call carries, with their values |
| ToolDispatch.DeleteNamesObject | backend/app/routes/ai.py:111-112 | deleteObject is a delete of the named object with no properties |
| ToolDispatch.Convert | backend/app/routes/ai.py:14-18 | arguments that are not valid JSON fail; otherwise the call translates as its name and arguments dictate |
| ToolDispatch.Converted | backend/app/routes/ai.py:147-154 | at most one action per call, each a create, an update or a delete |
| ToolDispatch.ConvertedAppend | backend/app/routes/ai.py:147-154 | the actions of two runs of calls are the actions of each, concatenated in order |
| ToolDispatch.ConvertedCount | backend/app/routes/ai.py:147-154 | a failing call is skipped, never fatal: at most one action per call, and exactly one each when every call translates |
| ToolDispatch.ConvertedAreTranslations | backend/app/routes/ai.py:147-154 | an action is in the response if and only if some call translates to it |
| ToolDispatch.Summary | backend/app/routes/ai.py:156 | the reply text when it is non-empty, and never empty ("Done!" otherwise) |
| ToolDispatch.AiCommand | backend/app/routes/ai.py:146-157 | the response holds the translated calls' actions in order (none without tool calls), the summary as message, and no error |
| Tools.Names | backend/app/tools.py:1-204 | the names of the tool table, one per tool, in table order |
| Tools.NamesMatchDispatch | backend/app/tools.py:1-204 | the table offers exactly the dispatcher's eleven tools, in its order, with distinct names |
| Tools.RequiredAreParameters | backend/app/tools.py:20-200 | every name a tool requires is one of its declared parameters |
| Tools.SubscriptedAreRequired | backend/app/tools.py:20-200 | every argument the dispatcher reads by subscript is one the tool requires |
| Tools.ShapeTypeChoices | backend/app/tools.py:24-47 | createShape's shapeType is restricted to "rectangle" and "circle", the two shapes the dispatcher sizes |
| Tools.RequiredArgsSuffice | backend/app/tools.py:20-200 | a call carrying every required argument, with string ids, always translates |
| Tools.StickyNoteDefaultsDocumented | backend/app/tools.py:2-23 | every default the sticky note tool documents is the one the dispatcher fills, with the declared type |
| Tools.ShapeDefaultsDocumented | backend/app/tools.py:24-47 | the same for the shape tool |
| Tools.TextDefaultsDocumented | backend/app/tools.py:48-66 | the same for the text tool |
| Tools.LineDefaultsDocumented | backend/app/tools.py:67-85 | the same for the line tool |
| Tools.FrameDefaultsDocumented | backend/app/tools.py:86-104 | the same for the frame tool |
| Tools.ConnectorDefaultsDocumented | backend/app/tools.py:105-122 | the same for the connector tool |
| Tools.DefaultsAgree | backend/app/tools.py:1-204 | across all eleven tools, every documented default is the dispatcher's and every dispatcher default has its parameter's declared type |
| Auth.BearerToken | backend/app/auth.py:21-23 | succeeds exactly when the header starts with "Bearer ", and the header is then the prefix followed by the token; otherwise 401 "Invalid authorization header" |
| Auth.VerifyFirebaseToken | backend/app/auth.py:19-29 | succeeds exactly when the header has the prefix and the verifier accepts the token, returning its claims; every failure is a 401, with the header detail exactly when the prefix is missing |
| Auth.TokenRoundTrip | backend/app/auth.py:21-23 | the verifier is handed exactly the text sent after "Bearer " |
| Auth.MalformedHeaderIgnoresVerifier | backend/app/auth.py:21-22 | a header without the prefix is refused with the header error whatever the verifier would say |
| Auth.AuthExamples | backend/tests/test_auth.py:6-33 | a wrong prefix, a refused token and a good token give the header error, the token error and the claims |

## Left out

- Firestore itself is an abstract document map. Live subscriptions (`useBoardObjects.js`, the `onSnapshot` listener in `usePresence.js`) and the SDK's last-write-wins merging are outside the code modelled here. A refused commit is an input, not modelled behaviour.
- `sendAiCommand` (frontend/src/services/ai.js:13-59) is a network fetch. Its outcome is a parameter of `UseAiAgent.AiAgent.FinishCommand`.
- `ToolDispatch.AiCommand` models the command endpoint only from the model's reply onward. Building the prompt from the board state and viewport, the OpenAI call itself and the HTTP 500 wrapping of its exceptions are network I/O. `prompts.py`, `config.py` and `main.py` are not part of this model.
- `ToolDispatch.Convert`: `json.loads` is not modelled. The arguments arrive already parsed, and `MalformedArguments` stands for arguments that do not parse.
- `ToolDispatch.OptionalStr` follows the `Action` schema. It accepts exactly a string or null for `objectId` and `objectType`, and treats any other value as a validation error. Other validation of the response model is not modelled.
- `Tools`: each parameter description is reduced to the default it documents, its JSON type and any enumeration. The prose and the `"type": "function"` wrapper around each entry are not modelled.
- Rendering is not modelled: Konva nodes, styles and pixel positioning of the editors' DOM overlays. `BoardToolbar.jsx`, `AiChatPanel.jsx`, `UserList.jsx`, `Cursor.jsx`, `MultipleCursors.jsx` and `App.jsx` are not part of this model.
- `ObjectFactory.jsx`, `Rectangle.jsx` and `Circle.jsx` are thin render or single-write components and are not part of this model.
- Numbers are exact `real`s, not IEEE doubles. Where the source divides by zero and gets NaN or Infinity, the model returns None.
- `Values.ToNumber`: `+` on a string field concatenates in JavaScript. The model treats a string, like undefined or a timestamp, as not a number, so such a centre coordinate reads as NaN instead of a string. Objects the AI creates copy the model's x and y arguments unchecked (backend/app/routes/ai.py:24 and the other create branches), so a string coordinate can reach a record, and its centre would then be a concatenated string where the model has NaN.
- `Board.ObjectStore.CreateMultipleObjects`: only the single-document create refuses a record holding undefined. The batched creates and the updates do not check this, and no modelled caller passes them undefined: action properties come from JSON, and an absent object type arrives as null.
- `Board.ObjectStore.CreateObject`: a record refused for an undefined field still counts as one write call in the refusal oracle's numbering, so the oracle indexes write calls rather than requests that reached the store.
- `ConnectorUtils.CircleEdgePoint`: the square root in `circleEdgePoint` is a distance oracle. The oracle is non-negative and zero exactly at the centre. So the contract says the point is on the ray toward the target, but not that it lies exactly on the circle.
- `StringHash.HashMagnitude`: the hash is exact over integers. It agrees with double-precision JavaScript only while the accumulator stays below 2^53, which is what this lemma bounds.
- `Date.now`, server timestamps and `Math.random` are parameters: a clock value, a timestamp marker and a palette index.
- The `beforeunload` listener and React effect scheduling are not modelled. Neither is the interleaving of concurrent asynchronous handlers: each handler runs to completion.
- `Board.ValidRef`: the model keys documents by the raw id. Firestore joins the id into a path and drops empty segments, so "/a", "a/" and "a" name the same document there but three documents here, and "a/b/c" is a document in a nested collection there but a plain key here. Ids of the form `__…__`, which the server reserves, are not refused by the model.
- `Values.NumOr`: for a numeric field, `||` is modelled as "a non-zero number, else the default". JavaScript would also pass through a truthy value of another kind, such as a non-empty string, which these fields do not hold. `Values.StrOr` does the same for string fields.
- `StickyNote`: the note's editor adds keydown and blur listeners that are never removed, and there is no unmount cleanup. The model follows that code: an Escape followed by a blur still writes.
- Several backend tests expect behaviour the code does not have, and the model follows the code:
  - `bulkCreate` and `deleteAll` yield nothing, and calls expand into several actions; the code raises `ValueError` for unknown tools.
  - `generate_bulk_actions` does not exist in the code.
  - The HTTP 500 detail is "AI request failed"; the code returns the exception text.
- Where the intended design and the code differ, the model follows the code:
  - A new object's zIndex is the current object count, not one more.
  - Deleting an object does not delete the connectors attached to it.
  - AI-created connectors take their cached coordinates from object centres, not edge points.
  - There is no viewport culling, no clipboard, duplicate or paste, no rubber-band selection, no heartbeat timer and no stale-peer filtering.
- The Firebase Admin SDK initialisation (backend/app/auth.py:14-16) and its verification of ID tokens are a parameter of `Auth.VerifyFirebaseToken`.
