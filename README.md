# Tactosonix kitchen: the beat-synchronised loop engine

This project models the core of the Tactosonix "kitchen" in Dafny. In the
kitchen, sound loops are cooked in pots:

- **Stoves and pots.** Four stove tops sit at the corners of a virtual
  kitchen, and each has a pot.
- **Queues.** A pot holds three queues of cookable loops, one per loop type
  (drums, bass, lead).
- **Beat hand-off.** On every new beat of the kitchen's sequencer, each queue
  hands over on its own. A lone loop plays and advances its stutter counter.
  A longer queue stops its head and starts the next loop.
- **Dragging a loop.** Dragging a loop inside a pot maps the distance from the
  centre to its volume and the height to its low-pass. Near the centre, the
  quadrant gives its stutter length.
- **Releasing a loop.** Releasing a loop outside its pot throws it out.
- **Dragging the background.** One finger dragging the background moves the
  kitchen's drag offset, clamped to the unit square. That offset drags every
  stove and crossfades the four pots.
- **Dropping menu items.** Releasing dragged menu items over a pot cooks them
  in that pot.

Modules, one per file:

- `Geometry` (`geometry.dfy`): points, the window, normalisation of touches,
  disk hit-tests on squared distances.
- `CInts` (`c_ints.dfy`): C++'s truncating `/` and `%`.
- `CookableNodes` (`cookable_node.dfy`): `ofxCookableNode`.
  - It is a value, because the program keeps nodes by value in its vectors.
  - Its lifetime, low-pass and stutter counter are modelled.
  - The player it drives is reduced to four fields: playing, position, volume
    and cutoff.
- `Pots` (`pot.dfy`): `ofxPot`. It is a class whose three queue fields and
  dragged list its methods reassign, loop by loop. A twostate predicate per
  operation states the operation's whole effect, so the stove top and the
  kitchen can state it about their pots.
  - Its channel invariant (`WellFormed`): every node sits in the queue of its
    type, and only the head of a queue may be playing. Every operation that
    changes the queues keeps it, up to the pot, the stove top and the kitchen.
    A node added while playing to a non-empty queue would break it, and no
    caller adds one.
- `Stovetops` (`stovetop.dfy`): `ofxStovetop` and `stoveInformation`, with the
  four-corner crossfade.
- `KitchenParts` (`kitchen_parts.dfy`): the value-level parts of
  `metaphorKitchen`:
  - the beat clock;
  - `draggedBGPoint`;
  - the drag-offset clamp;
  - the loop a menu item turns into when it is dropped.
- `Kitchens` (`kitchen.dfy`): the `metaphorKitchen` class. It holds the four
  stove tops, the drag offset and the background points, and has the update
  and touch handlers.

Inputs instead of the environment:

- The window size, the clock and the touch are parameters.
- The menu's own answer to a touch is a parameter. So is its list of dragged
  items, and the changed list is returned.
- Floats are reals.
- Square roots do not appear. Where the program uses a distance `d`, the
  model takes it as an input with `d >= 0` and `d * d` equal to the squared
  distance. Disk tests compare squared distances, which is equivalent.
- The program's pointers to dragged loops (`m_draggedBeats`) are handles:
  `Handle(channel, index)`.

## Model

| member | source | states |
|---|---|---|
| Geometry.Clamp01 | src/metaphorKitchen.cpp:386-389 | the clamp lies in [0,1], keeps a value already in [0,1], and sends values below 0 to 0 and above 1 to 1 |
| Geometry.NormalizeRoundTrip | src/ofxPot.cpp:351-356 | a pixel touch divided by the window size scales back to the very same pixel |
| Geometry.InDiskByDistance | src/ofxPot.cpp:156-160 | for the program's distance d (d >= 0, d*d the squared distance) the squared-distance disk test holds exactly when d <= radius |
| CInts.TruncDivMod | src/metaphorKitchen.cpp:185 | C++ quotient and remainder satisfy a == b*q + r; r has the sign of a and is smaller than b; on a >= 0 both agree with Euclidean division |
| CookableNodes.AgeSpec | src/ofxCookableNode.cpp:56-66 | from creation on, the age is -1 exactly when the lifetime is -1 and is non-negative otherwise; a finite age is 0 at creation and advances one for one with the clock; an infinite one stays -1 |
| CookableNodes.DeadIffOlderThanLifetime | src/ofxCookableNode.cpp:70-80 | a node with lifetime -1 is never dead; otherwise it is dead iff its age strictly exceeds its lifetime |
| CookableNodes.DeathIsPermanent | src/ofxCookableNode.cpp:70-80 | a node dead at some time is dead at every later time |
| CookableNodes.SetLowpassMapping | src/ofxCookableNode.cpp:109-115 | setLowpass stores pct unchanged and hands 0.33*pct to the player, a monotonic map sending 0 to 0 |
| CookableNodes.SetLoopBeatsSpec | src/ofxCookableNode.cpp:175-183 | the stored value changes nothing; a new value is stored with the current beat and playback position as restart point; applying it twice is applying it once |
| CookableNodes.FreshNodeState | src/ofxCookableNode.cpp:17-39 | a new node has low-pass 0, no stutter, beat and start beat 0, start position 0, is silent, keeps its type and beat length, and with a finite lifetime is not dead at creation |
| CookableNodes.IncrementWithoutLength | src/ofxCookableNode.cpp:153-156 | with loop length <= 0 the increment (either reading) changes nothing |
| CookableNodes.IncrementBound | src/ofxCookableNode.cpp:157-170 | under either reading of the advance the new beat is below the loop length or is the start beat, and only beat and position change |
| CookableNodes.IncrementRewind | src/ofxCookableNode.cpp:160-170 | with a stutter length, reaching (start + loopBeats) % loopLength rewinds beat and position to the remembered ones; without one the position is untouched |
| CookableNodes.StutterPeriodSpec | src/ofxCookableNode.cpp:160-168 | the stutter period (loopBeats reduced into 1..loopLength) is loopBeats itself when loopBeats <= loopLength, and reaches the same rewind beat as loopBeats |
| CookableNodes.StutterCycle | src/ofxCookableNode.cpp:157-170 | corrected counter, any stutter length: from its start beat a node walks its stutter period of distinct beats without rewinding and is back on its start beat with playback rewound after exactly that many increments; for loopBeats <= loopLength that is loopBeats increments |
| CookableNodes.AsWrittenNeverAdvances | src/ofxCookableNode.cpp:157 | as written, any number of increments leaves a node whose beat is not the rewind beat exactly as it was; this is the case of a node on its start beat whose stutter length is not a multiple of the loop length |
| CookableNodes.AsWrittenRewindsEveryBeat | src/ofxCookableNode.cpp:157-170 | as written, a node on its start beat whose stutter length is a multiple of the loop length stays on that beat and rewinds its playback on every increment |
| CookableNodes.StutterAsWrittenStalls | src/ofxCookableNode.cpp:157-170 | a 4-beat loop with a 2-beat stutter at beat 0: as written still on beat 0 with the position unchanged after two beats; corrected, on beat 1 after one and rewound after two |
| Pots.WithPotVolumeSpec | src/ofxPot.cpp:121-134 | every node's player volume becomes its relative volume times the pot volume; nothing else in the node changes |
| Pots.BeatStepHandOff | src/ofxPot.cpp:60-118 | an empty queue stays empty; a lone loop stays alone, plays (if it has a file) and advances its counter; a longer queue becomes its tail in order with the new head started and not advanced, and the removed head is stopped |
| Pots.FirstHit | src/ofxPot.cpp:363-371 | the index found contains the touch and no earlier node does; -1 means no node contains it |
| Pots.HitHandle | src/ofxPot.cpp:360-398 | the grabbed handle is valid and its node contains the touch, no node of an earlier-searched queue or earlier in its queue does; none means no node of any queue contains it |
| Pots.MovedNodeMapping | src/ofxPot.cpp:459-510 | a moved loop gets volume 1.5*(1 - d/r), low-pass (originY + r - y)/(2r) with cutoff 0.33 times that, stutter length by quadrant when d/r < pct and 0 otherwise, sits on the touch and still contains it |
| Pots.MovedNodeIdempotent | src/ofxPot.cpp:464-509 | moving a loop twice to the same touch is moving it once |
| Pots.MoveAllSpec | src/ofxPot.cpp:459-511 | the dragged-loop pass keeps every queue length and moves exactly the nodes some dragged handle designates that contain the touch |
| Pots.EvictedAppend | src/ofxPot.cpp:546-614 | eviction is a filter: it distributes over concatenation, so survivors keep their order |
| Pots.EvictedMembers | src/ofxPot.cpp:546-614 | a node survives eviction exactly when it does not contain the release point; the queue never grows |
| Pots.KeptHandlesMembers | src/ofxPot.cpp:531-544 | release keeps exactly the dragged handles whose node does not contain the point |
| Pots.DraggedLastWins | src/ofxPot.cpp:649-670 | dragging puts each node at its undragged origin plus the drag; only the last drag counts, so repeating one is idempotent |
| Pots.MappingRange | src/ofxPot.cpp:472-480 | the volume and low-pass are not clamped: the volume is in [0,1.5] only for d <= r and negative beyond; the low-pass is in [0,1] for heights within the pot |
| Pots.MoveInsidePotRange | src/ofxPot.cpp:472-480 | a loop moved to a touch inside the pot has volume in [0,1.5] and low-pass in [0,1] |
| Pots.NearCentreByDistance | src/ofxPot.cpp:424-431 | the squared-distance near-centre test is the program's dist / r < pct |
| Pots.UpdateKeepsWellFormed | src/ofxPot.cpp:60-134 | a new beat and the volume pass keep a queue well formed: all nodes of its type, none but the head playing |
| Pots.AddOneWellFormed | src/ofxPot.cpp:326-340 | adding a node to well-formed queues keeps them well formed exactly when the node is silent or its queue was empty |
| Pots.MoveAllKeepsWellFormed | src/ofxPot.cpp:459-511 | moving dragged loops keeps the queues well formed |
| Pots.EvictedKeepsWellFormed | src/ofxPot.cpp:546-614 | eviction keeps a queue well formed, since no node moves away from the head |
| Pots.EvictedChannelsWellFormed | src/ofxPot.cpp:546-614 | a release, on the pot or off it, keeps the queues well formed |
| Pots.DraggedKeepsWellFormed | src/ofxPot.cpp:649-670 | dragging keeps a queue well formed |
| Pots.QuadrantTable | src/ofxPot.cpp:483-508 | stutter lengths 2, 1, 4, 8 for lower right, upper right, lower left, upper left, each in both directions, and 0 exactly on an axis |
| Pots.AnyNearCentreByQueue | src/ofxPot.cpp:422-457 | searching the queues one after the other finds a near-centre node exactly when some queue has one |
| Pots.Pot.constructor | src/ofxPot.cpp:13-26 | a new pot has the given colour, radius, origin (also as undragged origin) and tempo, volume 1, beat 0, no loop feedback, empty queues and no dragged loops |
| Pots.Pot.Update | src/ofxPot.cpp:50-135 | a beat is new only when the stored beat is not the step count and differs; then each queue hands over on its own and the stored beat changes; otherwise no queue changes; in both cases every node takes the pot volume; returns the stopped heads; well-formed queues stay well formed |
| Pots.Pot.ApplyVolume | src/ofxPot.cpp:121-134 | the volume loop gives each node relative volume times pot volume and keeps the queue's length and order |
| Pots.Pot.AddCookElement | src/ofxPot.cpp:326-340 | the node joins the tail of exactly the queue of its type; the other queues and the pot's settings stay; well-formed queues stay so exactly when the node is silent or its queue was empty |
| Pots.Pot.FindFirstHit | src/ofxPot.cpp:363-371 | the scan returns the first node containing the touch, or -1 when none does |
| Pots.Pot.MouseTouchDown | src/ofxPot.cpp:349-401 | at most one handle is added, the first hit in drums, then bass, then lead; the answer is true iff a node was hit or the touch is on the pot, boundary included |
| Pots.Pot.HasNodeNearCentre | src/ofxPot.cpp:424-432 | the search answers true exactly when some node of the queue is within pct of a radius of the centre |
| Pots.Pot.MouseTouchMoved | src/ofxPot.cpp:410-513 | the loop feedback says whether a node is near the centre, the dragged loops under the touch move as MovedNodeMapping says, the queues stay well formed, and the answer is always false |
| Pots.Pot.ShowLoopFeedback | src/ofxPot.cpp:422-457 | the flag becomes "some node is near the centre" and nothing else changes |
| Pots.Pot.MoveDragged | src/ofxPot.cpp:459-511 | the queues become the dragged-loop pass over the dragged handles; nothing else changes |
| Pots.Pot.ReleaseHandles | src/ofxPot.cpp:531-544 | the release loop keeps exactly the handles whose node does not contain the point, in order |
| Pots.Pot.EvictFrom | src/ofxPot.cpp:546-568 | on the pot the queue is kept whole; off it the nodes containing the point are removed, the rest kept in order |
| Pots.Pot.MouseTouchUp | src/ofxPot.cpp:522-615 | the handles under the touch are forgotten; off the pot each queue loses exactly its nodes under the touch; on it the queues stay; place and settings are kept; the queues stay well formed |
| Pots.Pot.DragNodes | src/ofxPot.cpp:653-669 | every node is placed at its undragged origin plus the drag |
| Pots.Pot.Drag | src/ofxPot.cpp:649-670 | the pot and all its nodes sit at their undragged places plus the drag; nothing else changes; the queues stay well formed |
| Pots.Pot.SetFocusVolume | src/ofxPot.h:43 | the pot volume becomes the given one and nothing else changes |
| Stovetops.CrossfadeClosedForms | src/ofxStovetop.cpp:343-456 | on the unit square the gains are 1-max(x,y), min(x,1-y), min(x,y), min(1-x,y) for front right, front left, rear left, rear right, and 0 for an invalid stove |
| Stovetops.CrossfadeIsCornerProximity | src/ofxStovetop.cpp:350-453 | each valid stove's gain is 1 minus the Chebyshev distance from the drag offset to that stove's corner of the unit square |
| Stovetops.CrossfadeRange | src/ofxStovetop.cpp:343-456 | on the unit square every gain is in [0,1]; with no drag only the front right stove is heard, fully |
| Stovetops.StoveInfoDragLastWins | src/ofxStovetop.cpp:7-10 | the box sits at its undragged origin plus the drag; only the last drag counts |
| Stovetops.Stovetop.constructor | src/ofxStovetop.cpp:80-114 | a valid stove gets a pot of radius height/3 at its origin with its tempo and STOVE_COLOR, and its box at (2,2) shifted by a window left and/or up by corner; an invalid one keeps the default pot and box |
| Stovetops.Stovetop.Update | src/ofxStovetop.cpp:118-121 | the pot is updated with the same beat and its queues stay well formed |
| Stovetops.Stovetop.MouseTouchDown | src/ofxStovetop.cpp:232-235 | the pot sees the touch and its answer is returned |
| Stovetops.Stovetop.MouseTouchMoved | src/ofxStovetop.cpp:244-247 | the pot sees the move, its queues stay well formed, and the answer is false |
| Stovetops.Stovetop.MouseTouchUp | src/ofxStovetop.cpp:256-259 | the pot sees the release and its queues stay well formed |
| Stovetops.Stovetop.Drag | src/ofxStovetop.cpp:293-301 | the normalised total drag divides both axes by the window width; stove, pot, nodes and box sit at their undragged places plus the drag; the pot's queues stay well formed |
| Stovetops.Stovetop.MoveOffset | src/ofxStovetop.cpp:305-313 | the pot's origin and undragged origin both become the old undragged origin plus the offset, the box is shifted by it; queues, dragged loops, volume, beat and loop feedback stay |
| Stovetops.Stovetop.AddCookElement | src/ofxStovetop.cpp:335-338 | the pot receives the node as its AddCookElement says, including when its queues stay well formed |
| KitchenParts.BeatPeriod | src/metaphorKitchen.cpp:181 | the beat period in ms is the integer quotient of 60000 by the tempo: period*bpm <= 60000 < (period+1)*bpm |
| KitchenParts.BeatIndexSpec | src/metaphorKitchen.cpp:181-185 | once the clock has passed the creation time the step is floor(elapsed / period) mod steps, in [0, steps); before it C++'s remainder keeps it in (-steps, steps) |
| KitchenParts.BeatIndexExample | src/metaphorKitchen.cpp:181-185 | at 120 bpm and 16 steps, 1250 ms in is step 2 and 8250 ms in wraps to step 0 |
| KitchenParts.BGPointDrag | src/metaphorKitchen.cpp:28-73 | a new point has no drag; after setPosition the incremental drag is the step just made and the total drag is the old total plus that step |
| KitchenParts.BGPointCoversScreen | src/metaphorKitchen.cpp:39-48 | since the 20.0 radius is compared in normalised coordinates, a background point on the screen contains every touch on the screen |
| KitchenParts.MovedBGPointsSpec | src/metaphorKitchen.cpp:368-377 | a point containing the touch moves onto it with the step as incremental drag; the others are unchanged |
| KitchenParts.KeptBGPointsMembers | src/metaphorKitchen.cpp:474-485 | a background point survives a release exactly when it does not contain the release point |
| KitchenParts.KeptBGPointsAppend | src/metaphorKitchen.cpp:474-485 | the release filter distributes over concatenation, so survivors keep their order |
| KitchenParts.NextDragOffset | src/metaphorKitchen.cpp:380-389 | the new drag offset always lies in the unit square |
| KitchenParts.NextDragOffsetSpec | src/metaphorKitchen.cpp:380-389 | inside the square the step is taken whole; past an edge the offset stops on that edge, per axis |
| KitchenParts.DroppedNodeSpec | src/metaphorKitchen.cpp:437-458 | a dropped loop keeps the item's type, length, file, lifetime and place (undragged origin minus the kitchen's offset), gets volume 1.5*(1-d/r), low-pass (originY+r-y)/(2r), no stutter and no playback; dropped inside the pot those are in [0,1.5] and [0,1] |
| KitchenParts.DropsAndRemaining | src/metaphorKitchen.cpp:425-472 | an item stays in the dragged list exactly when it does not contain the touch; every other item gives each pot under the touch one loop |
| KitchenParts.AddAllByType | src/metaphorKitchen.cpp:433-463 | adding dropped loops one by one appends to each queue exactly the loops of its type, in order |
| KitchenParts.DropsSilent | src/metaphorKitchen.cpp:437-458 | no loop made from a dropped item is playing |
| KitchenParts.AddAllSilentWellFormed | src/metaphorKitchen.cpp:433-463 | adding silent loops one by one keeps the queues well formed |
| KitchenParts.DropsKeepWellFormed | src/metaphorKitchen.cpp:433-463 | a drop onto a pot keeps its queues well formed |
| KitchenParts.DragAndReleaseKeepWellFormed | src/metaphorKitchen.cpp:391-416 | dragging a pot's loops and releasing a touch keep its queues well formed |
| Kitchens.PotOriginLayout | src/metaphorKitchen.cpp:165-173 | with C++ integer division the four pots form a rectangle, left mirroring right about x = 0 and rear above front, one window (up to rounding) apart |
| Kitchens.Kitchen.constructor | src/metaphorKitchen.cpp:165-175 | the four stoves sit at their places with pots of radius height/3 at the kitchen tempo, empty, with no drag and no background point |
| Kitchens.Kitchen.Update | src/metaphorKitchen.cpp:178-191 | the beat handed out is the beat clock's (BeatIndex) and every pot is updated with it; every pot's well-formed queues stay so |
| Kitchens.Kitchen.UpdatePots | src/metaphorKitchen.cpp:187-190 | all four pots get the same beat |
| Kitchens.Kitchen.ClaimsUpTo | src/metaphorKitchen.cpp:322-325 | true iff one of the first k pots claims the touch |
| Kitchens.Kitchen.MouseTouchDown | src/metaphorKitchen.cpp:318-340 | every pot sees the touch; the answer is the menu's or any pot's claim; a background point is added exactly when nobody claimed the touch |
| Kitchens.Kitchen.TouchDownPots | src/metaphorKitchen.cpp:322-325 | every pot sees the touch; the answer is true iff some pot claims it |
| Kitchens.Kitchen.MovePots | src/metaphorKitchen.cpp:353-356 | every pot applies the move with the current drag offset and no pot reports a find |
| Kitchens.Kitchen.MoveBGPoints | src/metaphorKitchen.cpp:368-377 | the background loop is the pure move of the points under the touch |
| Kitchens.Kitchen.ApplyDrag | src/metaphorKitchen.cpp:391-399 | with a non-zero offset every stove is dragged by the offset in pixels and its pot's volume becomes its crossfade gain; at (0,0) nothing changes |
| Kitchens.Kitchen.MouseTouchMoved | src/metaphorKitchen.cpp:349-401 | pots move their loops; an unclaimed touch moves the background points; only with exactly one background point the offset takes its step, clamped, and a non-zero offset drags and crossfades every stove; every pot's well-formed queues stay so |
| Kitchens.Kitchen.ReleasePots | src/metaphorKitchen.cpp:412-416 | every pot releases the touch and stays in place |
| Kitchens.Kitchen.DropItem | src/metaphorKitchen.cpp:433-464 | every pot under the touch receives the loop the item becomes there; the others are untouched |
| Kitchens.Kitchen.DropStep | src/metaphorKitchen.cpp:428-467 | one turn of the palette loop extends each pot's drops by the item exactly when the item contains the touch |
| Kitchens.Kitchen.DropPalette | src/metaphorKitchen.cpp:425-472 | the returned list is the items not containing the touch, in order; each pot under the touch received the loops of all items containing it, in order |
| Kitchens.Kitchen.RemoveBGPoints | src/metaphorKitchen.cpp:474-485 | the loop removes exactly the background points containing the release point and keeps the rest in order |
| Kitchens.Kitchen.MouseTouchUp | src/metaphorKitchen.cpp:410-486 | each pot forgets its handles under the touch; a pot under the touch gets the loops of all dropped items, the others evict their loops under it; dropped items leave the list; background points under the touch go; every pot's well-formed queues stay so |

## Left out

- Drawing (`draw`, `drawLowpass`, the pulsing alpha): rendering only.
- `metaphorKitchen::setup`: XML loading, menu construction and `keyPressed`
  are configuration and I/O. The tempo, step count, loop threshold and menu
  items are inputs, and the constructor models only the stove-top part.
- `windowResized` of the stove top and the kitchen: it recomputes the layout
  from window metrics.
- The application shell, the particle system and the musical note.
- The menu (`ofxTactoSHPMNode`, `ofxTactoBeatNode`) is not part of this model.
  - Its answer to a touch and its dragged list are inputs.
  - A node's `isPointInside` is taken to be the disk test of the touch in
    pixels against its origin and radius.
  - `TactosonixHelpers.h` is not part of this model either.
  - `OFX_POT_NUMSEQUENCERSTEPS` and `RADIUS_LOOP_PCT` are parameters, with
    steps > 0 and pct > 0.
- The sound player (`ofSoundPlayer`, `ofSoundUpdate`, `loadSound`, `unloadSound`)
  is a foreign library. Only four player fields are kept: playing, position,
  volume and cutoff.
- Logging.
- Floats are reals: float rounding, NaN and infinities are not modelled.
  `int` widths are unbounded.
- The millisecond clock is an unbounded `int`, not an unsigned wrap-around
  counter.
- Square roots: distances to a pot centre are inputs, as described above.
- Kitchens.Kitchen.MouseTouchMoved: takes each pot's distance to the touch as
  an input, instead of computing it with `sqrtf`.
- Kitchens.Kitchen.MouseTouchUp: likewise takes each pot's distance to the
  touch as an input.
- Pots.Pot.MouseTouchMoved: likewise takes the pot's distance to the touch as
  an input.
- Pointers into the queues (`m_draggedBeats`) are handles (queue, index).
  - An erase shifts the nodes after it, as it would under a pointer.
  - A handle that no longer designates a node is skipped on a move and
    dropped on a release.
  - The program's undefined behaviour on dangling pointers is not modelled.
- Stovetops.Stovetop.constructor: requires a window at least 3 pixels high for
  a valid stove. A radius of 0 would make the program divide by zero when it
  maps volume and low-pass.
- Kitchens.Kitchen.constructor: requires a window at least 3 pixels high and a
  tempo of at most 60000 bpm, so that the beat period is at least 1 ms.
- KitchenParts.BeatPeriod: requires 0 < bpm <= 60000. A faster tempo gives a
  period of 0, and the float division by it is not modelled.
- The default-constructed pot of an invalid stove (`ofxPot()`,
  src/ofxPot.h:27-28) leaves its volume, current beat, beat period, creation
  time and loop-feedback flag uninitialised in the program. The model gives
  it volume 1, beat 0, the period of 120 bpm, the kitchen's clock and no
  loop feedback. The step count and the loop threshold are macros in the
  program and parameters here.
- Pots.BeatStep: advances a lone loop with the corrected stutter counter
  (`IncrementCurrLoopBeat`), not the one as written; see "Findings".
  Pots.Pot.Update, Pots.BeatStepHandOff and everything above them inherit
  this.
- CookableNodes.SetLoopBeats: the restart point it records is the node's
  `position` field, which the model moves only on a rewind. The program
  reads the player's live position, which advances with playback, so the
  model does not say where in the sound a stutter restarts. Pots.MovedNode
  and Pots.Pot.MouseTouchMoved inherit this.
- Pots.MovedNode: the base class's `setOrigin` and `setOriginInit` are not
  part of this model. They are taken to scale a normalised point to pixels
  when their flag is `false` (src/ofxPot.cpp:468-469) and to take pixels
  when it is `true`.
- Evicted loops are not stopped, as in the program: the model only removes
  them from their queue.
- `getStandardizedAge`, `getDragDistance`, `exit` and the plain getters and
  setters are not modelled. Nothing in the core depends on them.

## Findings

| source | as written | input that shows it | evidently intended | confidence | as-written member | corrected member |
|---|---|---|---|---|---|---|
| src/ofxCookableNode.cpp:157 | `m_nCurrLoopBeat = (m_nCurrLoopBeat++ % m_nLoopLength)` stores the old beat modulo the length, so the increment is lost: from its start beat, a stutter whose length is not a multiple of the loop length never advances or rewinds, and one whose length is a multiple rewinds on every beat | a 4-beat loop with a 2-beat stutter started at beat 0 is still on beat 0, with playback not rewound, after two beats (a 4-beat stutter would rewind every beat) | `(m_nCurrLoopBeat + 1) % m_nLoopLength`, so the stutter walks its beats and rewinds after its period, `loopBeats` when that fits in the loop | high, not executed | CookableNodes.StutterAsWrittenStalls, CookableNodes.AsWrittenRewindsEveryBeat | CookableNodes.StutterCycle |
