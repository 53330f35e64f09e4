# Walking demo: gallery and forest revisions

The repository is a browser experience in Three.js where the visitor walks a
first-person camera through a scene. It has two revisions, and this project
models the logic of both.

- **Gallery** (`js/controls.js`, `js/scene.js`, `js/main.js`). A corridor of
  artworks. The visitor moves with keys or a virtual joystick and looks with a
  pointer-locked mouse or a camera drag. They open an artwork's detail panel by
  aiming at its plaque. The panel carries an HTML description and a WhatsApp
  link filled from a message template. A three-step tutorial guides the first
  visit, and a mute switch is remembered in local storage.
- **Forest** (`js/geral/controls.js`, `js/geral/interaction.js`,
  `js/geral/main.js`, `js/floresta/cenaFloresta.js`). A road leads to a path
  into a forest. Collision limits keep the camera on the road and the path.
  Two trigger zones drive a repeatable loop teleport and a one-shot ghost
  event. A crosshair ray finds the door, and activating it ends the game.

The modules follow the source files:

| module | models |
|---|---|
| `Common` | the values both revisions share: vectors, boxes, move flags and the key switch, the pitch clamp, the normalised heading |
| `GalleryControls` | `ControlsManager` |
| `GalleryScene` | `SceneManager` |
| `GalleryText` | the template message and the description markup |
| `GalleryApp` | `App` |
| `ForestControls` | `PlayerControls` |
| `ForestInteraction` | `InteractionHandler` |
| `ForestScene` | `ForestSceneBuilder` and `Ghost` |
| `ForestApp` | `SungApp` |

How the model is built:

- **Mutable objects are classes.** Each method names the fields it may
  change, and its contract gives the new value of each of them, outright
  or as a specification function of the old state and the inputs; where a
  path leaves such a field alone, the contract says it is kept. The two
  `StartExperience` methods state every field of the objects they create.
  Some methods reach into other objects: `SungApp.Animate` and
  `SungApp.CheckWorldTriggers` change the controls' position and the two
  ghosts (`Animate` also the handler's target), `App.ToggleMute` the
  scene's mute state, volume and ambient sound, and `App.RenderFrame` the
  controls' position. `App.TryToInteract` and `App.OnKeyDown` describe the
  panel, the tutorial, the tooltip and the lock and unlock requests, but
  not the lock state of the controls they call into.
- **Handler loops are spec folds.** Each handler that walks a
  `changedTouches` list is a `while` loop proved equal to a prefix-recursive
  fold over that list. Lemmas about the fold state what the handler promises.
- **Classes follow the code as written.** Where the code is wrong, they keep
  its behaviour. Each such place is logged under "## Findings". Next to it
  sits a corrected definition with the intended property proved about it.
  The corrected definitions are not wired into the classes.

## Model

| member | source | states |
|---|---|---|
| Common.ContainsCentre | js/geral/main.js:192-194 | a trigger box of non-negative size contains its own centre (containment is inclusive) |
| Common.ClampPitch | js/geral/controls.js:144 | the pitch after a look event lies in [-π/2, π/2]; an angle already in range is kept, and one outside it goes to the nearer bound |
| Common.ClampPitchIdempotent | js/controls.js:190 | clamping an already clamped pitch changes nothing |
| Common.OrZero | js/geral/controls.js:139-140 | a missing movement counts as 0; a present movement is used as is, whatever its value |
| Common.SetFlag | js/geral/controls.js:101-111 | holding or releasing one direction sets exactly that flag and leaves the other three alone |
| Common.KeyDirection | js/geral/controls.js:117-134 | ArrowUp/KeyW mean forward, ArrowLeft/KeyA left, ArrowDown/KeyS backward, ArrowRight/KeyD right, each in both directions of the iff |
| Common.ApplyKey | js/controls.js:126-167 | a key without a direction leaves the flags unchanged; a direction key sets its flag to pressed or released |
| Common.PressReleaseRestores | js/controls.js:126-167 | pressing then releasing a direction key that was not held gives back the original flags |
| Common.Heading | js/geral/controls.js:206-209 | the direction of the held keys, normalised; it carries no contract of its own, and HeadingSigns, HeadingIdleAxes and HeadingLength state its properties |
| Common.HeadingSigns | js/geral/controls.js:207-209 | the normalised direction has a positive x exactly when only left is held, a negative x exactly when only right is held, and likewise z for forward and backward; each component lies in [-1, 1] |
| Common.HeadingIdleAxes | js/geral/controls.js:207-209 | an axis with neither of its keys held has a zero component |
| Common.HeadingLength | js/geral/controls.js:209 | `normalize` gives a unit direction: opposite keys that cancel give the zero vector, anything else has squared length in [1 − 10⁻¹⁵, 1]; a diagonal has equal components and squared length just under 1 |
| Common.HeadingStepLength | js/geral/controls.js:207-218 | a step of `speed` along the negated heading, laid on orthonormal axes, is at most `speed` long, and at least `speed` up to rounding unless the keys cancel |
| ForestControls.ApplyCollisions | js/geral/controls.js:230-259 | on the road (z > 40), x is clamped into [minX, maxX] (set to minX below it and to maxX above it) and z capped at maxZ (set to maxZ above it), with in-range values kept; off the road, x is kept, and inside the path (\|x\| < 1.5) z below minZ is set to minZ, while outside the path z is pushed back to 40; y is untouched |
| ForestControls.ApplyCollisionsIdempotent | js/geral/controls.js:230-259 | under coherent limits the collision rule leaves a position it produced where it is |
| ForestControls.Walk | js/geral/controls.js:204-218 | with no key held, the camera stays where it was |
| ForestControls.WalkLength | js/geral/controls.js:206-218 | on orthonormal camera axes, a frame's walk covers at most `speed × delta`, and, unless the held keys cancel, at least that up to the rounding of the diagonal: the diagonal is normalised, not faster |
| ForestControls.WalkDisplacement | js/geral/controls.js:207-218 | the walk moves the camera by the negated heading times the speed, laid along the camera's local x and z axes |
| ForestControls.ForwardFollowsView | js/geral/controls.js:207-215 | forward alone moves the camera one step along its local -z axis, the direction it looks |
| ForestControls.LeftFollowsView | js/geral/controls.js:207-218 | left alone moves the camera one step along its local -x axis, to its left |
| ForestControls.Settle | js/geral/controls.js:220-224 | the end-of-frame position is at eye height and has the horizontal coordinates of the collision rule when limits are set, or the walked ones when none are |
| ForestControls.StartLook | js/geral/controls.js:149-158 | a touch start never turns the view |
| ForestControls.StartLookKeepsCapture | js/geral/controls.js:152 | a captured look touch is not replaced by later touch starts |
| ForestControls.StartLookNeedsRightHalf | js/geral/controls.js:152 | touches that all start in the left half change nothing |
| ForestControls.StartLookCapturesFirst | js/geral/controls.js:151-157 | with the slot free, the first right-half touch of the list is captured, with its point as the last look point |
| ForestControls.MoveLook | js/geral/controls.js:160-177 | a touch move keeps the captured touch and keeps the pitch inside [-π/2, π/2] |
| ForestControls.MoveLookIgnoresOthers | js/geral/controls.js:163 | moves of touches other than the captured one leave the look untouched |
| ForestControls.MoveLookTracksLatest | js/geral/controls.js:164-168 | after a move, the last look point is the latest point of the captured touch |
| ForestControls.EndLook | js/geral/controls.js:179-186 | a touch end either keeps the captured touch id or frees the slot, never anything else; EndLookFreesOwnTouch says which |
| ForestControls.EndLookFreesOwnTouch | js/geral/controls.js:179-186 | the look slot is freed exactly when the captured touch is among the ended ones, and otherwise kept |
| ForestControls.PlayerControls.constructor | js/geral/controls.js:17-53 | the controls start with no flags, zero angles, world 1, no limits and no captured touch; the sensitivity is the mobile or the desktop speed by device |
| ForestControls.PlayerControls.OnDpad | js/geral/controls.js:101-111 | a D-pad touchstart holds its direction and a touchend releases it |
| ForestControls.PlayerControls.OnKeyDown | js/geral/controls.js:117-125 | direction keys set their flag; the interact callback runs exactly for KeyE, which moves nothing |
| ForestControls.PlayerControls.OnKeyUp | js/geral/controls.js:127-134 | direction keys clear their flag; other keys change nothing |
| ForestControls.PlayerControls.OnMouseMove | js/geral/controls.js:136-147 | without pointer lock nothing turns; under lock, yaw and pitch turn against the movement by the sensitivity, the pitch clamped, and the camera rotation matches them |
| ForestControls.PlayerControls.OnMobileTouchStart | js/geral/controls.js:149-158 | the look state after the handler is the touch-start fold over the changed touches, split at half the window width |
| ForestControls.PlayerControls.TouchMoveStep | js/geral/controls.js:163-175 | one iteration of the move loop performs one step of the touch-move fold and keeps the rotation in sync |
| ForestControls.PlayerControls.OnMobileTouchMove | js/geral/controls.js:160-177 | the look state after the handler is the touch-move fold over the changed touches |
| ForestControls.PlayerControls.OnMobileTouchEnd | js/geral/controls.js:179-186 | the captured touch id after the handler is the touch-end fold over the changed touches |
| ForestControls.PlayerControls.SetWorld | js/geral/controls.js:193-196 | records the world id and its collision limits |
| ForestControls.PlayerControls.ResetRotation | js/geral/controls.js:198-202 | the view returns to zero pitch and yaw |
| ForestControls.PlayerControls.Update | js/geral/controls.js:204-225 | the new position is the walked one, by speed × delta, settled by the collisions; it ends at eye height |
| ForestInteraction.FirstQualifying | js/geral/interaction.js:71-90 | the index of the first interactive hit within 3 m: every earlier hit is rejected, and the index is the length when none qualifies |
| ForestInteraction.TargetNoneIff | js/geral/interaction.js:68-94 | there is no target exactly when no hit is interactive and within reach |
| ForestInteraction.TargetSkipsRejected | js/geral/interaction.js:75-78 | a rejected hit in front does not hide an acceptable one behind it |
| ForestInteraction.ReachIsInclusive | js/geral/interaction.js:78 | an interactive object exactly 3 m away is accepted |
| ForestInteraction.FirstIsIndex | js/geral/interaction.js:71-88 | an accepted hit with only rejected hits before it is the one the loop stops at |
| ForestInteraction.InteractionHandler.constructor | js/geral/interaction.js:19-35 | the handler starts with no target |
| ForestInteraction.InteractionHandler.Update | js/geral/interaction.js:58-98 | the target is the first interactive hit within reach, and none when there is none; a target is interactive, among the hits and within reach |
| ForestInteraction.InteractionHandler.TriggerInteraction | js/geral/interaction.js:41-51 | the callback receives the target's user data exactly when there is a target |
| ForestScene.WorldLimitsCoherent | js/floresta/cenaFloresta.js:223-228 | the world limits are coherent, so the collision rule is idempotent under them for every position |
| ForestScene.LoopTriggerUnreachable | js/floresta/cenaFloresta.js:206-227 | as written, every position the collision rule produces under the world limits lies before the loop trigger box, so it is never inside it |
| ForestScene.LoopTriggerReachable | js/floresta/cenaFloresta.js:206-227 | with the road's far end at z = 79, walking past the end of the road at eye height stops inside the loop trigger, under coherent limits |
| ForestScene.TreeX | js/floresta/cenaFloresta.js:107-110 | a tree's x is drawn over [-25, 25) and never falls inside the path strip (-3, 3) |
| ForestScene.TreeZ | js/floresta/cenaFloresta.js:111 | a tree's z is drawn over [10, 50) |
| ForestScene.Forest | js/floresta/cenaFloresta.js:105-119 | the trees the loop keeps for a list of draws: at most one per draw, each at height 4, off the path, away from the road edge and within the draw ranges |
| ForestScene.PlaceTrees | js/floresta/cenaFloresta.js:105-119 | over its 80 draws the tree loop places at most 80 trees, each at height 4, off the path, away from the road edge and within the draw ranges |
| ForestScene.Ghost.constructor | js/floresta/cenaFloresta.js:190-200 | a ghost starts fully transparent at its position |
| ForestScene.ForestSceneBuilder.constructor | js/floresta/cenaFloresta.js:16-27 | the builder starts with no ghosts |
| ForestScene.ForestSceneBuilder.CreateWorld1 | js/floresta/cenaFloresta.js:33-231 | builds the two ghosts invisible at their places, and returns the world limits, the loop and ghost trigger zones, the door and its hitbox, and the placed trees |
| ForestScene.ForestSceneBuilder.ShowGhosts | js/floresta/cenaFloresta.js:234-248 | when both ghosts exist they become fully visible and the fade-out is scheduled; otherwise nothing changes |
| ForestScene.ForestSceneBuilder.HideGhosts | js/floresta/cenaFloresta.js:242-246 | the scheduled fade-out makes both ghosts transparent again |
| ForestApp.ZoneStep | js/geral/main.js:192-207 | one zone: a camera outside it changes nothing; the loop count grows by at most one; the ghost flag once set stays set and is only set with two loops or more; the camera moves only when a loop is counted |
| ForestApp.TriggerPass | js/geral/main.js:184-209 | one pass over the zones never lowers the loop count and raises it by at most one per zone; the ghost flag, once set, stays set, and it is only set with at least two loops |
| ForestApp.LoopTeleports | js/geral/main.js:197-200 | entering the loop trigger sends the camera to (0, eye height, 50) and counts exactly one loop |
| ForestApp.TeleportSeenByLaterZones | js/geral/main.js:188-208 | zones test the live position: after a teleport, the ghost trigger sees the waypoint, which lies outside it |
| ForestApp.GhostFiresOnce | js/geral/main.js:203-205 | the ghost flag is set after the ghost zone exactly when it was set before, or when the camera is inside with two loops or more |
| ForestApp.NoLoopUnderWorldLimits | js/geral/main.js:190-205 | as written, after the collision rule a trigger pass never counts a loop, and with fewer than two loops it leaves the ghost flag as it was, so a gate that was shut stays shut |
| ForestApp.PassKeepsPosition | js/geral/main.js:190-208 | a pass that counts no loop leaves the camera where it was |
| ForestApp.SungApp.constructor | js/geral/main.js:19-69 | the app starts unloaded and not transitioning, with zero loops, no ghost event, no controls and the fixed settings |
| ForestApp.SungApp.StartExperience | js/geral/main.js:122-159 | after loading, the world's zones are installed; the fresh controls sit at the start with the world limits, no keys, zero pitch, yaw and rotation, no look touch and the device's sensitivity; both ghosts stand at their places with opacity 0; the handler has no target; the frame gate opens; the loop count, the ghost flag and the transition flag are kept |
| ForestApp.SungApp.CheckWorldTriggers | js/geral/main.js:184-209 | without controls or while transitioning nothing changes; otherwise position, loop count and ghost flag are the trigger pass over the zones, and the ghosts show exactly when this pass set the flag |
| ForestApp.SungApp.CheckZone | js/geral/main.js:192-207 | one iteration of the trigger loop is one zone step of the pass |
| ForestApp.SungApp.TriggerGhostEvent | js/geral/main.js:212-222 | the ghost event makes both ghosts visible |
| ForestApp.SungApp.Animate | js/geral/main.js:168-181 | a frame renders exactly when loaded and not transitioning, and otherwise changes nothing it may touch (loop count, ghost flag, camera position, target, ghosts); a rendered frame probes the target first, then walks and settles the camera by the flags and limits it started with, then runs the trigger pass on the walked position; the ghosts become visible when that pass sets the ghost flag and are untouched otherwise |
| ForestApp.SungApp.HandleInteraction | js/geral/main.js:232-239 | only the gothic door starts the game end; anything else leaves it as it was |
| ForestApp.SungApp.TriggerGameEnd | js/geral/main.js:245-268 | after the call the game is transitioning, which freezes the frame loop for good |
| ForestApp.SungApp.Interact | js/geral/main.js:143-145 | activating while the door is targeted ends the game; with no target, or another one, nothing changes |
| GalleryControls.NdcInSquare | js/controls.js:171-172 | every window point maps into [-1, 1]², and the window centre maps to the origin |
| GalleryControls.StickPasses | js/controls.js:265-278 | a direction passes the 0.3 threshold only for a drag towards that side; StickDeadZone, StickDownIsForward and StickUpIsBackward state the thresholds |
| GalleryControls.StickFlags | js/controls.js:257-281 | a joystick drag never sets two opposite flags |
| GalleryControls.StickDeadZone | js/controls.js:265-278 | a drag of at most 15 px (0.3 of the 50 px radius) sets no flag |
| GalleryControls.StickDownIsForward | js/controls.js:257-281 | a drag straight down by more than 15 px sets forward and nothing else |
| GalleryControls.StickUpIsBackward | js/controls.js:257-281 | a drag straight up by more than 15 px sets backward and nothing else |
| GalleryControls.StickUpFollowsView | js/controls.js:272-358 | as written, pushing the stick up walks a full step along the camera's local -z axis, the way it looks |
| GalleryControls.StickRightGoesLeft | js/controls.js:272-358 | as written, pushing the stick right sets right alone, which walks a full step along the local -x axis, to the left |
| GalleryControls.Start | js/controls.js:215-249 | a touch start changes neither the flags nor the view nor the tutorial flags; an active slot keeps its touch; the slot invariant and "walks only while the stick is held" are preserved |
| GalleryControls.StartClaimsFirstLeft | js/controls.js:228-236 | with the joystick free, the first left-half touch claims it, with its point as origin |
| GalleryControls.StartLeavesJoystick | js/controls.js:228-236 | touches that all start in the right half leave the joystick alone |
| GalleryControls.StartClaimsFirstRight | js/controls.js:242-247 | with the camera drag free, the first right-half touch claims it, with its point as origin |
| GalleryControls.StartLeavesDrag | js/controls.js:242-247 | touches that all start in the left half leave the camera drag alone |
| GalleryControls.StartRecordsLastTouch | js/controls.js:222-225 | the recorded last touch is the normalised point of the last touch in the list |
| GalleryControls.StickStep | js/controls.js:256-282 | the joystick half of a touch move leaves the camera drag, the view and the look flag alone |
| GalleryControls.DragStep | js/controls.js:285-301 | the drag half of a touch move leaves the joystick, the flags and the move flag alone |
| GalleryControls.Move | js/controls.js:251-303 | a touch move keeps the pitch in range, keeps both slots' touches and the last touch, and never moves or turns through an inactive slot |
| GalleryControls.MoveSetsStick | js/controls.js:256-281 | the flags are those of the joystick touch's latest point, measured from the joystick's origin, and the move counts for the tutorial |
| GalleryControls.MoveYawFollowsDrag | js/controls.js:285-298 | the yaw turns by the whole horizontal distance the drag origin travelled, at 0.005 rad/px against the drag, however the moves are split |
| GalleryControls.MoveDragTracksLatest | js/controls.js:296-300 | the drag origin ends at the latest point of the drag's touch, and the look counts for the tutorial |
| GalleryControls.MoveTurnsByDrag | js/controls.js:285-300 | one move of the drag's touch turns yaw and pitch against its distance from the origin, clamps the pitch, moves the origin there and records the look |
| GalleryControls.End | js/controls.js:305-324 | a touch end keeps the slots' touch ids, the view and the tutorial flags, and preserves the slot invariant and "walks only while the stick is held" |
| GalleryControls.EndReleasesJoystick | js/controls.js:305-316 | the joystick is released and all movement stops exactly when its touch ended; otherwise joystick and flags are kept |
| GalleryControls.EndReleasesDrag | js/controls.js:317-322 | the camera drag is released exactly when its touch ended, and otherwise kept |
| GalleryControls.GalleryWalk | js/controls.js:342-358 | with no key held the camera does not move |
| GalleryControls.GalleryWalkLength | js/controls.js:342-358 | on orthonormal camera axes, a frame's walk covers at most `speed`, and, unless the held keys cancel, at least that up to the rounding of the diagonal: the diagonal is normalised, not faster |
| GalleryControls.GalleryWalkDisplacement | js/controls.js:342-358 | the walk moves the camera by the heading times the speed, laid along the camera's local x and z axes |
| GalleryControls.Corridor | js/controls.js:362-374 | the clamped position lies in x ∈ [-2.5, 2.5] and z ∈ [-18, 10]; positions inside are kept, and those outside go to the nearer wall |
| GalleryControls.ClampToCorridor | js/controls.js:362-374 | the four wall checks of `update`, in their order, give the corridor clamp |
| GalleryControls.CorridorIdempotent | js/controls.js:362-374 | clamping twice is clamping once |
| GalleryControls.Step | js/controls.js:332-378 | after an accepted frame the camera is at eye height inside the corridor |
| GalleryControls.StillStays | js/controls.js:332-378 | standing still inside the corridor, a frame moves nothing |
| GalleryControls.ForwardBacksAway | js/controls.js:342-358 | as written, forward at the entrance is stopped by the entrance clamp while backward walks into the corridor |
| GalleryControls.LeftGoesRight | js/controls.js:342-358 | as written, left moves the camera along its local +x axis, to its right |
| GalleryControls.IntendedWalk | js/controls.js:342-358 | corrected walk: with no key held the camera does not move |
| GalleryControls.IntendedStickFlags | js/controls.js:272-279 | corrected stick: it never sets two opposite flags |
| GalleryControls.IntendedStep | js/controls.js:342-378 | corrected frame: the camera ends at eye height inside the corridor |
| GalleryControls.IntendedFollowsView | js/controls.js:342-358 | corrected, forward walks a full step along the local -z axis, the way the camera looks, and left along -x, to its left |
| GalleryControls.IntendedForwardEnters | js/controls.js:342-374 | corrected, forward at the entrance walks into the corridor |
| GalleryControls.IntendedStickRightGoesRight | js/controls.js:272-358 | corrected, pushing the stick right walks to the right |
| GalleryControls.IntendedKeepsStickVertical | js/controls.js:272-358 | the correction keeps the stick's vertical axis as it already behaves: every vertical drag moves the camera exactly where the written code does |
| GalleryControls.ControlsManager.constructor | js/controls.js:22-96 | the controls start with free slots, no flags, zero angles, no lock and no tutorial progress |
| GalleryControls.ControlsManager.OnKeyDown | js/controls.js:126-146 | a direction key sets its flag, and any key counts as having moved |
| GalleryControls.ControlsManager.OnKeyUp | js/controls.js:148-167 | a direction key clears its flag |
| GalleryControls.ControlsManager.OnMouseMove | js/controls.js:169-196 | the mouse position is always recorded in normalised coordinates; without lock nothing turns; under lock the view turns by 0.002 rad/px with the pitch clamped, and the look step counts as done |
| GalleryControls.ControlsManager.OnPointerLockChange | js/controls.js:198-204 | the controls count as locked exactly when the canvas holds the lock |
| GalleryControls.ControlsManager.OnMouseDown | js/controls.js:207-211 | the click point is recorded in normalised coordinates |
| GalleryControls.ControlsManager.OnTouchStart | js/controls.js:215-249 | the touch state after the handler is the touch-start fold, and the invariants hold |
| GalleryControls.ControlsManager.TouchMoveStep | js/controls.js:254-302 | one iteration of the move loop is one step of the touch-move fold |
| GalleryControls.ControlsManager.OnTouchMove | js/controls.js:251-303 | the touch state after the handler is the touch-move fold, and the invariants hold |
| GalleryControls.ControlsManager.OnTouchEnd | js/controls.js:305-324 | the touch state after the handler is the touch-end fold, and the invariants hold |
| GalleryControls.ControlsManager.Update | js/controls.js:332-378 | a frame longer than 0.1 s moves nothing; otherwise the camera ends where one corridor step puts it |
| GalleryControls.ControlsManager.LockPointer | js/controls.js:382-386 | the lock is requested exactly on desktop |
| GalleryControls.ControlsManager.UnlockPointer | js/controls.js:388-392 | the lock is released exactly on desktop |
| GalleryScene.Layout | js/scene.js:300-346 | one plaque per artwork in list order: the i-th carries the i-th artwork's id and the plaque type, at height 0.9, x = ∓2.9 by parity and z = 8 − 4i |
| GalleryScene.LayoutAlternates | js/scene.js:311-314 | neighbouring plaques hang on opposite walls 4 m apart, and each carries its artwork's id |
| GalleryScene.DistSq | js/scene.js:395-411 | a squared distance is never negative |
| GalleryScene.CheckInteraction | js/scene.js:462-481 | the ray finds nothing exactly when no hit lies within 3.5 m; otherwise it returns the user data of the first hit within reach |
| GalleryScene.NearestDecides | js/scene.js:462-481 | on hits sorted nearest first, something is found exactly when the nearest hit is within reach |
| GalleryScene.SceneManager.constructor | js/scene.js:29-61 | the scene starts with no clickable objects, full volume and no ambient sound |
| GalleryScene.SceneManager.PlaceArtworks | js/scene.js:300-346 | the layout's plaques are appended to the clickable objects |
| GalleryScene.SceneManager.FindNearestPlaque | js/scene.js:395-411 | nothing is returned exactly when every plaque is 5 m away or more; otherwise it is the first plaque at the least distance, under 5 m |
| GalleryScene.SceneManager.HasNearbyPlaque | js/main.js:279-281 | the query finds a plaque exactly when some plaque lies within 5 m of the camera |
| GalleryScene.SceneManager.SetMute | js/scene.js:439-454 | muting sets the volume to 0; unmuting sets it to 1 and starts a loaded ambient sound |
| GalleryText.FindFrom | js/main.js:457-458 | the match found is the first occurrence at or after the start, and none is found only when there is none |
| GalleryText.ReplaceFirst | js/main.js:457-458 | a string without the pattern is unchanged; otherwise exactly the first occurrence is replaced |
| GalleryText.ReplaceAfterPrefix | js/main.js:457-458 | when the pattern's first character is absent from the prefix, the occurrence after the prefix is the one replaced |
| GalleryText.Message | js/main.js:456-458 | the template with `{title}` replaced, then `{imageUrl}`; it carries no contract of its own, and MessageFillsSlots and TitleCanTakeImageSlot state what it gives |
| GalleryText.TemplateTextHasNoBrace | js/main.js:21 | the template's fixed text holds no '{', so only the slots can match a placeholder |
| GalleryText.MessageFillsSlots | js/main.js:456-458 | for a title without '{' the message is the template with the title and the image URL in their slots |
| GalleryText.TitleCanTakeImageSlot | js/main.js:457-458 | a title that is itself "{imageUrl}" takes the URL, and the real image slot stays unfilled |
| GalleryText.ImageUrl | js/main.js:453 | a present, non-empty image URL is used; otherwise the page URL |
| GalleryText.WhatsAppLink | js/main.js:451-465 | the wa.me link; it carries no contract of its own, and LinkCarriesMessage states its shape |
| GalleryText.LinkCarriesMessage | js/main.js:451-465 | the link is the wa.me prefix with the number, followed by the encoded filled-in message |
| GalleryText.ReplaceAllRemoves | js/main.js:391-395 | a global replace whose replacement lacks the character leaves none of it |
| GalleryText.ReplaceAllKeeps | js/main.js:391-395 | a global replace of an absent character changes nothing |
| GalleryText.ReplaceAllAppend | js/main.js:391-395 | a global replace distributes over concatenation |
| GalleryText.DescriptionHtml | js/main.js:390-395 | the chain of five global replaces; it carries no contract of its own, and DescriptionIsMarkup and NoRawNewline state what it gives |
| GalleryText.DescriptionAppend | js/main.js:390-395 | the chain of five replaces distributes over concatenation |
| GalleryText.ReplaceAllOne | js/main.js:391-395 | on a single character a replace gives the replacement or the character |
| GalleryText.DescriptionOfChar | js/main.js:390-395 | on a single character the chain gives its markup: the four symbols wrapped in a span, a newline as a break, anything else as is |
| GalleryText.DescriptionIsMarkup | js/main.js:390-395 | the chain of replaces equals the character-by-character markup, so the spans it inserts are never rewritten |
| GalleryText.NoRawNewline | js/main.js:395 | no raw newline survives the description markup |
| GalleryApp.MutedFromStorage | js/main.js:41 | a missing entry, or the text "false", reads as unmuted; MuteStorageRoundTrip gives the round trip |
| GalleryApp.MuteStorageRoundTrip | js/main.js:348-357 | the stored mute state is read back as the same state |
| GalleryApp.TutorialAdvance | js/main.js:266-290 | the step stays, or becomes 2 or 3, and never goes back; from step 1 it advances exactly when the visitor has moved, from step 2 it reaches 3 exactly when they have looked, and a frame with both goes from 1 to 3 |
| GalleryApp.TutorialAdvanceSettles | js/main.js:266-290 | a frame takes every step it can: advancing again with the same flags changes nothing |
| GalleryApp.FindArt | js/main.js:380 | nothing is found exactly when no artwork has the id; otherwise it is the first artwork with that id |
| GalleryApp.PanelRequests | js/main.js:411-424 | as written: none on mobile; on desktop the lock is released exactly when there are controls and asked for again exactly when the panel ends the tutorial, release first |
| GalleryApp.PanelRequestsIntended | js/main.js:414-416 | intended: never a lock request; the lock is released exactly on desktop with controls |
| GalleryApp.PanelEndingTutorialRelocks | js/main.js:411-424 | as written, on desktop a panel opened at tutorial step 3 releases the lock and then asks for it again, so the lock is held at the end |
| GalleryApp.PanelIntendedLeavesUnlocked | js/main.js:414-416 | with the intended requests, an open panel on desktop never holds the pointer lock |
| GalleryApp.AimAsWritten | js/main.js:319-343 | as written, a tap aims at the last touch, the E key at the centre, and a desktop click throws |
| GalleryApp.DesktopClickThrows | js/main.js:328 | as written, every desktop click throws before reaching the raycaster, locked or not |
| GalleryApp.AimIntended | js/main.js:322-333 | intended aim: the last touch for a tap, the mouse for an unlocked desktop click, the centre otherwise |
| GalleryApp.AimIntendedExtends | js/main.js:322-333 | wherever the written aim does not throw, the intended aim agrees with it |
| GalleryApp.IsInteractKey | js/main.js:128 | only the one-letter keys e and E interact, so Escape never does |
| GalleryApp.App.constructor | js/main.js:32-45 | windows up to 768 px are mobile; the mute state comes from storage; there is no scene, no controls, no open panel and no tutorial |
| GalleryApp.App.StartExperience | js/main.js:149-199 | the artworks are loaded, or none on a failed fetch; the fresh scene carries their plaques, the mute state, volume 1 and no ambient sound; the fresh controls have the camera at the entrance, free joystick and drag, no keys, zero pitch and yaw, no lock and no progress; the tutorial starts at step 1 with the move tip, or else the step and tip are kept and on desktop the lock is requested; the panel, the mute state and the stored value are kept |
| GalleryApp.App.StartTutorial | js/main.js:253-261 | step 1 with the move tooltip shown |
| GalleryApp.App.EndTutorial | js/main.js:303-311 | the tutorial ends, its tooltip is hidden, and on desktop the lock is requested |
| GalleryApp.App.AdvanceToLook | js/main.js:266-273 | from step 1 with the moved flag set the step becomes 2 and the look tip is shown; otherwise step and tip are kept |
| GalleryApp.App.AdvanceToPlaque | js/main.js:275-288 | from step 2 with the looked flag set the step becomes 3, and the plaque tip is shown exactly when a plaque lies within 5 m of the camera; otherwise step and tip are kept |
| GalleryApp.App.AdvanceTutorial | js/main.js:266-288 | the two checks together take the step to `TutorialAdvance` of the old step and the flags, with the look tip on leaving step 1 and the plaque tip on reaching step 3 near a plaque |
| GalleryApp.App.UpdateTutorial | js/main.js:266-296 | the step advances by the controls' moved and looked flags; reaching step 2 from step 1 shows the look tip; reaching step 3 shows the plaque tip when some plaque is within 5 m and otherwise keeps the tip; at step 3 with the panel open the tutorial ends and the tip is hidden, with a lock request on desktop; the tip is kept otherwise |
| GalleryApp.App.RenderFrame | js/main.js:222-248 | each frame moves the camera by one corridor step (none for frames over 0.1 s); inside the tutorial it then performs one tutorial update, tips and the ending at step 3 included, judged from the moved camera; outside it the step, the tip and the requests are as they were |
| GalleryApp.App.OpenDetailPanel | js/main.js:378-425 | an unknown id issues no request and keeps the panel, the tutorial and the tooltip; a known one fills the panel from the first artwork with that id, opens it and issues the written pointer requests, ending the tutorial and hiding its tooltip at step 3 |
| GalleryApp.App.ReleaseForPanel | js/main.js:414-424 | the lock and unlock calls of an opened panel are the written ones, and at step 3 the tutorial ends and its tooltip is hidden |
| GalleryApp.App.CloseDetailPanel | js/main.js:430-444 | the panel closes, and on desktop outside the tutorial the lock is requested |
| GalleryApp.App.TryToInteract | js/main.js:319-343 | without scene or controls, or when a desktop click throws, no request is issued and panel, tutorial and tooltip are kept; otherwise a plaque hit with a known artwork opens its panel with the written requests, and anything else keeps them |
| GalleryApp.App.ToggleMute | js/main.js:348-357 | the mute state flips, is stored so that it reads back as the same state, and reaches the scene: its mute state and volume follow, a loaded ambient sound plays after unmuting, and nothing else of the scene changes |
| GalleryApp.App.OnKeyDown | js/main.js:121-131 | Escape closes an open panel, asking for the lock on desktop outside the tutorial; E with the panel open does nothing; E with it closed interacts at the screen centre, opening the panel of a plaque hit with a known artwork, and never throws; other keys change nothing |
| GalleryApp.App.OnMouseDown | js/main.js:135-142 | with the panel open, or off the scene, nothing happens; otherwise it is a click interaction, which throws exactly on desktop with scene and controls present; a tap interacts at the last touch |

## Left out

- Rendering, lights, fog, textures, models, sprites, CSS and DOM styling, the loading screens and the fade transitions. They change no state the logic reads.
- Sounds. The gallery's `loadSounds` call is commented out, and the forest's audio cues are placeholders. Only the mute flag, the volume and whether a loaded ambient sound plays are modelled.
- Timers (`setTimeout`, `requestAnimationFrame`). The ghost fade-out is the separate method `HideGhosts` with its delay as a constant, and the render loop is one frame per call.
- The forest loader (`js/geral/loader.js`) and the texture loading. `js/geral/loader.js` is not part of this model.
- GalleryApp.App.StartExperience: re-entry is not modelled. The landing buttons stay clickable during the 500 ms fade (js/main.js:113-114), so a second click could build a second scene and a second set of controls; the model requires that none exists yet.
- GalleryApp.App.StartExperience: an exception thrown while the scene initialises is left out. Only a failed artwork fetch is modelled, as an empty list.
- Floating point. Everything is exact real arithmetic:
  - `Vector3.normalize` of a diagonal is the constant 0.7071067811865475, the double that 1 divided by the double nearest √2 gives;
  - the joystick's square root and `atan2` are replaced by the equivalent comparison of squares;
  - `findNearestPlaque` compares squared distances, which order the same as distances.
- GalleryControls.ControlsManager.OnMouseMove, and likewise the touch-drag look: the Euler ↔ quaternion round trip is taken as exact, and yaw is never wrapped to (-π, π].
- The raycaster geometry. The hits of a ray are an input: a list for the forest handler, and a function `hitsAt` from the aim point for the gallery.
- `encodeURIComponent` is the parameter `encode` and `window.location.href` the parameter `pageUrl`.
- GalleryText.ReplaceFirst: the `$` patterns that `String.replace` gives special meaning in a replacement string are not interpreted.
- Window width and height are taken to be positive (`Ndc` requires it). The desktop handlers require desktop mode and the touch handlers mobile mode, because `init` and `initListeners` register each set only in its mode.
- GalleryApp.IsInteractKey: `toLowerCase` is modelled only for the letters e and E.
- ForestScene.PlaceTrees: `Math.random` becomes 80 input draws, each in [0, 1).
- ForestApp.SungApp.Animate: the camera's local axes are inputs, and `clock.getDelta` is the `delta` parameter.
- GalleryControls.ControlsManager.Update: the camera's local axes are inputs (`axisX`, `axisZ`), not derived from the pitch and yaw.
- GalleryApp.App.RenderFrame: the camera's local axes are inputs passed on to the controls' update, not derived from the pitch and yaw.
- ForestControls.PlayerControls.OnMouseMove: the listener bookkeeping of `initPointerLock` (js/geral/controls.js:73-78) is left out. Each lock adds a new `this.onMouseMove.bind(this)` listener, and the removal on unlock passes another fresh bound function, so it removes nothing. Listeners pile up, and after n locks one mouse event turns the view n times. The model keeps one listener, gated by the lock flag.
- `onWindowResize`, the cookie banner, the landing screen, `loadArtData`'s fetch and the `file:` protocol warning are left out. They are DOM and network work with no state the model reads.

## Findings

| source | as written | input that shows it | evidently intended | confidence | as-written member | corrected member |
|---|---|---|---|---|---|---|
| js/floresta/cenaFloresta.js:207-209, js/floresta/cenaFloresta.js:227, js/geral/controls.js:242 | the collision rule caps z at maxZ = 78, but the loop trigger box spans z from 78.5 to 79.5, so the loop never fires and the ghost event, which needs two loops, never fires either | walk backwards along the road from (0, 1.6, 70) for any time: z stops at 78 | the road's far end reaches into the trigger (maxZ = 79) | not executed; high | ForestScene.LoopTriggerUnreachable, ForestApp.NoLoopUnderWorldLimits | ForestScene.LoopTriggerReachable |
| js/main.js:328, js/controls.js:71, js/controls.js:395-397 | the constructor's field `isPointerLocked` hides the method of the same name, so `controlsManager.isPointerLocked()` throws a TypeError on every desktop click | a desktop mouse press on the scene with no panel open | the click reads the lock state and aims at the mouse when unlocked | not executed; high | GalleryApp.AimAsWritten, GalleryApp.DesktopClickThrows | GalleryApp.AimIntended, GalleryApp.AimIntendedExtends |
| js/controls.js:342-358, js/controls.js:276-279, js/scene.js:141 | forward sets +z and left +x in camera space, while the camera looks along -z: W moves away from the view, A to the right, and the joystick pushed right walks left. The stick's vertical axis is already right, because pushing it up sets backward, which walks along -z | at the entrance (0, 1.6, 10), facing down the corridor, hold W: the clamp keeps z at 10; hold S: z drops below 10 | both translations negated, as the forest revision's update does, so forward follows the view and left goes left; the stick's vertical mapping flipped with them, so pushing up still walks forward | not executed; high | GalleryControls.ForwardBacksAway, GalleryControls.LeftGoesRight, GalleryControls.StickRightGoesLeft, GalleryControls.StickUpFollowsView | GalleryControls.IntendedWalk, GalleryControls.IntendedFollowsView, GalleryControls.IntendedForwardEnters, GalleryControls.IntendedStickRightGoesRight, GalleryControls.IntendedKeepsStickVertical |
| js/main.js:411-424, js/main.js:303-310 | opening the panel at tutorial step 3 on desktop releases the pointer lock and then `endTutorial` requests it again, so the panel is shown under pointer lock | desktop tutorial at step 3, press E on a plaque | release the lock while the panel is open; lock again on close | not executed; medium | GalleryApp.PanelRequests, GalleryApp.PanelEndingTutorialRelocks | GalleryApp.PanelRequestsIntended, GalleryApp.PanelIntendedLeavesUnlocked |
