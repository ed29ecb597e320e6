# Block placement and movement packets of a game client

This project models two parts of a client modification for a block-building game:

- **The interaction manager's block-placement pipeline.** It works in this order:
  1. choose which face of a neighbouring block to click;
  2. build the hit result at the centre of that face;
  3. open the slot-spoof bracket (switch the server slot when the requested slot differs, sync it back afterwards);
  4. open the rotation-callback bracket (call the callback before and after the placement);
  5. place the block, either through the engine's `interactBlock` or as a bare interact packet;
  6. swing the hand, locally or as a packet.
- **The client player's `sendMovementPackets` hook**, which runs once per tick and replaces the engine's method. It does the following, in order:
  1. dispatches a PRE event;
  2. cancels the engine's method and sends the sprint packet;
  3. sends a shift-key packet when the sneaking state changed;
  4. when the player is the camera entity, sends at most one movement packet chosen by a fixed priority chain, and updates the "last sent" fields and the ticks-since-last-position counter;
  5. dispatches a POST event.

Everything either part does to the outside world is an ordered trace in the model:
- `Interaction.Effect` holds slot switch, rotation callback, interact call or packet, swing and slot sync.
- `Movement.Output` holds event dispatch, cancellation, sprint packet, shift packet and the four movement packets.

Each part has two layers:
- **Specification functions** map the inputs to the trace and to the new state: `PlacementAt`, `PlacementOn`, `PlacementHit`, `Immediate`, `Tick`.
- **Classes** keep the state that the code updates in place: `Interaction.InteractionManager` and `Movement.ClientPlayer`. Their methods follow the code statement by statement. Each method's `ensures` ties the new trace and state to the specification function.

The properties the code promises are proved as lemmas about those functions.

Modules:
- `Geometry` (`geometry.dfy`): directions, block offsets, face hit points.
- `Interaction` (`interaction.dfy`): the placement pipeline.
- `Movement` (`movement.dfy`): the movement hook.

Modelling choices:
- **One chain with a mode.** The engine chain (`placeBlock` overloads) and the packet chain (`placeBlockPacket` overloads) are one chain, parameterised by `Mode` (`Local` or `PacketOnly`). The two differ in exactly two ways, and both are kept:
  - The reference slot for spoofing is the inventory manager's server slot in the engine chain and the client inventory's selected slot in the packet chain (`ReferenceSlot`).
  - The placement is `interactBlock` in the engine chain and, in the packet chain, a sequenced interact packet with an `ActionResult.SUCCESS` result (`EngineResult`, `PlaceCall`).
- **The rotation callback** is the flag `rotating`, which says whether the callback is non-null. Each call records the hit point it aims at.
- **Engine answers are inputs.** The world, the anti-cheat-safe face set, the AIR_PLACE flag, both slot readings and the engine's answer to `interactBlock` are fields of `Env`.
- **Two readings of the player.** The hook reads the player twice:
  - once to fill the event (`MovementPacketsEvent`, before the PRE dispatch);
  - once for everything after it (`Sample`).

  The two readings are separate inputs, because a PRE listener may move or rotate the player in between.
- **Java `int`.** `ticksSinceLastPositionPacketSent` is the 32-bit `int32`, and `++` wraps at the top (`Increment`).
- **Reals.** Coordinates and angles are reals. The hook subtracts them, squares and sums the position deltas, and compares the results.
- **Split hook.** The hook body is split into `SendMovementPackets`, `SendCameraPackets` (the `isCamera()` block), `SendMovePacket` (the packet chain) and `Remember` (the field updates at the end of the block). The effects and their order are unchanged. The one reordered statement is `bl2 = false` in the vehicle branch: it moves to after the packet chain, where it still comes before `if (bl2)`, the only read of `bl2` that the vehicle path reaches.

Where the code is weaker than it looks:
- **The slot sync is not guaranteed.** The sync is a plain statement after the placement, not in a `finally`. An exception thrown in between would skip it and leave the server slot switched. The model follows the code (see "Left out").
- **The PRE event is never read back.** After the PRE dispatch, the hook reads neither the event's fields nor its cancelled flag. It cancels the engine's method unconditionally and builds the packets from the player's own state. A listener that changes or cancels the event object therefore changes nothing that is sent. A listener that moves or rotates the player does change what is sent, through `Sample`.

## Model

| member | source | states |
|---|---|---|
| Geometry.OffsetOppositeRoundTrip | src/main/java/net/shoreline/client/impl/manager/player/interaction/InteractionManager.java:53 | stepping across the opposite face and back across `d` returns to the target, in both directions, so the chosen neighbour really touches the target through face `d` |
| Geometry.HitVecOnSharedFace | src/main/java/net/shoreline/client/impl/manager/player/interaction/InteractionManager.java:83 | the hit point `centre + 0.5·unit(d)` is the centre of the face shared with the neighbour across `d`: the midpoint of the two block centres, inside both blocks, at `2·p + 1 + unit(d)` in half-block units |
| Geometry.Index | src/main/java/net/shoreline/client/impl/manager/player/interaction/InteractionManager.java:246 | every direction has a position in the search order `Direction.values()` |
| Geometry.ValuesDistinct | src/main/java/net/shoreline/client/impl/manager/player/interaction/InteractionManager.java:246 | no direction appears twice in the search order |
| Geometry.Opposite | src/main/java/net/shoreline/client/impl/manager/player/interaction/InteractionManager.java:253 | the opposite of a direction is a different direction whose unit step is the negated unit step, i.e. the other face on the same axis |
| Geometry.OppositeInvolutive | src/main/java/net/shoreline/client/impl/manager/player/interaction/InteractionManager.java:264 | taking the opposite twice gives back the direction found by the search |
| Interaction.FirstQualifying | src/main/java/net/shoreline/client/impl/manager/player/interaction/InteractionManager.java:246-259 | the first-match loop: the index found qualifies (solid, fluid-free neighbour, and in strict mode the touching face is anti-cheat-safe), no earlier index qualifies, and none is found only when no index qualifies |
| Interaction.InteractDirection | src/main/java/net/shoreline/client/impl/manager/player/interaction/InteractionManager.java:242-265 | null exactly when no face qualifies (both directions); otherwise the result is the opposite of a qualifying face, and no face before that one in `values()` order qualifies |
| Interaction.InteractDirectionSound | src/main/java/net/shoreline/client/impl/manager/player/interaction/InteractionManager.java:248-257 | a returned face is backed, on the other side, by a block that is not air and holds no fluid; in strict mode the returned face is itself in the anti-cheat set |
| Interaction.InteractionManager.GetInteractDirection | src/main/java/net/shoreline/client/impl/manager/player/interaction/InteractionManager.java:242-265 | the loop with its two `continue`s and `break` returns exactly `InteractDirection` |
| Interaction.ResolvedSide | src/main/java/net/shoreline/client/impl/manager/player/interaction/InteractionManager.java:43-52 | no side exactly when no face qualifies and the AIR_PLACE fallback does not apply; with nothing to build against, AIR_PLACE on and strict mode off, the side is UP; whenever some face qualifies, the side is the search's first match: the opposite of a qualifying face with no qualifying face before it in `values()` order |
| Interaction.PlacementAtTarget | src/main/java/net/shoreline/client/impl/manager/player/interaction/InteractionManager.java:43-97 | with no side: result false and no effect at all; with side `d`: clicks face `d` of `pos.offset(d.getOpposite())`, a block that touches the target across `d`, at the centre of the shared face |
| Interaction.SlotBracket | src/main/java/net/shoreline/client/impl/manager/player/interaction/InteractionManager.java:104-129 | a slot switch and a slot sync each happen exactly once when the slot differs from the reference slot (server slot in the engine chain, selected slot in the packet chain, lines 139-140), and never otherwise; the switch to the requested slot is the first effect and the sync the last, whatever the placement's result |
| Interaction.RotationBracket | src/main/java/net/shoreline/client/impl/manager/player/interaction/InteractionManager.java:111-123 | with a callback, exactly one entering and one leaving call; without one, none; every callback call aims at the hit result's position |
| Interaction.PlacementCall | src/main/java/net/shoreline/client/impl/manager/player/interaction/InteractionManager.java:226-235 | the placement happens exactly once: one `interactBlock` call and no packet in the engine chain, one interact packet and no engine call in the packet chain, always for the given hit result |
| Interaction.PlacementCallHit | src/main/java/net/shoreline/client/impl/manager/player/interaction/InteractionManager.java:118 | every placement effect in the trace is the call for the hit result passed in |
| Interaction.SwingDecision | src/main/java/net/shoreline/client/impl/manager/player/interaction/InteractionManager.java:170-224 | the call returns the engine's `isAccepted()` (always true for a bare packet); an accepted result that asks for a swing gives exactly one local swing when `clientSwing` and exactly one swing packet otherwise; any other result gives no swing |
| Interaction.PlacementOrder | src/main/java/net/shoreline/client/impl/manager/player/interaction/InteractionManager.java:99-168 | the effects come in strictly increasing stage order: slot switch, rotation in, placement, swing, rotation out, slot sync, each at most once |
| Interaction.LocalSwingEndToEnd | src/main/java/net/shoreline/client/impl/manager/player/interaction/InteractionManager.java:37-55 | an engine placement with a local swing and no callback, which the engine accepts with a swing, returns true, swings locally once, sends no swing packet and calls no rotation callback |
| Interaction.InteractionManager.PlaceBlock | src/main/java/net/shoreline/client/impl/manager/player/interaction/InteractionManager.java:37-75 | the effects appended and the result are those of `PlacementAt` |
| Interaction.InteractionManager.PlaceBlockOn | src/main/java/net/shoreline/client/impl/manager/player/interaction/InteractionManager.java:77-97 | the effects appended and the result are those of `PlacementOn`, with the hit point at the centre of the clicked face |
| Interaction.InteractionManager.PlaceBlockHit | src/main/java/net/shoreline/client/impl/manager/player/interaction/InteractionManager.java:99-168 | the effects appended and the result are those of `PlacementHit`, the spec of which the bracket lemmas above describe |
| Interaction.InteractionManager.PlaceBlockImmediately | src/main/java/net/shoreline/client/impl/manager/player/interaction/InteractionManager.java:170-224 | the effects appended and the result are those of `Immediate` |
| Interaction.InteractionManager.InteractBlockLocally | src/main/java/net/shoreline/client/impl/manager/player/interaction/InteractionManager.java:226-229 | records one `interactBlock` call for the hit result and returns the engine's answer |
| Interaction.InteractionManager.SendPlacePacket | src/main/java/net/shoreline/client/impl/manager/player/interaction/InteractionManager.java:231-235 | records one interact packet for the hit result and returns a result that is accepted and asks for a swing |
| Movement.TickFraming | src/main/java/com/caspian/client/mixin/network/MixinClientPlayerEntity.java:97-104 | every call starts with the PRE dispatch, the cancellation of the engine's method and the sprint packet, ends with the POST dispatch of the same event (lines 169-170), and dispatches nothing in between |
| Movement.ShiftPacket | src/main/java/com/caspian/client/mixin/network/MixinClientPlayerEntity.java:105-113 | a shift packet is sent exactly when sneaking differs from the stored flag, pressing when sneaking and releasing otherwise, and the stored flag becomes the current one |
| Movement.TickStreams | src/main/java/com/caspian/client/mixin/network/MixinClientPlayerEntity.java:105-153 | the movement packets of a call are those of the camera block, and the shift packets are the one shift-key packet or none |
| Movement.AtMostOneMovePacket | src/main/java/com/caspian/client/mixin/network/MixinClientPlayerEntity.java:125-153 | a call sends at most one movement packet |
| Movement.NonCameraTick | src/main/java/com/caspian/client/mixin/network/MixinClientPlayerEntity.java:114-168 | when the player is not the camera entity, no movement packet is sent and only the stored sneaking flag changes |
| Movement.PriorityChain | src/main/java/com/caspian/client/mixin/network/MixinClientPlayerEntity.java:116-153 | riding sends `Full(velocity x, -999, velocity z, …)`. On foot, the packet depends on two tests. Moved means the squared move exceeds (2e-4)², or the incremented counter reaches 20. Turned means yaw or pitch differ. Moved and turned sends `Full`. Only moved sends `PositionAndOnGround`. Only turned sends `LookAndOnGround`. A flipped ground flag sends `OnGroundOnly`. Otherwise nothing is sent. |
| Movement.PositionBookkeeping | src/main/java/com/caspian/client/mixin/network/MixinClientPlayerEntity.java:121-160 | on foot, a position update makes the current position the stored one and resets the counter to 0; otherwise the stored position is unchanged and the counter is incremented (with 32-bit wrap) |
| Movement.VehicleTick | src/main/java/com/caspian/client/mixin/network/MixinClientPlayerEntity.java:125-132 | riding sends the vehicle packet, keeps the stored position and leaves the counter incremented, even when the resync is due |
| Movement.RotationAndGroundBookkeeping | src/main/java/com/caspian/client/mixin/network/MixinClientPlayerEntity.java:161-166 | after a camera tick the stored yaw, pitch and ground flag equal the current ones |
| Movement.ServerViewBounded | src/main/java/com/caspian/client/mixin/network/MixinClientPlayerEntity.java:121-160 | after a camera tick on foot, the stored position is within 2e-4 of the current one and the counter is below 20 |
| Movement.RestingTick | src/main/java/com/caspian/client/mixin/network/MixinClientPlayerEntity.java:121-153 | a call at rest (drifted from the stored position by at most 2e-4, not turned, ground flag kept) with a counter below 19 sends no movement packet and only increments the counter |
| Movement.RestingTicks | src/main/java/com/caspian/client/mixin/network/MixinClientPlayerEntity.java:121-160 | from a reset counter, the first `n < 20` calls at rest (drift at most 2e-4) send no movement packet, and after them the counter is `n` |
| Movement.ForcedResync | src/main/java/com/caspian/client/mixin/network/MixinClientPlayerEntity.java:121-159 | a player at rest from a reset counter, drifted from the stored position by at most 2e-4 so that the movement test never fires, gets no movement packet on calls 1 to 19 and a `PositionAndOnGround` with the current position on call 20; afterwards the stored position is the current one and the counter is back at 0 |
| Movement.ClientPlayer.SendMovementPackets | src/main/java/com/caspian/client/mixin/network/MixinClientPlayerEntity.java:95-171 | the outputs appended and the new stored fields are those of `Tick`, the spec the lemmas above describe |
| Movement.ClientPlayer.SendCameraPackets | src/main/java/com/caspian/client/mixin/network/MixinClientPlayerEntity.java:114-168 | the packet appended is that of the priority chain and the new stored fields are those of `CameraTick` |
| Movement.ClientPlayer.SendMovePacket | src/main/java/com/caspian/client/mixin/network/MixinClientPlayerEntity.java:125-153 | appends exactly the packet the priority chain picks for the given moved and turned flags |
| Movement.ClientPlayer.Remember | src/main/java/com/caspian/client/mixin/network/MixinClientPlayerEntity.java:154-166 | the stored position and counter change only after a position update, the rotation only when it changed, and the ground flag always |

## Left out

- Floating point: coordinates and angles are reals. The hook's `double`/`float` subtractions, the squares and the sum in `squaredMagnitude`, the comparisons, and the `(2e-4)²` constant are all exact here. Rounding in the squares and the sum could flip the movement test for a delta very close to the threshold, and the model does not capture that. For finite values `a - b != 0` holds exactly when `a != b`, which is how the rotation test is read.
- `RotationUtil.getRotationsTo` and the player's eye position: the angles passed to the rotation callback are not computed. Each callback call records the hit point it aims at instead.
- The anti-cheat face computation (`getPlaceDirectionsNCP`): it is an input, a set of faces per target block.
- The engine's `interactBlock`, `sendSprintingPacket` and the player's `swingHand`, and the inventory manager's `setSlot` and `syncToClient`: they are foreign calls. The model records each call, takes the engine's `ActionResult` as an input, and does not model what these calls change inside the engine or the inventory.
- Sequence-id allocation of `sendSequencedPacket`: the packet is recorded with its hit result only.
- `SneakBlocks.isSneakBlock` and the `shouldSneak` test: both `if (shouldSneak)` bodies are empty, so nothing observable depends on them.
- `autoJumpEnabled` (MixinClientPlayerEntity.java line 167): a copy of a client option that nothing in this model reads.
- Exceptions: the slot sync and the second rotation callback run only when the placement returns normally, as in the code. No path models an exception thrown in between.
- Event-bus mechanics: listeners are not modelled, apart from the fact that the player may be read differently after the PRE dispatch. This covers subscription, the mixin injection itself, and listener mutation of the event object (the hook does not read the event back).
- The other hooks of the player mixin (tick-movement post, set-current-hand): they lie outside the per-tick packet state machine modelled here.
- NoRenderModule.java and Module.java are not part of this model: they hold no logic of the placement pipeline or the movement hook.
