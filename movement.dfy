/**
 * The per-tick movement-packet hook of the client player: it replaces the
 * engine's `sendMovementPackets`, sends at most one movement packet chosen
 * by a fixed priority chain, and keeps the player's "last sent" fields and
 * the ticks-since-last-position counter up to date.
 *
 * The player's current state is an input (`Sample`); the packets sent and
 * the events dispatched are recorded, in order, as `Output`s. Coordinates
 * and angles are reals: the hook subtracts them, squares and sums the
 * position deltas, and compares the results.
 */
module Movement {

  /** A Java `int`. */
  newtype int32 = x: int | -0x8000_0000 <= x < 0x8000_0000

  /** `++x` on a Java `int`: the largest value wraps to the smallest. */
  function Increment(c: int32): int32
  {
    if c == 0x7fff_ffff then -0x8000_0000 else c + 1
  }

  /** Ticks without a position packet after which one is forced. */
  const ResyncTicks: int32 := 20

  /** `MathHelper.square(2.0E-4)`: the squared distance that counts as movement. */
  const MoveThresholdSquared: real := 0.0002 * 0.0002

  function SquaredMagnitude(d: real, e: real, f: real): real
  {
    d * d + e * e + f * f
  }

  /** The player's shadowed "last sent" fields and tick counter. */
  datatype LastSent = LastSent(
    sneaking: bool,
    x: real, baseY: real, z: real,
    yaw: real, pitch: real,
    onGround: bool,
    ticks: int32)   // ticksSinceLastPositionPacketSent

  /** The player's state as the hook reads it. */
  datatype Sample = Sample(
    x: real, y: real, z: real,
    yaw: real, pitch: real,
    onGround: bool,
    sneaking: bool,
    camera: bool,       // isCamera()
    hasVehicle: bool,
    velocityX: real, velocityZ: real)

  /** The event handed to listeners before and after the packets. */
  datatype MovementPacketsEvent = MovementPacketsEvent(x: real, y: real, z: real, yaw: real, pitch: real, onGround: bool)

  datatype EventStage = Pre | Post

  /** What one call of the hook does, in order. */
  datatype Output =
    | Dispatch(stage: EventStage, event: MovementPacketsEvent)
    | CancelVanilla                 // the engine's own sendMovementPackets is cancelled
    | SprintingPacket               // the engine's sendSprintingPacket is invoked
    | ShiftKey(press: bool)         // PRESS_SHIFT_KEY when true, RELEASE_SHIFT_KEY otherwise
    | Full(x: real, y: real, z: real, yaw: real, pitch: real, onGround: bool)
    | PositionAndOnGround(x: real, y: real, z: real, onGround: bool)
    | LookAndOnGround(yaw: real, pitch: real, onGround: bool)
    | OnGroundOnly(onGround: bool)

  /** The two packet streams the properties talk about. */
  datatype Stream = MovePackets | ShiftPackets

  predicate InStream(o: Output, p: Stream)
  {
    match p
    case MovePackets => o.Full? || o.PositionAndOnGround? || o.LookAndOnGround? || o.OnGroundOnly?
    case ShiftPackets => o.ShiftKey?
  }

  /** The outputs that satisfy `p`, in order. */
  function Packets(out: seq<Output>, p: Stream): (r: seq<Output>)
    ensures |r| <= |out|
    ensures forall i | 0 <= i < |r| :: InStream(r[i], p)
  {
    if out == [] then [] else (if InStream(out[0], p) then [out[0]] else []) + Packets(out[1..], p)
  }

  lemma {:induction false} PacketsAppend(a: seq<Output>, b: seq<Output>, p: Stream)
    ensures Packets(a + b, p) == Packets(a, p) + Packets(b, p)
  {
    if a == [] {
      assert a + b == b;
    } else {
      assert (a + b)[1..] == a[1..] + b;
      PacketsAppend(a[1..], b, p);
    }
  }

  lemma {:induction false} PacketsNone(out: seq<Output>, p: Stream)
    requires forall i | 0 <= i < |out| :: !InStream(out[i], p)
    ensures Packets(out, p) == []
  {
    if out != [] {
      PacketsNone(out[1..], p);
    }
  }

  lemma {:induction false} PacketsAll(out: seq<Output>, p: Stream)
    requires forall i | 0 <= i < |out| :: InStream(out[i], p)
    ensures Packets(out, p) == out
  {
    if out != [] {
      PacketsAll(out[1..], p);
      assert [out[0]] + out[1..] == out;
    }
  }

  /** Position counts as changed: moved far enough, or the resync is due. */
  predicate PositionChanged(last: LastSent, s: Sample, ticks: int32)
  {
    SquaredMagnitude(s.x - last.x, s.y - last.baseY, s.z - last.z) > MoveThresholdSquared
      || ticks >= ResyncTicks
  }

  /** Rotation counts as changed when yaw or pitch differ at all. */
  predicate RotationChanged(last: LastSent, s: Sample)
  {
    s.yaw - last.yaw != 0.0 || s.pitch - last.pitch != 0.0
  }

  /** The movement packet of a camera tick, by the priority chain. */
  function MovePacket(last: LastSent, s: Sample, moved: bool, turned: bool): seq<Output>
  {
    if s.hasVehicle then [Full(s.velocityX, -999.0, s.velocityZ, s.yaw, s.pitch, s.onGround)]
    else if moved && turned then [Full(s.x, s.y, s.z, s.yaw, s.pitch, s.onGround)]
    else if moved then [PositionAndOnGround(s.x, s.y, s.z, s.onGround)]
    else if turned then [LookAndOnGround(s.yaw, s.pitch, s.onGround)]
    else if last.onGround != s.onGround then [OnGroundOnly(s.onGround)]
    else []
  }

  datatype TickResult = TickResult(next: LastSent, out: seq<Output>)

  /** The leading outputs of every call: PRE, cancel, sprint, maybe shift. */
  function Head(last: LastSent, ev: MovementPacketsEvent, s: Sample): seq<Output>
  {
    [Dispatch(Pre, ev), CancelVanilla, SprintingPacket]
      + (if s.sneaking != last.sneaking then [ShiftKey(s.sneaking)] else [])
  }

  /**
   * The stored state after the isCamera() block: counter incremented, then
   * position and counter reset when a position packet went out, rotation
   * rewritten when it changed, ground flag always rewritten.
   */
  function CameraTick(last: LastSent, s: Sample): LastSent
  {
    var ticks := Increment(last.ticks);
    var positionSent := PositionChanged(last, s, ticks) && !s.hasVehicle;
    var turned := RotationChanged(last, s);
    LastSent(
      last.sneaking,
      if positionSent then s.x else last.x,
      if positionSent then s.y else last.baseY,
      if positionSent then s.z else last.z,
      if turned then s.yaw else last.yaw,
      if turned then s.pitch else last.pitch,
      s.onGround,
      if positionSent then 0 else ticks)
  }

  /** The movement packet of a call, or nothing when the player is not the camera. */
  function TickMove(last: LastSent, s: Sample): seq<Output>
  {
    if s.camera then MovePacket(last, s, PositionChanged(last, s, Increment(last.ticks)), RotationChanged(last, s)) else []
  }

  /**
   * One call of the hook: `ev` is what the PRE event carries (read on
   * entry), `s` is the player's state as the rest of the hook reads it.
   */
  function Tick(last: LastSent, ev: MovementPacketsEvent, s: Sample): TickResult
  {
    var shifted := last.(sneaking := s.sneaking);
    TickResult(
      if s.camera then CameraTick(shifted, s) else shifted,
      Head(last, ev, s) + TickMove(shifted, s) + [Dispatch(Post, ev)])
  }

  // ---------------------------------------------------------------------
  // Properties of one tick
  // ---------------------------------------------------------------------

  /**
   * Every call starts with the PRE dispatch, the cancellation of the
   * engine's method and the sprint packet, and ends with the POST dispatch,
   * which is the only other dispatch.
   */
  lemma TickFraming(last: LastSent, ev: MovementPacketsEvent, s: Sample)
    ensures var out := Tick(last, ev, s).out;
      && |out| >= 4
      && out[0] == Dispatch(Pre, ev)
      && out[1] == CancelVanilla
      && out[2] == SprintingPacket
      && out[|out| - 1] == Dispatch(Post, ev)
      && forall i | 0 < i < |out| - 1 :: !out[i].Dispatch?
  {
  }

  lemma HeadStreams(last: LastSent, ev: MovementPacketsEvent, s: Sample)
    ensures Packets(Head(last, ev, s), MovePackets) == []
    ensures Packets(Head(last, ev, s), ShiftPackets) == if s.sneaking != last.sneaking then [ShiftKey(s.sneaking)] else []
  {
    var shift := if s.sneaking != last.sneaking then [ShiftKey(s.sneaking)] else [];
    var fixed := [Dispatch(Pre, ev), CancelVanilla, SprintingPacket];
    PacketsNone(fixed, MovePackets);
    PacketsNone(fixed, ShiftPackets);
    PacketsNone(shift, MovePackets);
    PacketsAll(shift, ShiftPackets);
    PacketsAppend(fixed, shift, MovePackets);
    PacketsAppend(fixed, shift, ShiftPackets);
  }

  /** Filtering a stream out of three concatenated traces filters each of them. */
  lemma {:induction false} PacketsThree(a: seq<Output>, b: seq<Output>, c: seq<Output>, p: Stream)
    ensures Packets(a + b + c, p) == Packets(a, p) + Packets(b, p) + Packets(c, p)
  {
    PacketsAppend(a, b, p);
    PacketsAppend(a + b, c, p);
  }

  lemma MoveStreamOnly(last: LastSent, s: Sample)
    ensures Packets(TickMove(last, s), MovePackets) == TickMove(last, s)
    ensures Packets(TickMove(last, s), ShiftPackets) == []
  {
    PacketsAll(TickMove(last, s), MovePackets);
    PacketsNone(TickMove(last, s), ShiftPackets);
  }

  /** Movement and shift packets of a tick, as separate streams. */
  lemma TickStreams(last: LastSent, ev: MovementPacketsEvent, s: Sample)
    ensures Packets(Tick(last, ev, s).out, MovePackets) == TickMove(last.(sneaking := s.sneaking), s)
    ensures Packets(Tick(last, ev, s).out, ShiftPackets) == if s.sneaking != last.sneaking then [ShiftKey(s.sneaking)] else []
  {
    var head, move, post := Head(last, ev, s), TickMove(last.(sneaking := s.sneaking), s), [Dispatch(Post, ev)];
    assert Tick(last, ev, s).out == head + move + post;
    HeadStreams(last, ev, s);
    MoveStreamOnly(last.(sneaking := s.sneaking), s);
    PacketsNone(post, MovePackets);
    PacketsNone(post, ShiftPackets);
    PacketsThree(head, move, post, MovePackets);
    PacketsThree(head, move, post, ShiftPackets);
  }

  /**
   * A shift packet is sent exactly when the sneaking state differs from the
   * stored one, pressing when sneaking and releasing otherwise; afterwards
   * the stored state is the current one.
   */
  lemma ShiftPacket(last: LastSent, ev: MovementPacketsEvent, s: Sample)
    ensures var r := Tick(last, ev, s);
      && |Packets(r.out, ShiftPackets)| == (if s.sneaking != last.sneaking then 1 else 0)
      && (forall i | 0 <= i < |Packets(r.out, ShiftPackets)| :: Packets(r.out, ShiftPackets)[i].press == s.sneaking)
      && r.next.sneaking == s.sneaking
  {
    TickStreams(last, ev, s);
  }

  /** At most one movement packet per call. */
  lemma AtMostOneMovePacket(last: LastSent, ev: MovementPacketsEvent, s: Sample)
    ensures |Packets(Tick(last, ev, s).out, MovePackets)| <= 1
  {
    TickStreams(last, ev, s);
  }

  /**
   * When the player is not the camera entity, no movement packet is sent
   * and nothing but the sneaking flag changes.
   */
  lemma NonCameraTick(last: LastSent, ev: MovementPacketsEvent, s: Sample)
    requires !s.camera
    ensures var r := Tick(last, ev, s);
      && Packets(r.out, MovePackets) == []
      && r.next == last.(sneaking := s.sneaking)
  {
    TickStreams(last, ev, s);
  }

  /**
   * The priority chain of a camera tick: riding sends the vehicle packet;
   * otherwise position and rotation both changed send Full, position only
   * PositionAndOnGround, rotation only LookAndOnGround, a flipped ground
   * flag OnGroundOnly, and anything else nothing. Position changed means
   * a squared move above (2e-4)² or a counter that, once incremented,
   * reaches 20.
   */
  lemma PriorityChain(last: LastSent, ev: MovementPacketsEvent, s: Sample)
    requires s.camera
    ensures var moves := Packets(Tick(last, ev, s).out, MovePackets);
      var moved := SquaredMagnitude(s.x - last.x, s.y - last.baseY, s.z - last.z) > 0.0002 * 0.0002
        || Increment(last.ticks) >= 20;
      var turned := s.yaw != last.yaw || s.pitch != last.pitch;
      && (s.hasVehicle ==> moves == [Full(s.velocityX, -999.0, s.velocityZ, s.yaw, s.pitch, s.onGround)])
      && (!s.hasVehicle && moved && turned ==> moves == [Full(s.x, s.y, s.z, s.yaw, s.pitch, s.onGround)])
      && (!s.hasVehicle && moved && !turned ==> moves == [PositionAndOnGround(s.x, s.y, s.z, s.onGround)])
      && (!s.hasVehicle && !moved && turned ==> moves == [LookAndOnGround(s.yaw, s.pitch, s.onGround)])
      && (!s.hasVehicle && !moved && !turned && last.onGround != s.onGround ==> moves == [OnGroundOnly(s.onGround)])
      && (!s.hasVehicle && !moved && !turned && last.onGround == s.onGround ==> moves == [])
  {
    TickStreams(last, ev, s);
  }

  /**
   * Position bookkeeping without a vehicle: a position packet makes the
   * current position the stored one and resets the counter; otherwise the
   * stored position stays and the counter has been incremented.
   */
  lemma PositionBookkeeping(last: LastSent, ev: MovementPacketsEvent, s: Sample)
    requires s.camera && !s.hasVehicle
    ensures var next := Tick(last, ev, s).next;
      var moved := SquaredMagnitude(s.x - last.x, s.y - last.baseY, s.z - last.z) > 0.0002 * 0.0002
        || Increment(last.ticks) >= 20;
      && (moved ==> next.x == s.x && next.baseY == s.y && next.z == s.z && next.ticks == 0)
      && (!moved ==> next.x == last.x && next.baseY == last.baseY && next.z == last.z && next.ticks == Increment(last.ticks))
  {
  }

  /**
   * Riding: the vehicle packet carries the velocity's X and Z and -999 for
   * Y; the stored position is kept and the counter keeps counting.
   */
  lemma VehicleTick(last: LastSent, ev: MovementPacketsEvent, s: Sample)
    requires s.camera && s.hasVehicle
    ensures var r := Tick(last, ev, s);
      && Packets(r.out, MovePackets) == [Full(s.velocityX, -999.0, s.velocityZ, s.yaw, s.pitch, s.onGround)]
      && r.next.x == last.x && r.next.baseY == last.baseY && r.next.z == last.z
      && r.next.ticks == Increment(last.ticks)
  {
    TickStreams(last, ev, s);
  }

  /**
   * After a camera tick the stored rotation and ground flag are the current
   * ones (the rotation is rewritten only when it differs, vehicle or not).
   */
  lemma RotationAndGroundBookkeeping(last: LastSent, ev: MovementPacketsEvent, s: Sample)
    requires s.camera
    ensures var next := Tick(last, ev, s).next;
      next.yaw == s.yaw && next.pitch == s.pitch && next.onGround == s.onGround
  {
  }

  /**
   * Staleness bound: after a camera tick on foot, the stored position is
   * within 2e-4 of the current one and fewer than 20 ticks are counted.
   */
  lemma ServerViewBounded(last: LastSent, ev: MovementPacketsEvent, s: Sample)
    requires s.camera && !s.hasVehicle
    ensures var next := Tick(last, ev, s).next;
      && SquaredMagnitude(s.x - next.x, s.y - next.baseY, s.z - next.z) <= MoveThresholdSquared
      && next.ticks < ResyncTicks
  {
  }

  // ---------------------------------------------------------------------
  // Several ticks
  // ---------------------------------------------------------------------

  /** The stored state after `n` calls with the same inputs. */
  function Run(last: LastSent, ev: MovementPacketsEvent, s: Sample, n: nat): LastSent
  {
    if n == 0 then last else Tick(Run(last, ev, s, n - 1), ev, s).next
  }

  /** The outputs of each of those `n` calls. */
  function RunOutputs(last: LastSent, ev: MovementPacketsEvent, s: Sample, n: nat): (outs: seq<seq<Output>>)
    ensures |outs| == n
  {
    if n == 0 then [] else RunOutputs(last, ev, s, n - 1) + [Tick(Run(last, ev, s, n - 1), ev, s).out]
  }

  /**
   * The player is the camera entity on foot, has drifted from the stored
   * position by no more than the movement threshold, has not turned and
   * has kept its ground flag.
   */
  ghost predicate AtRest(last: LastSent, s: Sample)
  {
    && s.camera && !s.hasVehicle
    && SquaredMagnitude(s.x - last.x, s.y - last.baseY, s.z - last.z) <= MoveThresholdSquared
    && s.yaw == last.yaw && s.pitch == last.pitch
    && s.onGround == last.onGround
  }

  /** One call at rest before the counter reaches the resync interval. */
  lemma RestingTick(before: LastSent, ev: MovementPacketsEvent, s: Sample)
    requires AtRest(before, s) && 0 <= before.ticks < ResyncTicks - 1
    ensures Tick(before, ev, s).next == before.(sneaking := s.sneaking, ticks := before.ticks + 1)
    ensures Packets(Tick(before, ev, s).out, MovePackets) == []
  {
    assert !PositionChanged(before, s, Increment(before.ticks));
    assert !RotationChanged(before, s);
    TickStreams(before, ev, s);
  }

  /** The first `n < 20` calls at rest send no movement packet and only count. */
  lemma {:induction false} RestingTicks(last: LastSent, ev: MovementPacketsEvent, s: Sample, n: nat)
    requires AtRest(last, s) && last.ticks == 0 && n < 20
    ensures Run(last, ev, s, n) == if n == 0 then last else last.(sneaking := s.sneaking, ticks := n as int32)
    ensures forall k | 0 <= k < n :: Packets(RunOutputs(last, ev, s, n)[k], MovePackets) == []
  {
    if n > 0 {
      RestingTicks(last, ev, s, n - 1);
      var before := Run(last, ev, s, n - 1);
      assert AtRest(before, s) && before.ticks == (n - 1) as int32;
      RestingTick(before, ev, s);
    }
  }

  /**
   * Forced resync: from a reset counter, a player at rest (drifted by at
   * most the threshold) gets no movement packet on calls 1 to 19 and a
   * position packet on call 20, after which the stored position is the
   * current one and the counter is back at 0.
   */
  lemma ForcedResync(last: LastSent, ev: MovementPacketsEvent, s: Sample)
    requires AtRest(last, s) && last.ticks == 0
    ensures var outs := RunOutputs(last, ev, s, 20);
      && (forall k | 0 <= k < 19 :: Packets(outs[k], MovePackets) == [])
      && Packets(outs[19], MovePackets) == [PositionAndOnGround(s.x, s.y, s.z, s.onGround)]
    ensures Run(last, ev, s, 20) == last.(sneaking := s.sneaking, x := s.x, baseY := s.y, z := s.z, ticks := 0)
  {
    RestingTicks(last, ev, s, 19);
    var before := Run(last, ev, s, 19);
    TickStreams(before, ev, s);
    assert RunOutputs(last, ev, s, 20)[..19] == RunOutputs(last, ev, s, 19);
  }

  // ---------------------------------------------------------------------
  // The player
  // ---------------------------------------------------------------------

  /** Regrouping the four pieces of an output trace. */
  lemma RegroupOutputs(a: seq<Output>, b: seq<Output>, c: seq<Output>, d: seq<Output>)
    ensures a + b + c + d == a + (b + c + d)
  {
  }

  class ClientPlayer {
    var lastSneaking: bool
    var lastX: real
    var lastBaseY: real
    var lastZ: real
    var lastYaw: real
    var lastPitch: real
    var lastOnGround: bool
    var ticksSinceLastPositionPacketSent: int32
    /** Everything the hook has dispatched and sent so far, in order. */
    var sent: seq<Output>

    function Last(): LastSent
      reads this
    {
      LastSent(lastSneaking, lastX, lastBaseY, lastZ, lastYaw, lastPitch, lastOnGround, ticksSinceLastPositionPacketSent)
    }

    constructor (initial: LastSent)
      ensures Last() == initial && sent == []
    {
      lastSneaking := initial.sneaking;
      lastX, lastBaseY, lastZ := initial.x, initial.baseY, initial.z;
      lastYaw, lastPitch := initial.yaw, initial.pitch;
      lastOnGround := initial.onGround;
      ticksSinceLastPositionPacketSent := initial.ticks;
      sent := [];
    }

    /** The priority chain of hookSendMovementPackets: at most one movement packet. */
    method SendMovePacket(s: Sample, moved: bool, turned: bool)
      modifies this`sent
      ensures sent == old(sent) + MovePacket(Last(), s, moved, turned)
    {
      if s.hasVehicle {
        sent := sent + [Full(s.velocityX, -999.0, s.velocityZ, s.yaw, s.pitch, s.onGround)];
      } else if moved && turned {
        sent := sent + [Full(s.x, s.y, s.z, s.yaw, s.pitch, s.onGround)];
      } else if moved {
        sent := sent + [PositionAndOnGround(s.x, s.y, s.z, s.onGround)];
      } else if turned {
        sent := sent + [LookAndOnGround(s.yaw, s.pitch, s.onGround)];
      } else if lastOnGround != s.onGround {
        sent := sent + [OnGroundOnly(s.onGround)];
      }
    }

    /** hookSendMovementPackets. */
    method SendMovementPackets(ev: MovementPacketsEvent, s: Sample)
      modifies this
      ensures Last() == Tick(old(Last()), ev, s).next
      ensures sent == old(sent) + Tick(old(Last()), ev, s).out
    {
      ghost var last := Last();
      ghost var shifted := last.(sneaking := s.sneaking);
      sent := sent + [Dispatch(Pre, ev), CancelVanilla, SprintingPacket];
      var bl := s.sneaking;
      if bl != lastSneaking {
        sent := sent + [ShiftKey(bl)];
        lastSneaking := bl;
      }
      assert Last() == shifted;
      ghost var head := sent;
      assert head == old(sent) + Head(last, ev, s);
      if s.camera {
        SendCameraPackets(s);
      }
      assert sent == head + TickMove(shifted, s);
      assert Last() == if s.camera then CameraTick(shifted, s) else shifted;
      ghost var move := TickMove(shifted, s);
      sent := sent + [Dispatch(Post, ev)];
      assert Tick(last, ev, s).out == Head(last, ev, s) + move + [Dispatch(Post, ev)];
      RegroupOutputs(old(sent), Head(last, ev, s), move, [Dispatch(Post, ev)]);
    }

    /** The isCamera() block of hookSendMovementPackets. */
    method SendCameraPackets(s: Sample)
      requires s.camera
      modifies this
      ensures Last() == CameraTick(old(Last()), s)
      ensures sent == old(sent) + TickMove(old(Last()), s)
    {
      ghost var last := Last();
      var d := s.x - lastX;
      var e := s.y - lastBaseY;
      var f := s.z - lastZ;
      var g := s.yaw - lastYaw;
      var h := s.pitch - lastPitch;
      ticksSinceLastPositionPacketSent := Increment(ticksSinceLastPositionPacketSent);
      var bl2 := SquaredMagnitude(d, e, f) > MoveThresholdSquared
        || ticksSinceLastPositionPacketSent >= ResyncTicks;
      var bl3 := g != 0.0 || h != 0.0;
      assert bl2 == PositionChanged(last, s, Increment(last.ticks));
      assert bl3 == RotationChanged(last, s);
      assert Last().onGround == last.onGround;
      SendMovePacket(s, bl2, bl3);
      assert sent == old(sent) + TickMove(last, s);
      if s.hasVehicle {
        bl2 := false;
      }
      Remember(s, bl2, bl3);
    }

    /** The bookkeeping at the end of the isCamera() block. */
    method Remember(s: Sample, positionSent: bool, turned: bool)
      modifies this`lastX, this`lastBaseY, this`lastZ, this`lastYaw, this`lastPitch,
        this`lastOnGround, this`ticksSinceLastPositionPacketSent
      ensures Last() == old(Last()).(
        x := if positionSent then s.x else old(lastX),
        baseY := if positionSent then s.y else old(lastBaseY),
        z := if positionSent then s.z else old(lastZ),
        yaw := if turned then s.yaw else old(lastYaw),
        pitch := if turned then s.pitch else old(lastPitch),
        onGround := s.onGround,
        ticks := if positionSent then 0 else old(ticksSinceLastPositionPacketSent))
    {
      if positionSent {
        lastX := s.x;
        lastBaseY := s.y;
        lastZ := s.z;
        ticksSinceLastPositionPacketSent := 0;
      }
      if turned {
        lastYaw := s.yaw;
        lastPitch := s.pitch;
      }
      lastOnGround := s.onGround;
    }
  }
}
