/**
 * The block-placement pipeline of the client's interaction manager:
 * choosing the face to click, building the hit result, the slot-spoof and
 * rotation-callback bracket around the placement, the placement itself
 * (through the engine or as a bare packet) and the hand swing after it.
 *
 * Everything the manager does to the outside world is recorded, in order,
 * as an `Effect`. The world, the anti-cheat face set, the AIR_PLACE flag,
 * the two slot readings and the engine's answer to `interactBlock` are
 * inputs, bundled in `Env`.
 */
module Interaction {
  import opened Geometry

  datatype Option<T> = None | Some(value: T)

  /** What the direction search reads of a block state. */
  datatype BlockState = BlockState(isAir: bool, fluidEmpty: bool)

  /** The two questions the pipeline asks of an engine `ActionResult`. */
  datatype ActionResult = ActionResult(accepted: bool, shouldSwingHand: bool)

  /** `ActionResult.SUCCESS`: accepted, and the hand should swing. */
  const Success := ActionResult(true, true)

  datatype BlockHitResult = BlockHitResult(pos: Vec3, side: Direction, blockPos: BlockPos, insideBlock: bool)

  /**
   * The two near-identical placement chains: `Local` goes through the
   * engine's `interactBlock`, `PacketOnly` sends the interact packet itself.
   */
  datatype Mode = Local | PacketOnly

  /** What the manager reads from the game during one placement. */
  datatype Env = Env(
    world: BlockPos -> BlockState,               // block state lookup
    ncpDirections: BlockPos -> set<Direction>,   // anti-cheat-safe faces, per target block
    airPlace: bool,                              // the AIR_PLACE module is enabled
    serverSlot: int,                             // the inventory manager's server slot
    selectedSlot: int,                           // the client inventory's selected slot
    interactBlock: BlockHitResult -> ActionResult) // the engine's local placement

  /** Observable effects of the manager, in the order they happen. */
  datatype Effect =
    | SetSlot(slot: int)                       // inventory manager switches the server slot
    | Rotate(entering: bool, toward: Vec3)     // rotation callback, aiming at a hit point
    | Interact(hit: BlockHitResult)            // engine interactBlock call
    | SendInteractPacket(hit: BlockHitResult)  // sequenced block-interact packet
    | SwingLocal                               // the player's swingHand call
    | SwingPacket                              // hand-swing packet to the server
    | SyncToClient                             // inventory manager resynchronises the slot

  datatype Kind =
    | SetSlotKind | RotateEnterKind | RotateExitKind | InteractKind
    | InteractPacketKind | SwingLocalKind | SwingPacketKind | SyncKind

  function KindOf(e: Effect): Kind
  {
    match e
    case SetSlot(_) => SetSlotKind
    case Rotate(entering, _) => if entering then RotateEnterKind else RotateExitKind
    case Interact(_) => InteractKind
    case SendInteractPacket(_) => InteractPacketKind
    case SwingLocal => SwingLocalKind
    case SwingPacket => SwingPacketKind
    case SyncToClient => SyncKind
  }

  /** Number of effects of kind `k` in a trace. */
  function CountOf(s: seq<Effect>, k: Kind): nat
  {
    if s == [] then 0 else (if KindOf(s[0]) == k then 1 else 0) + CountOf(s[1..], k)
  }

  lemma {:induction false} CountOfAppend(a: seq<Effect>, b: seq<Effect>, k: Kind)
    ensures CountOf(a + b, k) == CountOf(a, k) + CountOf(b, k)
  {
    if a == [] {
      assert a + b == b;
    } else {
      assert (a + b)[1..] == a[1..] + b;
      CountOfAppend(a[1..], b, k);
    }
  }

  /** An effect that happens only when `b` holds. */
  function When(b: bool, e: Effect): seq<Effect>
  {
    if b then [e] else []
  }

  lemma CountOfWhen(b: bool, e: Effect, k: Kind)
    ensures CountOf(When(b, e), k) == if b && KindOf(e) == k then 1 else 0
  {
    if b {
      assert When(b, e)[1..] == [];
    }
  }

  /**
   * The stage of the placement bracket an effect belongs to: slot switch,
   * rotation in, placement, swing, rotation out, slot sync.
   */
  function Stage(e: Effect): nat
  {
    match e
    case SetSlot(_) => 0
    case Rotate(entering, _) => if entering then 1 else 4
    case Interact(_) => 2
    case SendInteractPacket(_) => 2
    case SwingLocal => 3
    case SwingPacket => 3
    case SyncToClient => 5
  }

  /**
   * Effects occur stage by stage and each stage at most once: every effect
   * comes strictly after every effect of an earlier stage.
   */
  ghost predicate InBracketOrder(s: seq<Effect>)
  {
    forall i, j | 0 <= i < j < |s| :: Stage(s[i]) < Stage(s[j])
  }

  ghost predicate StagesWithin(s: seq<Effect>, lo: nat, hi: nat)
  {
    forall i | 0 <= i < |s| :: lo <= Stage(s[i]) <= hi
  }

  lemma {:induction false} InBracketOrderAppend(a: seq<Effect>, b: seq<Effect>, lo: nat, mid: nat, hi: nat)
    requires lo <= mid < hi
    requires InBracketOrder(a) && StagesWithin(a, lo, mid)
    requires InBracketOrder(b) && StagesWithin(b, mid + 1, hi)
    ensures InBracketOrder(a + b) && StagesWithin(a + b, lo, hi)
  {
    forall i, j | 0 <= i < j < |a + b| ensures Stage((a + b)[i]) < Stage((a + b)[j]) {
      if j < |a| {
        assert (a + b)[i] == a[i] && (a + b)[j] == a[j];
      } else if i < |a| {
        assert (a + b)[i] == a[i] && (a + b)[j] == b[j - |a|];
      } else {
        assert (a + b)[i] == b[i - |a|] && (a + b)[j] == b[j - |a|];
      }
    }
    forall i | 0 <= i < |a + b| ensures lo <= Stage((a + b)[i]) <= hi {
      if i < |a| {
        assert (a + b)[i] == a[i];
      } else {
        assert (a + b)[i] == b[i - |a|];
      }
    }
  }

  // ---------------------------------------------------------------------
  // Direction resolution (getInteractDirection)
  // ---------------------------------------------------------------------

  /**
   * Face `d` of the target can be built against: the neighbour across `d`
   * is neither air nor holds fluid, and in strict mode the neighbour's face
   * that touches the target (`Opposite(d)`) is anti-cheat-safe.
   */
  predicate Qualifies(world: BlockPos -> BlockState, ncp: set<Direction>, pos: BlockPos, strict: bool, d: Direction)
  {
    var state := world(Offset(pos, d));
    !state.isAir && state.fluidEmpty && (!strict || Opposite(d) in ncp)
  }

  /** Index in `Values`, at or after `from`, of the first qualifying face. */
  function FirstQualifying(world: BlockPos -> BlockState, ncp: set<Direction>, pos: BlockPos, strict: bool, from: nat): (r: Option<nat>)
    requires from <= |Values|
    ensures r.Some? ==> from <= r.value < |Values| && Qualifies(world, ncp, pos, strict, Values[r.value])
    ensures r.Some? ==> forall j | from <= j < r.value :: !Qualifies(world, ncp, pos, strict, Values[j])
    ensures r.None? ==> forall j | from <= j < |Values| :: !Qualifies(world, ncp, pos, strict, Values[j])
    decreases |Values| - from
  {
    if from == |Values| then None
    else if Qualifies(world, ncp, pos, strict, Values[from]) then Some(from)
    else FirstQualifying(world, ncp, pos, strict, from + 1)
  }

  /**
   * The face of the target block to click: the opposite of the first face
   * (in `Values` order) whose neighbour qualifies, or `None`.
   */
  function InteractDirection(world: BlockPos -> BlockState, ncp: set<Direction>, pos: BlockPos, strict: bool): (r: Option<Direction>)
    ensures r.None? <==> forall d :: !Qualifies(world, ncp, pos, strict, d)
    ensures r.Some? ==> Qualifies(world, ncp, pos, strict, Opposite(r.value))
    ensures r.Some? ==> forall j | 0 <= j < Index(Opposite(r.value)) :: !Qualifies(world, ncp, pos, strict, Values[j])
  {
    var first := FirstQualifying(world, ncp, pos, strict, 0);
    assert first.None? ==> forall d :: !Qualifies(world, ncp, pos, strict, d) by {
      if first.None? {
        forall d ensures !Qualifies(world, ncp, pos, strict, d) {
          assert Values[Index(d)] == d;
        }
      }
    }
    match first
    case None => None
    case Some(k) =>
      OppositeInvolutive(Values[k]);
      ValuesDistinct(k, Index(Values[k]));
      Some(Opposite(Values[k]))
  }

  /**
   * The returned face is backed by a solid, fluid-free block on the other
   * side of it, and in strict mode it is itself one of the safe faces.
   */
  lemma InteractDirectionSound(world: BlockPos -> BlockState, ncp: set<Direction>, pos: BlockPos, strict: bool)
    ensures var r := InteractDirection(world, ncp, pos, strict);
      r.Some? ==>
        && !world(Offset(pos, Opposite(r.value))).isAir
        && world(Offset(pos, Opposite(r.value))).fluidEmpty
        && (strict ==> r.value in ncp)
  {
    var r := InteractDirection(world, ncp, pos, strict);
    if r.Some? {
      OppositeInvolutive(r.value);
    }
  }

  /**
   * Direction with the AIR_PLACE fallback: with nothing to build against,
   * an enabled AIR_PLACE and strict mode off, the top face is used.
   */
  function ResolvedSide(env: Env, pos: BlockPos, strict: bool): (r: Option<Direction>)
    ensures r.None? <==> (forall d :: !Qualifies(env.world, env.ncpDirections(pos), pos, strict, d)) && !(env.airPlace && !strict)
    ensures (forall d :: !Qualifies(env.world, env.ncpDirections(pos), pos, strict, d)) && env.airPlace && !strict ==> r == Some(Up)
    ensures (exists d :: Qualifies(env.world, env.ncpDirections(pos), pos, strict, d)) ==>
      && r.Some? && Qualifies(env.world, env.ncpDirections(pos), pos, strict, Opposite(r.value))
      && (forall j | 0 <= j < Index(Opposite(r.value)) :: !Qualifies(env.world, env.ncpDirections(pos), pos, strict, Values[j]))
  {
    var d := InteractDirection(env.world, env.ncpDirections(pos), pos, strict);
    if env.airPlace && d.None? && !strict then Some(Up) else d
  }

  // ---------------------------------------------------------------------
  // Placement, as a function from the inputs to the effect trace
  // ---------------------------------------------------------------------

  datatype Outcome = Outcome(effects: seq<Effect>, accepted: bool)

  /** The slot a requested slot is compared with to decide on spoofing. */
  function ReferenceSlot(env: Env, mode: Mode): int
  {
    match mode
    case Local => env.serverSlot
    case PacketOnly => env.selectedSlot
  }

  /** The engine's answer, or SUCCESS for a bare packet. */
  function EngineResult(env: Env, hit: BlockHitResult, mode: Mode): ActionResult
  {
    match mode
    case Local => env.interactBlock(hit)
    case PacketOnly => Success
  }

  function PlaceCall(hit: BlockHitResult, mode: Mode): Effect
  {
    match mode
    case Local => Interact(hit)
    case PacketOnly => SendInteractPacket(hit)
  }

  /** The swing effect chosen by `clientSwing`. */
  function SwingEffect(clientSwing: bool): Effect
  {
    if clientSwing then SwingLocal else SwingPacket
  }

  /** placeBlockImmediately / placeBlockImmediatelyPacket. */
  function Immediate(env: Env, hit: BlockHitResult, clientSwing: bool, mode: Mode): Outcome
  {
    var result := EngineResult(env, hit, mode);
    Outcome(
      [PlaceCall(hit, mode)] + When(result.accepted && result.shouldSwingHand, SwingEffect(clientSwing)),
      result.accepted)
  }

  /** placeBlock / placeBlockPacket taking a hit result. */
  function PlacementHit(env: Env, hit: BlockHitResult, slot: int, clientSwing: bool, rotating: bool, mode: Mode): Outcome
  {
    var spoofing := slot != ReferenceSlot(env, mode);
    var inner := Immediate(env, hit, clientSwing, mode);
    Outcome(
      When(spoofing, SetSlot(slot))
        + When(rotating, Rotate(true, hit.pos))
        + inner.effects
        + When(rotating, Rotate(false, hit.pos))
        + When(spoofing, SyncToClient),
      inner.accepted)
  }

  /** placeBlock / placeBlockPacket taking the clicked block and its face. */
  function PlacementOn(env: Env, pos: BlockPos, direction: Direction, slot: int, clientSwing: bool, rotating: bool, mode: Mode): Outcome
  {
    PlacementHit(env, BlockHitResult(HitVec(pos, direction), direction, pos, false), slot, clientSwing, rotating, mode)
  }

  /** placeBlock / placeBlockPacket taking the target position. */
  function PlacementAt(env: Env, pos: BlockPos, slot: int, strict: bool, clientSwing: bool, rotating: bool, mode: Mode): Outcome
  {
    match ResolvedSide(env, pos, strict)
    case None => Outcome([], false)
    case Some(d) => PlacementOn(env, Offset(pos, Opposite(d)), d, slot, clientSwing, rotating, mode)
  }

  // ---------------------------------------------------------------------
  // Properties of the placement trace
  // ---------------------------------------------------------------------

  lemma {:induction false} CountOfFive(a: seq<Effect>, b: seq<Effect>, c: seq<Effect>, d: seq<Effect>, e: seq<Effect>, k: Kind)
    ensures CountOf(a + b + c + d + e, k) == CountOf(a, k) + CountOf(b, k) + CountOf(c, k) + CountOf(d, k) + CountOf(e, k)
  {
    CountOfAppend(a, b, k);
    CountOfAppend(a + b, c, k);
    CountOfAppend(a + b + c, d, k);
    CountOfAppend(a + b + c + d, e, k);
  }

  /**
   * Counts of each kind of effect in the placement bracket, part by part:
   * slot switch, rotation in, placement call, swing, rotation out, sync.
   */
  lemma PlacementCounts(env: Env, hit: BlockHitResult, slot: int, clientSwing: bool, rotating: bool, mode: Mode, k: Kind)
    ensures var spoofing := slot != ReferenceSlot(env, mode);
      var result := EngineResult(env, hit, mode);
      var swings := result.accepted && result.shouldSwingHand;
      CountOf(PlacementHit(env, hit, slot, clientSwing, rotating, mode).effects, k)
        == CountOf(When(spoofing, SetSlot(slot)), k)
         + CountOf(When(rotating, Rotate(true, hit.pos)), k)
         + (if KindOf(PlaceCall(hit, mode)) == k then 1 else 0)
         + CountOf(When(swings, SwingEffect(clientSwing)), k)
         + CountOf(When(rotating, Rotate(false, hit.pos)), k)
         + CountOf(When(spoofing, SyncToClient), k)
  {
    var spoofing := slot != ReferenceSlot(env, mode);
    var result := EngineResult(env, hit, mode);
    var swing := When(result.accepted && result.shouldSwingHand, SwingEffect(clientSwing));
    var inner := Immediate(env, hit, clientSwing, mode);
    CountOfAppend([PlaceCall(hit, mode)], swing, k);
    assert CountOf([PlaceCall(hit, mode)], k) == if KindOf(PlaceCall(hit, mode)) == k then 1 else 0 by {
      assert [PlaceCall(hit, mode)][1..] == [];
    }
    CountOfFive(When(spoofing, SetSlot(slot)), When(rotating, Rotate(true, hit.pos)), inner.effects,
      When(rotating, Rotate(false, hit.pos)), When(spoofing, SyncToClient), k);
  }

  lemma BracketWhenCounts(spoofing: bool, rotating: bool, swings: bool, clientSwing: bool, slot: int, toward: Vec3, k: Kind)
    ensures CountOf(When(spoofing, SetSlot(slot)), k) == if spoofing && k == SetSlotKind then 1 else 0
    ensures CountOf(When(rotating, Rotate(true, toward)), k) == if rotating && k == RotateEnterKind then 1 else 0
    ensures CountOf(When(swings, SwingEffect(clientSwing)), k)
      == if swings && k == (if clientSwing then SwingLocalKind else SwingPacketKind) then 1 else 0
    ensures CountOf(When(rotating, Rotate(false, toward)), k) == if rotating && k == RotateExitKind then 1 else 0
    ensures CountOf(When(spoofing, SyncToClient), k) == if spoofing && k == SyncKind then 1 else 0
  {
    CountOfWhen(spoofing, SetSlot(slot), k);
    CountOfWhen(rotating, Rotate(true, toward), k);
    CountOfWhen(swings, SwingEffect(clientSwing), k);
    CountOfWhen(rotating, Rotate(false, toward), k);
    CountOfWhen(spoofing, SyncToClient, k);
  }

  lemma CountsOfKind(env: Env, hit: BlockHitResult, slot: int, clientSwing: bool, rotating: bool, mode: Mode, k: Kind)
    ensures var spoofing := slot != ReferenceSlot(env, mode);
      var result := EngineResult(env, hit, mode);
      var swings := result.accepted && result.shouldSwingHand;
      CountOf(PlacementHit(env, hit, slot, clientSwing, rotating, mode).effects, k)
        == (if spoofing && k == SetSlotKind then 1 else 0)
         + (if rotating && k == RotateEnterKind then 1 else 0)
         + (if KindOf(PlaceCall(hit, mode)) == k then 1 else 0)
         + (if swings && k == (if clientSwing then SwingLocalKind else SwingPacketKind) then 1 else 0)
         + (if rotating && k == RotateExitKind then 1 else 0)
         + (if spoofing && k == SyncKind then 1 else 0)
  {
    var spoofing := slot != ReferenceSlot(env, mode);
    var result := EngineResult(env, hit, mode);
    PlacementCounts(env, hit, slot, clientSwing, rotating, mode, k);
    BracketWhenCounts(spoofing, rotating, result.accepted && result.shouldSwingHand, clientSwing, slot, hit.pos, k);
  }

  /**
   * Slot spoofing: the slot is switched (to the requested slot, first of
   * all effects) and synced back (last of all effects) exactly when the
   * requested slot differs from the reference slot, which is the server
   * slot for the engine chain and the client's selected slot for the
   * packet chain; otherwise neither happens. The sync does not depend on
   * whether the placement was accepted.
   */
  lemma SlotBracket(env: Env, hit: BlockHitResult, slot: int, clientSwing: bool, rotating: bool, mode: Mode)
    ensures var e := PlacementHit(env, hit, slot, clientSwing, rotating, mode).effects;
      var reference := if mode == Local then env.serverSlot else env.selectedSlot;
      && CountOf(e, SetSlotKind) == (if slot != reference then 1 else 0)
      && CountOf(e, SyncKind) == (if slot != reference then 1 else 0)
      && (slot != reference ==> e[0] == SetSlot(slot) && e[|e| - 1] == SyncToClient)
  {
    CountsOfKind(env, hit, slot, clientSwing, rotating, mode, SetSlotKind);
    CountsOfKind(env, hit, slot, clientSwing, rotating, mode, SyncKind);
  }

  /**
   * Rotation callback: with a callback, exactly one entering and one leaving
   * call, both aimed at the hit point; without one, none.
   */
  lemma RotationBracket(env: Env, hit: BlockHitResult, slot: int, clientSwing: bool, rotating: bool, mode: Mode)
    ensures var e := PlacementHit(env, hit, slot, clientSwing, rotating, mode).effects;
      && CountOf(e, RotateEnterKind) == (if rotating then 1 else 0)
      && CountOf(e, RotateExitKind) == (if rotating then 1 else 0)
      && forall i | 0 <= i < |e| && e[i].Rotate? :: e[i].toward == hit.pos
  {
    CountsOfKind(env, hit, slot, clientSwing, rotating, mode, RotateEnterKind);
    CountsOfKind(env, hit, slot, clientSwing, rotating, mode, RotateExitKind);
  }

  /**
   * The placement happens exactly once, through the engine in the engine
   * chain and as one interact packet in the packet chain, and it is about
   * the given hit result.
   */
  lemma PlacementCall(env: Env, hit: BlockHitResult, slot: int, clientSwing: bool, rotating: bool, mode: Mode)
    ensures var e := PlacementHit(env, hit, slot, clientSwing, rotating, mode).effects;
      && CountOf(e, InteractKind) == (if mode == Local then 1 else 0)
      && CountOf(e, InteractPacketKind) == (if mode == PacketOnly then 1 else 0)
      && forall i | 0 <= i < |e| && IsPlacement(e[i]) :: e[i].hit == hit
  {
    CountsOfKind(env, hit, slot, clientSwing, rotating, mode, InteractKind);
    CountsOfKind(env, hit, slot, clientSwing, rotating, mode, InteractPacketKind);
    PlacementCallHit(env, hit, slot, clientSwing, rotating, mode);
  }

  /** An effect that places a block, through the engine or as a packet. */
  predicate IsPlacement(e: Effect)
  {
    e.Interact? || e.SendInteractPacket?
  }

  /** The placement effects of `a + [x] + b`, when `a` and `b` have none, are `x`. */
  lemma OnlyPlacement(a: seq<Effect>, x: Effect, b: seq<Effect>)
    requires forall i | 0 <= i < |a| :: !IsPlacement(a[i])
    requires forall i | 0 <= i < |b| :: !IsPlacement(b[i])
    ensures var t := a + [x] + b;
      forall i | 0 <= i < |t| && IsPlacement(t[i]) :: t[i] == x
  {
    var t := a + [x] + b;
    forall i | 0 <= i < |t|
      ensures IsPlacement(t[i]) ==> t[i] == x
    {
      if i < |a| {
        assert t[i] == a[i];
      } else if i > |a| {
        assert t[i] == b[i - |a| - 1];
      }
    }
  }

  /** Every placement effect in the trace is about the given hit result. */
  lemma PlacementCallHit(env: Env, hit: BlockHitResult, slot: int, clientSwing: bool, rotating: bool, mode: Mode)
    ensures var e := PlacementHit(env, hit, slot, clientSwing, rotating, mode).effects;
      forall i | 0 <= i < |e| && IsPlacement(e[i]) :: e[i] == PlaceCall(hit, mode)
  {
    var spoofing := slot != ReferenceSlot(env, mode);
    var result := EngineResult(env, hit, mode);
    var pre := When(spoofing, SetSlot(slot)) + When(rotating, Rotate(true, hit.pos));
    var call := [PlaceCall(hit, mode)];
    var swing := When(result.accepted && result.shouldSwingHand, SwingEffect(clientSwing));
    var exit, sync := When(rotating, Rotate(false, hit.pos)), When(spoofing, SyncToClient);
    assert Immediate(env, hit, clientSwing, mode).effects == call + swing;
    assert PlacementHit(env, hit, slot, clientSwing, rotating, mode).effects == pre + (call + swing) + exit + sync;
    RegroupEffects(pre, call, swing);
    RegroupEffects(pre + call + swing, exit, sync);
    RegroupEffects(pre + call, swing, exit + sync);
    RegroupEffects(swing, exit, sync);
    OnlyPlacement(pre, PlaceCall(hit, mode), swing + exit + sync);
  }

  /**
   * Swing and result: the call reports the engine's acceptance (always
   * accepted for a bare packet); an accepted result that asks for a swing
   * gives exactly one swing, local when `clientSwing` and a packet
   * otherwise; any other result gives none.
   */
  lemma SwingDecision(env: Env, hit: BlockHitResult, slot: int, clientSwing: bool, rotating: bool, mode: Mode)
    ensures var o := PlacementHit(env, hit, slot, clientSwing, rotating, mode);
      var result := if mode == Local then env.interactBlock(hit) else ActionResult(true, true);
      && o.accepted == result.accepted
      && (mode == PacketOnly ==> o.accepted)
      && CountOf(o.effects, SwingLocalKind) == (if result.accepted && result.shouldSwingHand && clientSwing then 1 else 0)
      && CountOf(o.effects, SwingPacketKind) == (if result.accepted && result.shouldSwingHand && !clientSwing then 1 else 0)
  {
    CountsOfKind(env, hit, slot, clientSwing, rotating, mode, SwingLocalKind);
    CountsOfKind(env, hit, slot, clientSwing, rotating, mode, SwingPacketKind);
  }

  /** An optional effect is ordered and lies in its own stage. */
  lemma WhenInStage(b: bool, e: Effect)
    ensures InBracketOrder(When(b, e)) && StagesWithin(When(b, e), Stage(e), Stage(e))
  {
  }

  /** The five parts of the bracket, each in its own stages, concatenate in order. */
  lemma {:induction false} InBracketOrderFive(setSlot: seq<Effect>, enter: seq<Effect>, inner: seq<Effect>, exit: seq<Effect>, sync: seq<Effect>)
    requires InBracketOrder(setSlot) && StagesWithin(setSlot, 0, 0)
    requires InBracketOrder(enter) && StagesWithin(enter, 1, 1)
    requires InBracketOrder(inner) && StagesWithin(inner, 2, 3)
    requires InBracketOrder(exit) && StagesWithin(exit, 4, 4)
    requires InBracketOrder(sync) && StagesWithin(sync, 5, 5)
    ensures InBracketOrder(setSlot + enter + inner + exit + sync)
  {
    InBracketOrderAppend(setSlot, enter, 0, 0, 1);
    InBracketOrderAppend(setSlot + enter, inner, 0, 1, 3);
    InBracketOrderAppend(setSlot + enter + inner, exit, 0, 3, 4);
    InBracketOrderAppend(setSlot + enter + inner + exit, sync, 0, 4, 5);
  }

  /**
   * Order: slot switch, then rotation in, then the placement, then the
   * swing, then rotation out, then the slot sync; each at most once.
   */
  lemma PlacementOrder(env: Env, hit: BlockHitResult, slot: int, clientSwing: bool, rotating: bool, mode: Mode)
    ensures InBracketOrder(PlacementHit(env, hit, slot, clientSwing, rotating, mode).effects)
  {
    var spoofing := slot != ReferenceSlot(env, mode);
    var result := EngineResult(env, hit, mode);
    var call := [PlaceCall(hit, mode)];
    var swing := When(result.accepted && result.shouldSwingHand, SwingEffect(clientSwing));
    WhenInStage(true, PlaceCall(hit, mode));
    assert call == When(true, PlaceCall(hit, mode));
    WhenInStage(result.accepted && result.shouldSwingHand, SwingEffect(clientSwing));
    InBracketOrderAppend(call, swing, 2, 2, 3);
    WhenInStage(spoofing, SetSlot(slot));
    WhenInStage(rotating, Rotate(true, hit.pos));
    WhenInStage(rotating, Rotate(false, hit.pos));
    WhenInStage(spoofing, SyncToClient);
    InBracketOrderFive(When(spoofing, SetSlot(slot)), When(rotating, Rotate(true, hit.pos)), call + swing,
      When(rotating, Rotate(false, hit.pos)), When(spoofing, SyncToClient));
  }

  /**
   * The position-level entry points: with no face to build against and no
   * AIR_PLACE fallback they report failure and do nothing at all; otherwise
   * they click face `d` of the neighbour across `Opposite(d)`, which is the
   * block whose face `d` touches the target, at the centre of that face.
   */
  lemma PlacementAtTarget(env: Env, pos: BlockPos, slot: int, strict: bool, clientSwing: bool, rotating: bool, mode: Mode)
    ensures var o := PlacementAt(env, pos, slot, strict, clientSwing, rotating, mode);
      match ResolvedSide(env, pos, strict)
      case None => o == Outcome([], false)
      case Some(d) =>
        var neighbor := Offset(pos, Opposite(d));
        && Offset(neighbor, d) == pos
        && HitVec(neighbor, d) == Midpoint(CenterPos(neighbor), CenterPos(pos))
        && o == PlacementHit(env, BlockHitResult(HitVec(neighbor, d), d, neighbor, false), slot, clientSwing, rotating, mode)
  {
    match ResolvedSide(env, pos, strict)
    case None =>
    case Some(d) =>
      var neighbor := Offset(pos, Opposite(d));
      OffsetOppositeRoundTrip(pos, d);
      HitVecOnSharedFace(neighbor, d);
  }

  /**
   * End to end: an engine placement without a rotation callback and with
   * a local swing, which the engine accepts with a swing, reports success,
   * swings the hand locally once, sends no swing packet and never calls a
   * rotation callback.
   */
  lemma LocalSwingEndToEnd(env: Env, pos: BlockPos, slot: int, strict: bool)
    requires ResolvedSide(env, pos, strict).Some?
    requires var d := ResolvedSide(env, pos, strict).value;
      var neighbor := Offset(pos, Opposite(d));
      env.interactBlock(BlockHitResult(HitVec(neighbor, d), d, neighbor, false)) == Success
    ensures var o := PlacementAt(env, pos, slot, strict, true, false, Local);
      && o.accepted
      && CountOf(o.effects, SwingLocalKind) == 1
      && CountOf(o.effects, SwingPacketKind) == 0
      && CountOf(o.effects, RotateEnterKind) == 0
      && CountOf(o.effects, RotateExitKind) == 0
  {
    var d := ResolvedSide(env, pos, strict).value;
    var neighbor := Offset(pos, Opposite(d));
    var hit := BlockHitResult(HitVec(neighbor, d), d, neighbor, false);
    SwingDecision(env, hit, slot, true, false, Local);
    RotationBracket(env, hit, slot, true, false, Local);
  }

  /** Regrouping the three pieces of an effect trace. */
  lemma RegroupEffects(a: seq<Effect>, b: seq<Effect>, c: seq<Effect>)
    ensures a + b + c == a + (b + c)
  {
  }

  // ---------------------------------------------------------------------
  // The manager itself
  // ---------------------------------------------------------------------

  class InteractionManager {
    /** Everything the manager has done to the game so far, in order. */
    var effects: seq<Effect>

    constructor ()
      ensures effects == []
    {
      effects := [];
    }

    /** getInteractDirection: first-match search over `Values`. */
    method GetInteractDirection(env: Env, pos: BlockPos, strict: bool) returns (r: Option<Direction>)
      ensures r == InteractDirection(env.world, env.ncpDirections(pos), pos, strict)
    {
      var ncp := env.ncpDirections(pos);
      var interact: Option<Direction> := None;
      var i := 0;
      while i < |Values|
        invariant 0 <= i <= |Values|
        invariant forall j | 0 <= j < i :: !Qualifies(env.world, ncp, pos, strict, Values[j])
      {
        var direction := Values[i];
        var state := env.world(Offset(pos, direction));
        if state.isAir || !state.fluidEmpty {
          i := i + 1;
          continue;
        }
        if strict && Opposite(direction) !in ncp {
          i := i + 1;
          continue;
        }
        interact := Some(direction);
        break;
      }
      assert interact.Some? ==> interact == Some(Values[i]) && Qualifies(env.world, ncp, pos, strict, Values[i]);
      if interact.None? {
        r := None;
      } else {
        r := Some(Opposite(interact.value));
      }
    }

    /** placeBlock / placeBlockPacket taking the target position. */
    method PlaceBlock(env: Env, pos: BlockPos, slot: int, strict: bool, clientSwing: bool, rotating: bool, mode: Mode)
      returns (ok: bool)
      modifies this
      ensures effects == old(effects) + PlacementAt(env, pos, slot, strict, clientSwing, rotating, mode).effects
      ensures ok == PlacementAt(env, pos, slot, strict, clientSwing, rotating, mode).accepted
    {
      var direction := GetInteractDirection(env, pos, strict);
      if env.airPlace && direction.None? && !strict {
        direction := Some(Up);
      }
      if direction.None? {
        ok := false;
        return;
      }
      var neighbor := Offset(pos, Opposite(direction.value));
      ok := PlaceBlockOn(env, neighbor, direction.value, slot, clientSwing, rotating, mode);
    }

    /** placeBlock / placeBlockPacket taking the clicked block and its face. */
    method PlaceBlockOn(env: Env, pos: BlockPos, direction: Direction, slot: int, clientSwing: bool, rotating: bool, mode: Mode)
      returns (ok: bool)
      modifies this
      ensures effects == old(effects) + PlacementOn(env, pos, direction, slot, clientSwing, rotating, mode).effects
      ensures ok == PlacementOn(env, pos, direction, slot, clientSwing, rotating, mode).accepted
    {
      var hitVec := HitVec(pos, direction);
      ok := PlaceBlockHit(env, BlockHitResult(hitVec, direction, pos, false), slot, clientSwing, rotating, mode);
    }

    /** placeBlock / placeBlockPacket taking a hit result: the slot and rotation bracket. */
    method PlaceBlockHit(env: Env, hit: BlockHitResult, slot: int, clientSwing: bool, rotating: bool, mode: Mode)
      returns (ok: bool)
      modifies this
      ensures effects == old(effects) + PlacementHit(env, hit, slot, clientSwing, rotating, mode).effects
      ensures ok == PlacementHit(env, hit, slot, clientSwing, rotating, mode).accepted
    {
      ghost var before := effects;
      var previousSlot := if mode == Local then env.serverSlot else env.selectedSlot;
      var isSpoofing := slot != previousSlot;
      if isSpoofing {
        effects := effects + [SetSlot(slot)];
      }
      ghost var trace := When(isSpoofing, SetSlot(slot));
      assert effects == before + trace;
      if rotating {
        effects := effects + [Rotate(true, hit.pos)];
      }
      RegroupEffects(before, trace, When(rotating, Rotate(true, hit.pos)));
      trace := trace + When(rotating, Rotate(true, hit.pos));
      assert effects == before + trace;
      ok := PlaceBlockImmediately(env, hit, clientSwing, mode);
      RegroupEffects(before, trace, Immediate(env, hit, clientSwing, mode).effects);
      trace := trace + Immediate(env, hit, clientSwing, mode).effects;
      assert effects == before + trace;
      if rotating {
        effects := effects + [Rotate(false, hit.pos)];
      }
      RegroupEffects(before, trace, When(rotating, Rotate(false, hit.pos)));
      trace := trace + When(rotating, Rotate(false, hit.pos));
      assert effects == before + trace;
      if isSpoofing {
        effects := effects + [SyncToClient];
      }
      RegroupEffects(before, trace, When(isSpoofing, SyncToClient));
      trace := trace + When(isSpoofing, SyncToClient);
      assert trace == PlacementHit(env, hit, slot, clientSwing, rotating, mode).effects;
    }

    /** placeBlockImmediately / placeBlockImmediatelyPacket. */
    method PlaceBlockImmediately(env: Env, hit: BlockHitResult, clientSwing: bool, mode: Mode)
      returns (ok: bool)
      modifies this
      ensures effects == old(effects) + Immediate(env, hit, clientSwing, mode).effects
      ensures ok == Immediate(env, hit, clientSwing, mode).accepted
    {
      var result: ActionResult;
      if mode == Local {
        result := InteractBlockLocally(env, hit);
      } else {
        result := SendPlacePacket(hit);
      }
      if result.accepted && result.shouldSwingHand {
        if clientSwing {
          effects := effects + [SwingLocal];
        } else {
          effects := effects + [SwingPacket];
        }
      }
      ok := result.accepted;
    }

    /** placeBlockInternally: the engine's own interactBlock. */
    method InteractBlockLocally(env: Env, hit: BlockHitResult) returns (result: ActionResult)
      modifies this
      ensures effects == old(effects) + [Interact(hit)]
      ensures result == env.interactBlock(hit)
    {
      effects := effects + [Interact(hit)];
      result := env.interactBlock(hit);
    }

    /** The private placeBlockPacket: one sequenced interact packet, always SUCCESS. */
    method SendPlacePacket(hit: BlockHitResult) returns (result: ActionResult)
      modifies this
      ensures effects == old(effects) + [SendInteractPacket(hit)]
      ensures result.accepted && result.shouldSwingHand
    {
      effects := effects + [SendInteractPacket(hit)];
      result := Success;
    }
  }
}
