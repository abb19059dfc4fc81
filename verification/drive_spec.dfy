/**
 The scoped drive as functions on its state: sealing, opening, zeroing, commands, and the update
 that writes the wheels. Every call is one critical section under the drive's lock. `log` is the
 history the theorems speak of; `from` records which commands a speed was made of.
 */
module DriveSpec {
  import opened Machine
  import opened PermissionSpec

  /** One way of driving each: anyone until sealed, one scope per generation, or under a permission. */
  datatype DriveMode = Unscoped | Generations | OwnerPermission

  const LIFETIME_NS: U64 := 1_000_000_000

  /** Wheels come in pairs: the right one of pair i is wheel 2i, the left one wheel 2i + 1. */
  datatype DriveConfig = DriveConfig(mode: DriveMode, separation: seq<real>, radius: seq<real>, maxAccel: real)
  {
    predicate Valid() {
      && |separation| == |radius| > 0
      && forall i :: 0 <= i < |radius| ==> radius[i] != 0.0
    }

    function Wheels(): nat {
      2 * |radius|
    }
  }

  datatype Target = Target(x: real, rot: real, from: set<Identity>)

  datatype Wheel = Wheel(desired: real, desiredFrom: set<Identity>, instr: real, instrFrom: set<Identity>)

  const NO_TARGET := Target(0.0, 0.0, {})
  const STILL := Wheel(0.0, {}, 0.0, {})

  datatype Event =
    | Opened(identity: Identity)
    | Granted(holder: Identity, issued: U64)
    | Sealed
    | WroteZero(zeroWheel: nat, taken: bool)
    | ZeroApplied
    | Wrote(wheel: nat, value: real, from: set<Identity>, at: Option<U64>)

  datatype DriveState = DriveState(
    config: DriveConfig,
    permission: Permission,
    scope: string,
    generation: U64,
    operationId: U64,
    isSealed: bool,
    applied: bool,
    target: Target,
    wheels: seq<Wheel>,
    log: seq<Event>)

  function Still(n: nat): (wheels: seq<Wheel>)
    ensures |wheels| == n && forall i :: 0 <= i < n ==> wheels[i] == STILL
  {
    seq(n, _ => STILL)
  }

  function NewDrive(config: DriveConfig): DriveState {
    DriveState(config, NewPermission(LIFETIME_NS), "", 0, 0, config.mode != Unscoped, false, NO_TARGET,
               Still(config.Wheels()), [])
  }

  function Current(s: DriveState): Identity {
    Identity(s.scope, s.generation, s.operationId)
  }

  function Note(s: DriveState, e: Event): DriveState {
    s.(log := s.log + [e])
  }

  // ---------- Sealing and opening ----------

  function Seal(s: DriveState): DriveState {
    Note(s.(isSealed := true, applied := false, target := NO_TARGET), Sealed)
  }

  /** Sealing under a permission forgets the wheels' speeds at once. */
  function SealWheels(s: DriveState): DriveState {
    Seal(s).(wheels := Still(|s.wheels|))
  }

  function Sync(s: DriveState): DriveState {
    if s.permission.mode == FaultClosed && !s.isSealed then SealWheels(s) else s
  }

  function OpenFor(s: DriveState, id: Identity): DriveState {
    Note(s.(scope := id.scopeId, generation := id.generation, operationId := id.operationId,
            target := NO_TARGET, applied := false, isSealed := false),
         Opened(id))
  }

  /** The one-shot seal of the unscoped drive. */
  function CloseScope(s: DriveState, scope: string): (DriveState, bool) {
    if s.config.mode != Unscoped || !IsScope(scope) || (s.isSealed && s.scope != scope) then (s, false)
    else if s.isSealed then (s, true)
    else (Note(s.(scope := scope, isSealed := true, target := NO_TARGET), Sealed), true)
  }

  function OpenScope(s: DriveState, scope: string, expected: U64): (DriveState, bool) {
    if s.config.mode != Generations || expected == MAX_U64 || !IsScope(scope) then (s, false)
    else if !s.isSealed && s.generation == expected + 1 && s.scope == scope then (s, true)
    else if s.generation != expected || !s.isSealed || !s.applied then (s, false)
    else (OpenFor(s, Identity(scope, s.generation + 1, s.operationId)), true)
  }

  function CloseGeneration(s: DriveState, scope: string, generation: U64): (DriveState, bool) {
    if s.config.mode != Generations || s.generation == 0 || generation != s.generation || scope != s.scope
    then (s, false)
    else (if s.isSealed then s else Seal(s), true)
  }

  function OpenPermit(s: DriveState, scope: string, expected: U64, operation: U64, issued: U64, now: U64)
    : (DriveState, bool)
  {
    var id := Identity(scope, Increment(expected), operation);
    var (p, accepted) := Open(s.permission, id, expected, issued, now, s.applied);
    var t := Sync(s.(permission := p));
    (if accepted && s.isSealed then Note(OpenFor(t, id), Granted(id, issued)) else t, accepted)
  }

  function RenewPermit(s: DriveState, id: Identity, issued: U64, now: U64): (DriveState, bool) {
    var (p, accepted) := Renew(s.permission, id, issued, now);
    var t := Sync(s.(permission := p));
    (if accepted then Note(t, Granted(id, issued)) else t, accepted)
  }

  function ClosePermit(s: DriveState, id: Identity, now: U64): (DriveState, bool) {
    var (p, accepted) := Close(s.permission, id, now);
    var t := Sync(s.(permission := p));
    (if accepted && !t.isSealed then SealWheels(t) else t, accepted)
  }

  // ---------- Commands ----------

  /** A velocity command; `finite` is whether both numbers are. */
  datatype Command = Command(stamp: Identity, x: real, rot: real, finite: bool)

  function Aim(s: DriveState, c: Command): DriveState {
    s.(target := Target(c.x, c.rot, {c.stamp}))
  }

  /** An unscoped command carries nobody's stamp. */
  function OnCmdVel(s: DriveState, x: real, rot: real): DriveState {
    if s.config.mode != Unscoped || s.isSealed then s else Aim(s, Command(NOBODY, x, rot, true))
  }

  /** A scoped command carries scope and generation. */
  function OnScopedCmd(s: DriveState, c: Command): DriveState {
    if s.config.mode != Generations || s.generation == 0 || s.isSealed || c.stamp.generation != s.generation
       || c.stamp.scopeId != s.scope || !c.finite then s
    else Aim(s, c.(stamp := c.stamp.(operationId := s.operationId)))
  }

  function OnPermittedCmd(s: DriveState, c: Command, now: U64): DriveState {
    var (p, allowed) := CanConsume(s.permission, c.stamp, now);
    var t := Sync(s.(permission := p));
    if !allowed || t.isSealed || !c.finite then t else Aim(t, c)
  }

  function Reset(s: DriveState): DriveState {
    s.(target := NO_TARGET)
  }

  // ---------- The update ----------

  /** What the simulation answers during one update. */
  datatype UpdateInput = UpdateInput(
    due: bool,
    seconds: real,
    clockReadings: seq<U64>,
    speeds: seq<real>,
    zeroTaken: seq<bool>)
  {
    /** The k-th reading of the clock. */
    function Clock(k: nat): U64 {
      if k < |clockReadings| then clockReadings[k] else 0
    }

    /** The measured speed of a wheel. */
    function Speed(w: nat): real {
      if w < |speeds| then speeds[w] else 0.0
    }
  }

  /** Whether a wheel takes zero. */
  predicate Takes(taken: seq<bool>, w: nat) {
    w < |taken| && taken[w]
  }

  function ZeroWrites(n: nat, taken: seq<bool>): seq<Event> {
    if n == 0 then [] else ZeroWrites(n - 1, taken) + [WroteZero(n - 1, Takes(taken, n - 1))]
  }

  predicate AllTaken(n: nat, taken: seq<bool>) {
    forall i :: 0 <= i < n ==> Takes(taken, i)
  }

  /** Zero to every wheel; applied once every wheel took it. */
  function ApplyZero(s: DriveState, taken: seq<bool>): DriveState {
    var t := s.(wheels := Still(|s.wheels|), log := s.log + ZeroWrites(|s.wheels|, taken));
    if AllTaken(|s.wheels|, taken) && !s.applied then Note(t.(applied := true), ZeroApplied) else t
  }

  /** One write to a wheel, admitted immediately before it where a permission is needed. */
  function WriteWheel(s: DriveState, w: nat, value: real, from: set<Identity>, now: U64, taken: seq<bool>)
    : (r: (DriveState, bool))
    ensures r.0.config == s.config && |r.0.wheels| == |s.wheels|
  {
    if s.config.mode != OwnerPermission then (Note(s, Wrote(w, value, from, None)), true)
    else
      var (p, allowed) := CanConsume(s.permission, Current(s), now);
      var t := s.(permission := p);
      if allowed then (Note(t, Wrote(w, value, from, Some(now))), true)
      else (ApplyZero(Sync(t), taken), false)
  }

  function Abs(x: real): real {
    if x < 0.0 then -x else x
  }

  function Min(a: real, b: real): real {
    if a < b then a else b
  }

  function MaxReal(a: real, b: real): real {
    if a < b then b else a
  }

  /** Half the difference a turn makes between the wheels of a pair. */
  function HalfTurn(rot: real, separation: real): real {
    rot * separation / 2.0
  }

  /** The turning speed of a wheel of this radius. */
  function Turning(speed: real, radius: real): (t: real)
    requires radius != 0.0
  {
    speed / radius
  }

  /** The most a speed may change in one step. */
  function Reach(maxAccel: real, seconds: real): real {
    maxAccel * seconds
  }

  predicate IsShaped(s: DriveState) {
    s.config.Valid() && |s.wheels| == s.config.Wheels()
  }

  /** A pair of wheels wants what a target asks of it. */
  function Aimed(wheels: seq<Wheel>, i: nat, target: Target, half: real): (w: seq<Wheel>)
    requires 2 * i + 1 < |wheels|
    ensures |w| == |wheels|
  {
    wheels[2 * i + 1 := wheels[2 * i + 1].(desired := target.x - half, desiredFrom := target.from)]
          [2 * i := wheels[2 * i].(desired := target.x + half, desiredFrom := target.from)]
  }

  /** Both wheels from the target, one pair after another. */
  function Desire(s: DriveState, pairs: nat): (t: DriveState)
    requires IsShaped(s) && pairs <= |s.config.separation|
    ensures IsShaped(t) && t == s.(wheels := t.wheels)
    decreases pairs
  {
    if pairs == 0 then s
    else
      var t := Desire(s, pairs - 1);
      var i := pairs - 1;
      t.(wheels := Aimed(t.wheels, i, t.target, HalfTurn(t.target.rot, t.config.separation[i])))
  }

  predicate IsNear(w: Wheel, speed: real) {
    Abs(w.desired - speed) < 0.01
  }

  /** What one step adds to an instruction: the gap to the desired speed, no further than the limit. */
  function Change(gap: real, rising: bool, limit: real): real {
    if rising then Min(gap, limit) else MaxReal(gap, -limit)
  }

  /** One acceleration-limited step towards the desired speed, from the measured one. */
  function Step(w: Wheel, speed: real, rising: bool, limit: real): Wheel {
    w.(instr := w.instr + Change(w.desired - speed, rising, limit),
       instrFrom := w.instrFrom + w.desiredFrom)
  }

  /** What a pair is about to be told: speeds, and what they were made of. */
  datatype Plan = Plan(wheels: seq<Wheel>, left: real, leftFrom: set<Identity>, right: real, rightFrom: set<Identity>)

  /** `left` and `right` are the measured speeds, `limit` the most a speed may change in this step. */
  function PlanPair(s: DriveState, i: nat, left: real, right: real, limit: real): (p: Plan)
    requires IsShaped(s) && i < |s.config.radius|
    ensures |p.wheels| == |s.wheels|
  {
    var l, r := s.wheels[2 * i + 1], s.wheels[2 * i];
    var radius := s.config.radius[i];
    if s.config.maxAccel == 0.0 || (IsNear(l, left) && IsNear(r, right)) then
      Plan(s.wheels, Turning(l.desired, radius), l.desiredFrom, Turning(r.desired, radius), r.desiredFrom)
    else
      var m := Step(l, left, l.desired >= left, limit);
      var n := Step(r, right, r.desired > right, limit);
      Plan(s.wheels[2 * i + 1 := m][2 * i := n], Turning(m.instr, radius), m.instrFrom, Turning(n.instr, radius),
           n.instrFrom)
  }

  /** Left, then right, unless the left write was not admitted. */
  function WritePlan(s: DriveState, i: nat, p: Plan, input: UpdateInput): (r: (DriveState, bool))
    ensures r.0.config == s.config && |r.0.wheels| == |s.wheels|
  {
    var (t, ok) := WriteWheel(s, 2 * i + 1, p.left, p.leftFrom, input.Clock(2 * i + 1), input.zeroTaken);
    if !ok then (t, false)
    else WriteWheel(t, 2 * i, p.right, p.rightFrom, input.Clock(2 * i + 2), input.zeroTaken)
  }

  function WritePair(s: DriveState, i: nat, input: UpdateInput): (r: (DriveState, bool))
    requires IsShaped(s) && i < |s.config.radius|
    ensures IsShaped(r.0) && r.0.config == s.config
  {
    var p := PlanPair(s, i, input.Speed(2 * i + 1), input.Speed(2 * i), Reach(s.config.maxAccel, input.seconds));
    WritePlan(s.(wheels := p.wheels), i, p, input)
  }

  /** The pairs written so far, and whether every write was admitted. */
  function WritePairs(s: DriveState, pairs: nat, input: UpdateInput): (r: (DriveState, bool))
    requires IsShaped(s) && pairs <= |s.config.radius|
    ensures IsShaped(r.0) && r.0.config == s.config
    decreases pairs
  {
    if pairs == 0 then (s, true)
    else
      var before := WritePairs(s, pairs - 1, input);
      if before.1 then WritePair(before.0, pairs - 1, input) else before
  }

  /** The permission is consulted before anything else. */
  function Consult(s: DriveState, input: UpdateInput): DriveState {
    if s.config.mode != OwnerPermission then s
    else Sync(s.(permission := CanConsume(s.permission, Current(s), input.Clock(0)).0))
  }

  function OnUpdate(s: DriveState, input: UpdateInput): DriveState
    requires IsShaped(s)
  {
    if !input.due then s
    else
      var t := Consult(s, input);
      if t.isSealed then ApplyZero(t, input.zeroTaken)
      else WritePairs(Desire(t, |t.config.separation|), |t.config.radius|, input).0
  }
}
