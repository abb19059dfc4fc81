/** What every critical section of the drive keeps, and what its history may hold. */
module DriveInvariant {
  import opened Machine
  import opened PermissionSpec
  import opened DriveSpec

  // ---------- Histories ----------

  /** What a history amounts to; `zeroes` counts the zeros just taken by wheels 0, 1, 2 and so on. */
  datatype History = History(isSealed: bool, applied: bool, identity: Identity, lease: U64, zeroes: nat)

  function Add(h: History, e: Event): History {
    match e
    case Opened(id) => History(false, false, id, 0, 0)
    case Granted(_, issued) => h.(lease := issued, zeroes := 0)
    case Sealed => h.(isSealed := true, applied := false, lease := 0, zeroes := 0)
    case WroteZero(w, taken) =>
      h.(zeroes := if !taken then 0 else if w == h.zeroes then w + 1 else if w == 0 then 1 else 0)
    case ZeroApplied => h.(applied := true)
    case Wrote(_, _, _, _) => h.(zeroes := 0)
  }

  function Summarize(c: DriveConfig, log: seq<Event>): History {
    if log == [] then History(c.mode != Unscoped, false, NOBODY, 0, 0)
    else Add(Summarize(c, log[..|log| - 1]), log[|log| - 1])
  }

  /** A write of a speed: the drive is open, and what the speed was made of carries the open scope. */
  predicate MayWrite(c: DriveConfig, h: History, e: Event)
    requires e.Wrote?
  {
    && !h.isSealed && e.wheel < c.Wheels() && e.from <= {h.identity}
    && if c.mode == OwnerPermission then
         e.at.Some? && 0 < h.lease <= e.at.value && h.lease <= MAX_U64 - LIFETIME_NS
           && e.at.value < h.lease + LIFETIME_NS
       else e.at.None?
  }

  /** Whether an event may follow a history. */
  predicate Fits(c: DriveConfig, h: History, e: Event) {
    match e
    case Opened(id) =>
      c.mode != Unscoped && h.isSealed && h.applied && id.generation == h.identity.generation + 1 && IsScope(id.scopeId)
    case Granted(id, issued) => c.mode == OwnerPermission && !h.isSealed && id == h.identity && issued > 0
    case Sealed => !h.isSealed
    case WroteZero(_, _) => h.isSealed
    case ZeroApplied => h.isSealed && !h.applied && h.zeroes == c.Wheels()
    case Wrote(_, _, _, _) => MayWrite(c, h, e)
  }

  predicate IsHistory(c: DriveConfig, log: seq<Event>) {
    log == [] || (IsHistory(c, log[..|log| - 1]) && Fits(c, Summarize(c, log[..|log| - 1]), log[|log| - 1]))
  }

  lemma Extends(c: DriveConfig, log: seq<Event>, e: Event)
    ensures Summarize(c, log + [e]) == Add(Summarize(c, log), e)
    ensures IsHistory(c, log + [e]) <==> IsHistory(c, log) && Fits(c, Summarize(c, log), e)
  {
    assert (log + [e])[..|log|] == log;
  }

  // ---------- The drive ----------

  predicate TargetIsOwn(s: DriveState) {
    && s.target.from <= {Current(s)}
    && (s.target.from == {} ==> s.target.x == 0.0 && s.target.rot == 0.0)
    && (s.isSealed ==> s.target == NO_TARGET)
  }

  predicate WheelIsOwn(w: Wheel, id: Identity) {
    w.desiredFrom <= {id} && w.instrFrom <= {id} && (w.desiredFrom == {} ==> w.desired == 0.0)
  }

  /** Speeds are made of commands of the current scope only; none is left once zero is applied. */
  predicate WheelsAreOwn(s: DriveState) {
    && (s.config.mode != Unscoped || !s.isSealed ==>
          forall w :: 0 <= w < |s.wheels| ==> WheelIsOwn(s.wheels[w], Current(s)))
    && (s.isSealed && s.applied ==> forall w :: 0 <= w < |s.wheels| ==> s.wheels[w] == STILL)
  }

  /** Under a permission the drive is sealed exactly when the permission is not active. */
  predicate PermissionAgrees(s: DriveState) {
    && Holds(s.permission) && s.permission.lifetime == LIFETIME_NS
    && (s.config.mode == OwnerPermission ==>
          && (s.isSealed <==> s.permission.mode != Active)
          && s.permission.identity == Current(s))
  }

  predicate ScopeAgrees(s: DriveState) {
    && (s.config.mode == Unscoped ==> s.generation == 0 && s.operationId == 0 && (!s.isSealed ==> Current(s) == NOBODY))
    && (s.applied ==> s.isSealed)
  }

  predicate HistoryAgrees(s: DriveState, h: History) {
    && h.isSealed == s.isSealed && h.applied == s.applied
    && (s.config.mode != Unscoped || !s.isSealed ==> h.identity == Current(s))
    && (s.permission.mode == Active && s.config.mode == OwnerPermission ==> h.lease == s.permission.issued)
  }

  predicate DriveInv(s: DriveState) {
    && IsShaped(s) && TargetIsOwn(s) && WheelsAreOwn(s) && PermissionAgrees(s) && ScopeAgrees(s)
    && IsHistory(s.config, s.log) && HistoryAgrees(s, Summarize(s.config, s.log))
  }

  lemma NewDriveIsValid(config: DriveConfig)
    requires config.Valid()
    ensures DriveInv(NewDrive(config))
  {
  }

  // ---------- Sealing and opening ----------

  lemma SealKeeps(s: DriveState)
    requires DriveInv(s) && !s.isSealed && s.config.mode == Generations
    ensures DriveInv(Seal(s))
  {
    hide IsHistory, Summarize, Holds;
    Extends(s.config, s.log, Sealed);
  }

  /** The permission has just stopped being active; the drive follows. */
  lemma SealWheelsKeeps(s: DriveState, p: Permission)
    requires DriveInv(s) && !s.isSealed && s.config.mode == OwnerPermission
    requires Holds(p) && p.lifetime == LIFETIME_NS && p.mode != Active && p.identity == s.permission.identity
    ensures DriveInv(SealWheels(s.(permission := p)))
  {
    hide IsHistory, Summarize, Holds;
    Extends(s.config, s.log, Sealed);
  }

  lemma OpenForKeeps(s: DriveState, id: Identity)
    requires DriveInv(s) && s.isSealed && s.applied && s.config.mode == Generations
    requires id.generation == s.generation + 1 && IsScope(id.scopeId) && id.operationId == s.operationId
    ensures DriveInv(OpenFor(s, id))
  {
    hide IsHistory, Summarize, Holds;
    Extends(s.config, s.log, Opened(id));
  }

  lemma CloseScopeKeeps(s: DriveState, scope: string)
    requires DriveInv(s)
    ensures DriveInv(CloseScope(s, scope).0)
  {
    hide IsHistory, Summarize, Holds;
    Extends(s.config, s.log, Sealed);
  }

  lemma GenerationCallsKeep(s: DriveState, scope: string, n: U64)
    requires DriveInv(s)
    ensures DriveInv(OpenScope(s, scope, n).0) && DriveInv(CloseGeneration(s, scope, n).0)
  {
    hide DriveInv, Seal, OpenFor;
    if CloseGeneration(s, scope, n).0 != s { SealKeeps(s); }
    if OpenScope(s, scope, n).0 != s { OpenForKeeps(s, Identity(scope, s.generation + 1, s.operationId)); }
  }

  // ---------- Permission calls ----------

  /** A permission that observed something: the same lease, or no longer active. */
  predicate Observed(p: Permission, q: Permission) {
    && Holds(q) && q.lifetime == p.lifetime && q.identity == p.identity
    && (q.mode == Active ==> p.mode == Active && q.issued == p.issued)
    && (q.mode != Active && p.mode == Active ==> q.mode == FaultClosed)
  }

  lemma SyncKeeps(s: DriveState, q: Permission)
    requires DriveInv(s) && s.config.mode == OwnerPermission && Observed(s.permission, q)
    ensures DriveInv(Sync(s.(permission := q)))
    ensures Sync(s.(permission := q)).permission == q
            && (q.mode == Active ==> Sync(s.(permission := q)) == s.(permission := q))
    ensures q.mode != Active ==> Sync(s.(permission := q)).isSealed
  {
    hide IsHistory, Summarize, Holds;
    if q.mode == FaultClosed && !s.isSealed { SealWheelsKeeps(s, q); }
  }

  lemma ObservingKeeps(p: Permission, now: U64)
    requires Holds(p)
    ensures Observed(p, ObserveTime(p, now))
  {
  }

  lemma RenewPermitKeeps(s: DriveState, id: Identity, issued: U64, now: U64)
    requires DriveInv(s) && s.config.mode == OwnerPermission
    ensures DriveInv(RenewPermit(s, id, issued, now).0)
  {
    var (p, accepted) := Renew(s.permission, id, issued, now);
    CallKeeps(s.permission, RenewCall(id, issued, now));
    if accepted {
      Extends(s.config, s.log, Granted(id, issued));
    } else {
      ObservingKeeps(s.permission, now);
      SyncKeeps(s, p);
    }
  }

  lemma ClosePermitKeeps(s: DriveState, id: Identity, now: U64)
    requires DriveInv(s) && s.config.mode == OwnerPermission
    ensures DriveInv(ClosePermit(s, id, now).0)
  {
    hide SealWheels, IsHistory, Summarize, Holds;
    var (p, accepted) := Close(s.permission, id, now);
    ObservingKeeps(s.permission, now);
    CallKeeps(s.permission, CloseCall(id, now));
    var q := ObserveTime(s.permission, now);
    if accepted && q.mode == Active {
      SealWheelsKeeps(s, p);
    } else {
      SyncKeeps(s, q);
    }
  }

  lemma OpenPermitKeeps(s: DriveState, scope: string, expected: U64, operation: U64, issued: U64, now: U64)
    requires DriveInv(s) && s.config.mode == OwnerPermission
    ensures DriveInv(OpenPermit(s, scope, expected, operation, issued, now).0)
  {
    var id := Identity(scope, Increment(expected), operation);
    var (p, accepted) := Open(s.permission, id, expected, issued, now, s.applied);
    ObservingKeeps(s.permission, now);
    CallKeeps(s.permission, OpenCall(id, expected, issued, now, s.applied));
    if accepted && s.isSealed {
      Extends(s.config, s.log, Opened(id));
      Extends(s.config, s.log + [Opened(id)], Granted(id, issued));
    } else {
      assert Observed(s.permission, p);
      SyncKeeps(s, p);
    }
  }

  // ---------- Commands ----------

  lemma AimKeeps(s: DriveState, c: Command)
    requires DriveInv(s) && !s.isSealed && c.stamp == Current(s)
    ensures DriveInv(Aim(s, c))
  {
    hide IsHistory, Summarize, Holds;
  }

  lemma CommandsKeep(s: DriveState, c: Command)
    requires DriveInv(s)
    ensures DriveInv(OnCmdVel(s, c.x, c.rot)) && DriveInv(OnScopedCmd(s, c)) && DriveInv(Reset(s))
  {
    hide IsHistory, Summarize, Holds;
  }

  lemma PermittedCommandKeeps(s: DriveState, c: Command, now: U64)
    requires DriveInv(s) && s.config.mode == OwnerPermission
    ensures DriveInv(OnPermittedCmd(s, c, now))
  {
    var (p, allowed) := CanConsume(s.permission, c.stamp, now);
    ObservingKeeps(s.permission, now);
    SyncKeeps(s, p);
    assert s.permission.identity == Current(s);
    var t := Sync(s.(permission := p));
    if allowed && !t.isSealed { AimKeeps(t, c); }
  }

  // ---------- The update ----------

  lemma {:induction false} ZeroWritesExtend(c: DriveConfig, log: seq<Event>, n: nat, taken: seq<bool>)
    returns (zeroes: nat)
    requires IsHistory(c, log) && Summarize(c, log).isSealed
    ensures IsHistory(c, log + ZeroWrites(n, taken))
    ensures Summarize(c, log + ZeroWrites(n, taken)) == Summarize(c, log).(zeroes := zeroes)
    ensures n > 0 && AllTaken(n, taken) ==> zeroes == n
  {
    hide IsHistory, Summarize;
    if n == 0 {
      assert log + [] == log;
      zeroes := Summarize(c, log).zeroes;
    } else {
      var before := log + ZeroWrites(n - 1, taken);
      var z := ZeroWritesExtend(c, log, n - 1, taken);
      assert log + ZeroWrites(n, taken) == before + [WroteZero(n - 1, Takes(taken, n - 1))];
      Extends(c, before, WroteZero(n - 1, Takes(taken, n - 1)));
      zeroes := Summarize(c, log + ZeroWrites(n, taken)).zeroes;
    }
  }

  /** The wheels at rest, and what the zero writes add to the history. */
  lemma ZeroedKeeps(s: DriveState, log: seq<Event>, zeroes: nat)
    requires DriveInv(s) && s.isSealed && IsHistory(s.config, log)
    requires Summarize(s.config, log) == Summarize(s.config, s.log).(zeroes := zeroes)
    ensures DriveInv(s.(wheels := Still(|s.wheels|), log := log))
  {
    hide IsHistory, Summarize, Holds;
  }

  lemma AppliedKeeps(s: DriveState)
    requires DriveInv(s) && s.isSealed && !s.applied && Summarize(s.config, s.log).zeroes == s.config.Wheels()
    requires forall w :: 0 <= w < |s.wheels| ==> s.wheels[w] == STILL
    ensures DriveInv(Note(s.(applied := true), ZeroApplied))
  {
    hide IsHistory, Summarize, Holds;
    Extends(s.config, s.log, ZeroApplied);
  }

  /** Zeroing keeps everything; zero counts as applied only once every wheel took it. */
  lemma ApplyZeroKeeps(s: DriveState, taken: seq<bool>)
    requires DriveInv(s) && s.isSealed
    ensures var t := ApplyZero(s, taken);
      && DriveInv(t) && t.isSealed && t.permission == s.permission && Current(t) == Current(s)
      && (AllTaken(|s.wheels|, taken) ==> t.applied)
  {
    var n := |s.wheels|;
    assert n == s.config.Wheels() && n > 0 && Summarize(s.config, s.log).isSealed;
    var zeroes := ZeroWritesExtend(s.config, s.log, n, taken);
    ZeroedKeeps(s, s.log + ZeroWrites(n, taken), zeroes);
    var t := s.(wheels := Still(n), log := s.log + ZeroWrites(n, taken));
    if AllTaken(n, taken) && !s.applied { AppliedKeeps(t); }
  }

  lemma ConsultKeeps(s: DriveState, input: UpdateInput)
    requires DriveInv(s)
    ensures DriveInv(Consult(s, input))
  {
    ObservingKeeps(s.permission, input.Clock(0));
    if s.config.mode == OwnerPermission { SyncKeeps(s, CanConsume(s.permission, Current(s), input.Clock(0)).0); }
  }

  predicate AllOwn(wheels: seq<Wheel>, id: Identity) {
    forall w :: 0 <= w < |wheels| ==> WheelIsOwn(wheels[w], id)
  }

  lemma ReplacedWheelsKeep(s: DriveState, wheels: seq<Wheel>)
    requires DriveInv(s) && !s.isSealed && |wheels| == |s.wheels| && AllOwn(wheels, Current(s))
    ensures DriveInv(s.(wheels := wheels))
  {
    hide IsHistory, Summarize, Holds;
  }

  /** Speeds taken from the target are made of what the target is made of. */
  lemma {:induction false} DesiredIsOwn(s: DriveState, pairs: nat)
    requires IsShaped(s) && pairs <= |s.config.separation| && AllOwn(s.wheels, Current(s))
    requires s.target.from <= {Current(s)} && (s.target.from == {} ==> s.target.x == 0.0 && s.target.rot == 0.0)
    ensures AllOwn(Desire(s, pairs).wheels, Current(s))
  {
    if pairs == 0 {
    } else {
      DesiredIsOwn(s, pairs - 1);
      StoppedTarget(s.target, s.config.separation[pairs - 1]);
      var t, u := Desire(s, pairs - 1), Desire(s, pairs);
      forall w | 0 <= w < |u.wheels| ensures WheelIsOwn(u.wheels[w], Current(s)) {
        assert WheelIsOwn(t.wheels[w], Current(s));
      }
    }
  }

  lemma DesireKeeps(s: DriveState)
    requires DriveInv(s) && !s.isSealed
    ensures DriveInv(Desire(s, |s.config.separation|))
  {
    var t := Desire(s, |s.config.separation|);
    DesiredIsOwn(s, |s.config.separation|);
    assert IsShaped(t) && |t.wheels| == |s.wheels|;
    ReplacedWheelsKeep(s, t.wheels);
  }

  lemma StoppedTarget(t: Target, separation: real)
    requires t.from == {} ==> t.x == 0.0 && t.rot == 0.0
    ensures t.from == {} ==> t.x - HalfTurn(t.rot, separation) == 0.0 && t.x + HalfTurn(t.rot, separation) == 0.0
  {
    if t.from == {} { assert t.rot * separation == 0.0; }
  }

  /** What may be handed to a wheel is made of the current scope's commands only. */
  predicate IsOwnSpeed(s: DriveState, from: set<Identity>) {
    from <= {Current(s)}
  }

  lemma WroteKeeps(s: DriveState, p: Permission, e: Event)
    requires DriveInv(s) && !s.isSealed && e.Wrote? && e.wheel < s.config.Wheels()
    requires IsOwnSpeed(s, e.from)
    requires if s.config.mode == OwnerPermission then
               && Observed(s.permission, p) && p.mode == Active && e.at.Some?
               && 0 < p.issued <= e.at.value && p.issued <= MAX_U64 - LIFETIME_NS && e.at.value < p.issued + LIFETIME_NS
             else p == s.permission && e.at.None?
    ensures DriveInv(Note(s.(permission := p), e))
  {
    hide IsHistory, Summarize, Holds;
    assert e.from == {} || e.from == {Current(s)};
    Extends(s.config, s.log, e);
  }

  lemma WriteWheelKeeps(s: DriveState, w: nat, value: real, from: set<Identity>, now: U64, taken: seq<bool>)
    requires DriveInv(s) && !s.isSealed && w < s.config.Wheels() && IsOwnSpeed(s, from)
    ensures var (t, ok) := WriteWheel(s, w, value, from, now, taken);
      DriveInv(t) && (ok ==> !t.isSealed && Current(t) == Current(s) && t.wheels == s.wheels)
  {
    var (p, allowed) := CanConsume(s.permission, Current(s), now);
    assert PermissionAgrees(s);
    ObservingKeeps(s.permission, now);
    LeaseIsOpen(s.permission, now);
    if s.config.mode != OwnerPermission { WroteKeeps(s, s.permission, Wrote(w, value, from, None)); }
    else if allowed { WroteKeeps(s, p, Wrote(w, value, from, Some(now))); }
    else {
      SyncKeeps(s, p);
      var t := Sync(s.(permission := p));
      ApplyZeroKeeps(t, taken);
    }
  }

  /** A permission still active after looking at the clock covers that time. */
  lemma LeaseIsOpen(p: Permission, now: U64)
    requires Holds(p)
    ensures p.mode == Active && ObserveTime(p, now).mode == Active ==>
              0 < p.issued <= now && p.issued <= MAX_U64 - p.lifetime && now < p.issued + p.lifetime
  {
  }

  lemma PlanIsOwn(s: DriveState, i: nat, left: real, right: real, limit: real)
    requires DriveInv(s) && !s.isSealed && i < |s.config.radius|
    ensures var p := PlanPair(s, i, left, right, limit);
      && DriveInv(s.(wheels := p.wheels))
      && IsOwnSpeed(s, p.leftFrom) && IsOwnSpeed(s, p.rightFrom)
  {
    hide IsHistory, Summarize, Holds;
    var p := PlanPair(s, i, left, right, limit);
    assert WheelIsOwn(s.wheels[2 * i + 1], Current(s)) && WheelIsOwn(s.wheels[2 * i], Current(s));
    var t := s.(wheels := p.wheels);
    forall w | 0 <= w < |t.wheels| ensures WheelIsOwn(t.wheels[w], Current(t)) {
      assert WheelIsOwn(s.wheels[w], Current(s));
    }
  }

  lemma PlanWritten(s: DriveState, i: nat, p: Plan, input: UpdateInput)
    requires DriveInv(s) && !s.isSealed && 2 * i + 1 < s.config.Wheels()
    requires IsOwnSpeed(s, p.leftFrom) && IsOwnSpeed(s, p.rightFrom)
    ensures var (t, ok) := WritePlan(s, i, p, input); DriveInv(t) && (ok ==> !t.isSealed)
  {
    hide DriveInv, WriteWheel;
    WriteWheelKeeps(s, 2 * i + 1, p.left, p.leftFrom, input.Clock(2 * i + 1), input.zeroTaken);
    var (t, ok) := WriteWheel(s, 2 * i + 1, p.left, p.leftFrom, input.Clock(2 * i + 1), input.zeroTaken);
    if ok { WriteWheelKeeps(t, 2 * i, p.right, p.rightFrom, input.Clock(2 * i + 2), input.zeroTaken); }
  }

  lemma WritePairKeeps(s: DriveState, i: nat, input: UpdateInput)
    requires DriveInv(s) && !s.isSealed && IsShaped(s) && i < |s.config.radius|
    ensures var (t, ok) := WritePair(s, i, input); DriveInv(t) && (ok ==> !t.isSealed)
  {
    hide Reach, DriveInv, WritePlan, PlanPair;
    var left, right, limit := input.Speed(2 * i + 1), input.Speed(2 * i), Reach(s.config.maxAccel, input.seconds);
    PlanIsOwn(s, i, left, right, limit);
    var p := PlanPair(s, i, left, right, limit);
    PlanWritten(s.(wheels := p.wheels), i, p, input);
  }

  lemma {:induction false} WritePairsKeep(s: DriveState, pairs: nat, input: UpdateInput)
    requires DriveInv(s) && !s.isSealed && IsShaped(s) && pairs <= |s.config.radius|
    ensures var (t, ok) := WritePairs(s, pairs, input); DriveInv(t) && (ok ==> !t.isSealed)
    decreases pairs
  {
    hide DriveInv, WritePair, IsShaped;
    if pairs == 0 {
    } else {
      WritePairsKeep(s, pairs - 1, input);
      var (t, ok) := WritePairs(s, pairs - 1, input);
      if ok { WritePairKeeps(t, pairs - 1, input); }
    }
  }

  lemma UpdateKeeps(s: DriveState, input: UpdateInput)
    requires DriveInv(s)
    ensures IsShaped(s) && DriveInv(OnUpdate(s, input))
  {
    assert IsShaped(s);
    ConsultKeeps(s, input);
    var t := Consult(s, input);
    assert IsShaped(t);
    if t.isSealed { ApplyZeroKeeps(t, input.zeroTaken); }
    else {
      DesireKeeps(t);
      WritePairsKeep(Desire(t, |t.config.separation|), |t.config.radius|, input);
    }
  }
}
