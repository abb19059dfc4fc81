/** The scoped drive, updated in place around its permission and its wheels, refining DriveSpec. */
module ScopedDrives {
  import opened Machine
  import opened PermissionSpec
  import opened MotionPermissions
  import S = DriveSpec
  import opened DriveSpec
  import opened DriveInvariant

  class ScopedDrive {
    const config: DriveConfig
    const permission: MotionPermission
    const wheels: array<Wheel>
    var scope: string
    var generation: U64
    var operationId: U64
    var isSealed: bool
    var applied: bool
    var target: Target
    ghost var log: seq<Event>

    ghost const Repr: set<object> := {this, permission, wheels}

    ghost function State(): DriveState
      reads this, permission, wheels
    {
      DriveState(config, permission.State(), scope, generation, operationId, isSealed, applied, target, wheels[..], log)
    }

    ghost predicate Sound()
      reads this, permission, wheels
    {
      config.Valid() && wheels.Length == config.Wheels() && permission.Valid()
    }

    ghost predicate Valid()
      reads this, permission, wheels
    {
      Sound() && DriveInv(State())
    }

    constructor (config: DriveConfig)
      requires config.Valid()
      ensures Valid() && fresh(permission) && fresh(wheels) && State() == NewDrive(config)
    {
      this.config := config;
      permission := new MotionPermission(LIFETIME_NS);
      wheels := new Wheel[config.Wheels()](_ => STILL);
      scope, generation, operationId, isSealed, applied := "", 0, 0, config.mode != Unscoped, false;
      target, log := NO_TARGET, [];
      new;
      assert wheels[..] == Still(config.Wheels());
      NewDriveIsValid(config);
    }

    method Seal()
      requires Sound()
      modifies `isSealed, `applied, `target, `log
      ensures State() == S.Seal(old(State()))
    {
      isSealed, applied, target := true, false, NO_TARGET;
      log := log + [Sealed];
    }

    /** Every wheel's speeds forgotten. */
    method ClearWheels()
      requires Sound()
      modifies wheels
      ensures State() == old(State()).(wheels := Still(wheels.Length))
    {
      for i := 0 to wheels.Length
        invariant forall w :: 0 <= w < i ==> wheels[w] == STILL
        modifies wheels
      {
        wheels[i] := STILL;
      }
      assert wheels[..] == Still(wheels.Length);
    }

    method SyncPermission()
      requires Sound()
      modifies `isSealed, `applied, `target, `log, wheels
      ensures State() == Sync(old(State()))
    {
      if permission.mode == FaultClosed && !isSealed {
        Seal();
        ClearWheels();
      }
    }

    method BeginScope(id: Identity)
      requires Sound()
      modifies `scope, `generation, `operationId, `isSealed, `applied, `target, `log
      ensures State() == OpenFor(old(State()), id)
    {
      scope, generation, operationId := id.scopeId, id.generation, id.operationId;
      target, applied, isSealed := NO_TARGET, false, false;
      log := log + [Opened(id)];
    }

    method CloseScope(closing: string) returns (accepted: bool)
      requires Valid()
      modifies this
      ensures Valid() && State() == S.CloseScope(old(State()), closing).0
              && accepted == S.CloseScope(old(State()), closing).1
      ensures accepted <==>
              config.mode == Unscoped && IsScope(closing) && (old(isSealed) ==> old(scope) == closing)
      ensures accepted ==> isSealed && scope == closing
      ensures !accepted ==> State() == old(State())
    {
      hide DriveInv;
      CloseScopeKeeps(State(), closing);
      if config.mode != Unscoped || !IsScope(closing) || (isSealed && scope != closing) { return false; }
      if !isSealed {
        scope, isSealed, target := closing, true, NO_TARGET;
        log := log + [Sealed];
      }
      return true;
    }

    method OpenScope(opening: string, expected: U64) returns (accepted: bool)
      requires Valid()
      modifies this
      ensures Valid() && State() == S.OpenScope(old(State()), opening, expected).0
      ensures accepted == S.OpenScope(old(State()), opening, expected).1
      ensures accepted <==>
              && config.mode == Generations && IsScope(opening) && expected < MAX_U64
              && if old(isSealed) then old(applied) && old(generation) == expected
                 else old(generation) == expected + 1 && old(scope) == opening
      ensures accepted ==> !isSealed && scope == opening && generation == expected + 1
      ensures accepted && old(isSealed) ==> !applied && target == Target(0.0, 0.0, {})
      ensures !accepted ==> State() == old(State())
    {
      hide DriveInv;
      GenerationCallsKeep(State(), opening, expected);
      if config.mode != Generations || expected == MAX_U64 || !IsScope(opening) { return false; }
      if !isSealed && generation == expected + 1 && scope == opening { return true; }
      if generation != expected || !isSealed || !applied { return false; }
      BeginScope(Identity(opening, generation + 1, operationId));
      return true;
    }

    method CloseGeneration(closing: string, number: U64) returns (accepted: bool)
      requires Valid()
      modifies this
      ensures Valid() && State() == S.CloseGeneration(old(State()), closing, number).0
      ensures accepted == S.CloseGeneration(old(State()), closing, number).1
      ensures accepted <==>
              config.mode == Generations && old(generation) == number > 0 && old(scope) == closing
      ensures accepted ==> isSealed && scope == closing && generation == number
      ensures !accepted ==> State() == old(State())
    {
      hide DriveInv;
      GenerationCallsKeep(State(), closing, number);
      if config.mode != Generations || generation == 0 || number != generation || closing != scope { return false; }
      if !isSealed { Seal(); }
      return true;
    }

    method OpenPermit(opening: string, expected: U64, operation: U64, issued: U64, now: U64) returns (accepted: bool)
      requires Valid() && config.mode == OwnerPermission
      modifies this, permission, wheels
      ensures Valid() && State() == S.OpenPermit(old(State()), opening, expected, operation, issued, now).0
      ensures accepted == S.OpenPermit(old(State()), opening, expected, operation, issued, now).1
      ensures accepted ==>
              permission.mode == Active && permission.identity.scopeId == opening && now < permission.deadline
    {
      hide DriveInv, OpenFor, Sync, PermissionSpec.Open;
      OpenPermitKeeps(State(), opening, expected, operation, issued, now);
      var id := Identity(opening, Increment(expected), operation);
      var retry := !isSealed;
      accepted := permission.Open(id, expected, issued, now, applied);
      SyncPermission();
      if accepted && !retry {
        BeginScope(id);
        log := log + [Granted(id, issued)];
      }
    }

    method RenewPermit(id: Identity, issued: U64, now: U64) returns (accepted: bool)
      requires Valid() && config.mode == OwnerPermission
      modifies this, permission, wheels
      ensures Valid() && State() == S.RenewPermit(old(State()), id, issued, now).0
      ensures accepted == S.RenewPermit(old(State()), id, issued, now).1
      ensures accepted ==> permission.mode == Active && permission.identity == id && now < permission.deadline
    {
      hide DriveInv, Sync, PermissionSpec.Renew;
      RenewPermitKeeps(State(), id, issued, now);
      accepted := permission.Renew(id, issued, now);
      SyncPermission();
      if accepted { log := log + [Granted(id, issued)]; }
    }

    method ClosePermit(id: Identity, now: U64) returns (accepted: bool)
      requires Valid() && config.mode == OwnerPermission
      modifies this, permission, wheels
      ensures Valid() && State() == S.ClosePermit(old(State()), id, now).0
      ensures accepted == S.ClosePermit(old(State()), id, now).1
      ensures accepted ==> permission.mode != Active && isSealed
    {
      hide DriveInv, Sync, PermissionSpec.Close;
      ClosePermitKeeps(State(), id, now);
      accepted := permission.Close(id, now);
      SyncPermission();
      if accepted && !isSealed {
        Seal();
        ClearWheels();
      }
    }

    method OnCmdVel(x: real, rot: real)
      requires Valid()
      modifies `target
      ensures Valid() && State() == S.OnCmdVel(old(State()), x, rot)
      ensures if config.mode == Unscoped && !isSealed then target.x == x && target.rot == rot && target.from == {NOBODY}
              else target == old(target)
    {
      hide DriveInv;
      CommandsKeep(State(), Command(NOBODY, x, rot, true));
      if config.mode != Unscoped || isSealed { return; }
      target := Target(x, rot, {NOBODY});
    }

    method OnScopedCmd(c: Command)
      requires Valid()
      modifies `target
      ensures Valid() && State() == S.OnScopedCmd(old(State()), c)
      ensures if && config.mode == Generations && !isSealed && generation > 0 && c.finite
                 && c.stamp.scopeId == scope && c.stamp.generation == generation then
                target.x == c.x && target.rot == c.rot && target.from == {Identity(scope, generation, operationId)}
              else target == old(target)
    {
      hide DriveInv;
      CommandsKeep(State(), c);
      if config.mode != Generations || generation == 0 || isSealed || c.stamp.generation != generation
         || c.stamp.scopeId != scope || !c.finite { return; }
      target := Target(c.x, c.rot, {c.stamp.(operationId := operationId)});
    }

    method OnPermittedCommand(c: Command, now: U64)
      requires Valid() && config.mode == OwnerPermission
      modifies this, permission, wheels
      ensures Valid() && State() == OnPermittedCmd(old(State()), c, now)
      ensures if && old(permission.mode) == Active && old(permission.observed) <= now < old(permission.deadline)
                 && c.stamp == old(permission.identity) && c.finite && !old(isSealed) then
                target.x == c.x && target.rot == c.rot && target.from == {c.stamp}
              else target == old(target) || (target == Target(0.0, 0.0, {}) && isSealed)
    {
      hide DriveInv;
      PermittedCommandKeeps(State(), c, now);
      var allowed := permission.CanConsume(c.stamp, now);
      SyncPermission();
      if !allowed || isSealed || !c.finite { return; }
      target := Target(c.x, c.rot, {c.stamp});
    }

    method Reset()
      requires Valid()
      modifies `target
      ensures Valid() && State() == S.Reset(old(State()))
    {
      CommandsKeep(State(), Command(NOBODY, 0.0, 0.0, true));
      target := NO_TARGET;
    }

    /** Zero to every wheel, whether it takes it or not; applied once all of them took it. */
    method ApplyZero(taken: seq<bool>)
      requires Sound()
      modifies `applied, `log, wheels
      ensures State() == S.ApplyZero(old(State()), taken)
    {
      ghost var before := log;
      var accepted := true;
      for i := 0 to wheels.Length
        invariant accepted <==> AllTaken(i, taken)
        invariant log == before + ZeroWrites(i, taken)
        invariant forall w :: 0 <= w < i ==> wheels[w] == STILL
        modifies `log, wheels
      {
        var wrote := Takes(taken, i);
        log := log + [WroteZero(i, wrote)];
        accepted := wrote && accepted;
        wheels[i] := STILL;
      }
      assert wheels[..] == Still(wheels.Length);
      if accepted && !applied {
        applied := true;
        log := log + [ZeroApplied];
      }
    }

    /** The desired speeds of one pair, from the target. */
    method DesirePair(i: nat)
      requires Sound() && i < |config.separation|
      modifies wheels
      ensures wheels[..] == Aimed(old(wheels[..]), i, target, HalfTurn(target.rot, config.separation[i]))
    {
      hide HalfTurn;
      var half := HalfTurn(target.rot, config.separation[i]);
      wheels[2 * i + 1] := wheels[2 * i + 1].(desired := target.x - half, desiredFrom := target.from);
      wheels[2 * i] := wheels[2 * i].(desired := target.x + half, desiredFrom := target.from);
    }

    /** The desired speeds of all wheels. */
    method UpdateWheelVelocities()
      requires Sound()
      modifies wheels
      ensures IsShaped(old(State())) && State() == Desire(old(State()), |config.separation|)
    {
      hide HalfTurn, Aimed, Desire;
      ghost var before := State();
      DesireOneMore(before, 0);
      for i := 0 to |config.separation|
        invariant wheels[..] == Desire(before, i).wheels
        modifies wheels
      {
        DesireOneMore(before, i);
        DesirePair(i);
      }
    }

    /** One write, admitted immediately before it; otherwise every wheel is zeroed instead. */
    method WritePermitted(w: nat, value: real, from: set<Identity>, now: U64, taken: seq<bool>)
      returns (wrote: bool)
      requires Sound()
      modifies this, permission, wheels
      ensures Sound()
      ensures State() == WriteWheel(old(State()), w, value, from, now, taken).0
      ensures wrote == WriteWheel(old(State()), w, value, from, now, taken).1
    {
      hide S.ApplyZero, Sync, PermissionSpec.CanConsume;
      if config.mode != OwnerPermission {
        log := log + [Wrote(w, value, from, None)];
        return true;
      }
      var allowed := permission.CanConsume(Identity(scope, generation, operationId), now);
      if !allowed {
        SyncPermission();
        ApplyZero(taken);
        return false;
      }
      log := log + [Wrote(w, value, from, Some(now))];
      return true;
    }

    /** The speeds a pair is about to be told, limited in acceleration where they are far off. */
    method ChoosePair(i: nat, left: real, right: real, limit: real) returns (p: Plan)
      requires Sound() && i < |config.radius|
      modifies wheels
      ensures IsShaped(old(State())) && p == PlanPair(old(State()), i, left, right, limit)
      ensures State() == old(State()).(wheels := p.wheels)
    {
      hide Turning, Step, Abs;
      ghost var was := wheels[..];
      var l, r := wheels[2 * i + 1], wheels[2 * i];
      var radius := config.radius[i];
      if config.maxAccel == 0.0 || (Abs(l.desired - left) < 0.01 && Abs(r.desired - right) < 0.01) {
        p := Plan(wheels[..], Turning(l.desired, radius), l.desiredFrom, Turning(r.desired, radius), r.desiredFrom);
        return;
      }
      l, r := Step(l, left, l.desired >= left, limit), Step(r, right, r.desired > right, limit);
      wheels[2 * i + 1] := l;
      wheels[2 * i] := r;
      assert wheels[..] == was[2 * i + 1 := l][2 * i := r];
      p := Plan(wheels[..], Turning(l.instr, radius), l.instrFrom, Turning(r.instr, radius), r.instrFrom);
    }

    method UpdatePair(i: nat, input: UpdateInput) returns (wrote: bool)
      requires Sound() && i < |config.radius|
      modifies this, permission, wheels
      ensures Sound() && IsShaped(old(State()))
      ensures State() == WritePair(old(State()), i, input).0 && wrote == WritePair(old(State()), i, input).1
    {
      hide PlanPair, WriteWheel, Reach;
      var left, right := input.Speed(2 * i + 1), input.Speed(2 * i);
      var p := ChoosePair(i, left, right, Reach(config.maxAccel, input.seconds));
      wrote := WritePermitted(2 * i + 1, p.left, p.leftFrom, input.Clock(2 * i + 1), input.zeroTaken);
      if !wrote { return; }
      wrote := WritePermitted(2 * i, p.right, p.rightFrom, input.Clock(2 * i + 2), input.zeroTaken);
    }

    /** The permission is consulted before anything else. */
    method ConsultPermission(input: UpdateInput)
      requires Sound()
      modifies this, permission, wheels
      ensures Sound() && State() == Consult(old(State()), input)
    {
      hide Sync, PermissionSpec.CanConsume;
      if config.mode == OwnerPermission {
        var _ := permission.CanConsume(Identity(scope, generation, operationId), input.Clock(0));
        SyncPermission();
      }
    }

    /** Pair by pair, until a write is not admitted. */
    method WriteAll(input: UpdateInput)
      requires Sound()
      modifies this, permission, wheels
      ensures Sound() && IsShaped(old(State())) && State() == WritePairs(old(State()), |config.radius|, input).0
    {
      hide WritePair;
      ghost var before := State();
      for i := 0 to |config.radius|
        invariant Sound()
        invariant WritePairs(before, i, input) == (State(), true)
      {
        var wrote := UpdatePair(i, input);
        if !wrote {
          StoppedWriting(before, i, |config.radius|, input);
          return;
        }
      }
    }

    /** One simulation step: consult the permission, then zero the wheels or drive them pair by pair. */
    method OnUpdate(input: UpdateInput)
      requires Valid()
      modifies this, permission, wheels
      ensures Valid() && IsShaped(old(State())) && State() == S.OnUpdate(old(State()), input)
    {
      hide DriveInv, S.ApplyZero, Desire, WritePairs, Consult;
      UpdateKeeps(State(), input);
      if !input.due { return; }
      ConsultPermission(input);
      if isSealed {
        ApplyZero(input.zeroTaken);
      } else {
        UpdateWheelVelocities();
        WriteAll(input);
      }
    }
  }

  lemma DesireOneMore(s: DriveState, i: nat)
    requires IsShaped(s) && i < |s.config.separation|
    ensures Desire(s, 0) == s
    ensures Desire(s, i + 1).wheels
         == Aimed(Desire(s, i).wheels, i, s.target, HalfTurn(s.target.rot, s.config.separation[i]))
  {
    hide HalfTurn, Aimed;
  }

  /** A write that was not admitted ends the update. */
  lemma {:induction false} StoppedWriting(s: DriveState, i: nat, pairs: nat, input: UpdateInput)
    requires IsShaped(s) && i < pairs <= |s.config.radius|
    requires WritePairs(s, i, input).1 && !WritePair(WritePairs(s, i, input).0, i, input).1
    ensures WritePairs(s, pairs, input) == (WritePair(WritePairs(s, i, input).0, i, input).0, false)
    decreases pairs
  {
    hide WritePair;
    if i < pairs - 1 { StoppedWriting(s, i, pairs - 1, input); }
  }
}
