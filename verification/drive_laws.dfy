/**
 What the drive does with each command, request and update, in terms of what it was given: when a command is taken
 and what the drive then aims for, when a scope opens and closes, and the speed each wheel is told.
 */
module DriveLaws {
  import opened Machine
  import opened PermissionSpec
  import opened DriveSpec
  import opened DriveInvariant
  import opened DriveRuns

  // ---------- Scopes and permissions ----------

  /** A scope is 32 lower-case hexadecimal digits, not all of them zero. */
  lemma ScopeIsExact(scope: string)
    ensures IsScope(scope) <==>
            && |scope| == 32 && (exists i :: 0 <= i < 32 && scope[i] != '0')
            && forall i :: 0 <= i < 32 ==> scope[i] in "0123456789abcdef"
  {
    if |scope| == 32 {
      if forall i :: 0 <= i < 32 ==> scope[i] == '0' { assert scope == NO_SCOPE; }
      forall i | 0 <= i < 32 ensures IsHex(scope[i]) <==> scope[i] in "0123456789abcdef" {
        DigitIsExact(scope[i]);
      }
    }
  }

  lemma DigitIsExact(c: char)
    ensures IsHex(c) <==> c in "0123456789abcdef"
  {
    var digits := "0123456789abcdef";
    if IsHex(c) {
      var at := if c <= '9' then c as int - '0' as int else 10 + (c as int - 'a' as int);
      assert digits[at] == c;
    }
  }

  /** A clock reading that is believed: not before the last one, and before the deadline of an active permission. */
  predicate IsInTime(p: Permission, now: U64) {
    p.observed <= now && (p.mode == Active ==> now < p.deadline)
  }

  /** Issued in the past, for a lease that is still running and ends within 64 bits. */
  predicate IsIssued(p: Permission, issued: U64, now: U64) {
    0 < issued <= now < issued + p.lifetime <= MAX_U64
  }

  predicate IsWellFormed(id: Identity) {
    0 < id.generation && 0 < id.operationId && IsScope(id.scopeId)
  }

  /** Nothing failed, the lease runs, and it repeats the opening in force, or follows on zero with everything new. */
  predicate MayOpen(p: Permission, id: Identity, expected: U64, issued: U64, now: U64, zeroed: bool) {
    && p.mode != FaultClosed && IsInTime(p, now) && IsWellFormed(id) && IsIssued(p, issued, now)
    && id.generation == expected + 1
    && if p.mode == Active then p.identity == id && p.openedAt == issued
       else zeroed && p.identity.generation == expected && id.scopeId != p.identity.scopeId
            && id.operationId != p.identity.operationId
  }

  /** The permission is active for this identity, and the lease is a later one, and runs. */
  predicate MayRenew(p: Permission, id: Identity, issued: U64, now: U64) {
    p.mode == Active && IsInTime(p, now) && p.identity == id && p.issued < issued && IsIssued(p, issued, now)
  }

  /**
   A permission is opened if and only if nothing failed, the identity is well formed and of the next generation, the
   lease is running, and it is a repetition of the opening that is active, or zero was applied and scope and
   operation are
   new. It is then active for that identity, up to the end of the lease.
   */
  lemma OpeningIsExact(p: Permission, id: Identity, expected: U64, issued: U64, now: U64, zeroed: bool)
    ensures var (q, accepted) := Open(p, id, expected, issued, now, zeroed);
      && (accepted <==> MayOpen(p, id, expected, issued, now, zeroed))
      && (accepted && p.mode != Active ==>
          q == Permission(p.lifetime, id, Active, issued, issued, issued + p.lifetime, now))
      && (accepted && p.mode == Active ==> q == p.(observed := now))
      && (!accepted ==> q == p.(mode := q.mode, observed := now))
      && (q.mode == FaultClosed <==> p.mode == FaultClosed || !IsInTime(p, now))
  {
    hide IsScope;
  }

  /** A renewal is of the active permission by its own identity, with a later lease that is running. */
  lemma RenewalIsExact(p: Permission, id: Identity, issued: U64, now: U64)
    ensures var (q, accepted) := Renew(p, id, issued, now);
      && (accepted <==> MayRenew(p, id, issued, now))
      && (accepted ==> q == p.(issued := issued, deadline := issued + p.lifetime, observed := now))
      && (!accepted ==> q == p.(mode := q.mode, observed := now))
      && (q.mode == FaultClosed <==> p.mode == FaultClosed || !IsInTime(p, now))
  {
    hide IsScope;
  }

  /** A use is allowed if and only if the permission is active, for this identity, and the clock is believed. */
  lemma UseIsExact(p: Permission, id: Identity, now: U64)
    ensures var (q, allowed) := CanConsume(p, id, now);
      && (allowed <==> p.mode == Active && IsInTime(p, now) && p.identity == id)
      && q == p.(mode := q.mode, observed := now)
      && (q.mode == if IsInTime(p, now) then p.mode else FaultClosed)
  {
  }

  /** A permission is closed by its own identity, and then is not active; a fault stays a fault. */
  lemma ClosingIsExact(p: Permission, id: Identity, now: U64)
    ensures var (q, accepted) := Close(p, id, now);
      && (accepted <==> p.identity == id && id.generation > 0)
      && q == p.(mode := q.mode, observed := now)
      && q.mode == if !IsInTime(p, now) then FaultClosed
                   else if accepted && p.mode == Active then NormalClosed else p.mode
  {
  }

  // ---------- Services of the drive ----------

  /** Closed for good, with nothing to aim for. */
  predicate IsClosedFor(s: DriveState, t: DriveState, scope: string) {
    t.isSealed && t.scope == scope && t.target.x == 0.0 && t.target.rot == 0.0 && t.generation == s.generation
  }

  /** An unscoped drive is closed by its first well-formed scope, and again only by the same one. */
  lemma CloseScopeIsExact(s: DriveState, scope: string)
    requires DriveInv(s)
    ensures var (t, accepted) := CloseScope(s, scope);
      && (accepted <==> s.config.mode == Unscoped && IsScope(scope) && (s.isSealed ==> s.scope == scope))
      && (accepted ==> IsClosedFor(s, t, scope))
      && (!accepted || s.isSealed ==> t == s)
  {
    hide IsScope, IsHistory, WheelIsOwn;
  }

  /**
   A scope is opened if and only if it is well formed and the drive is driven by generations, and it repeats the opening
   in force, or the drive is sealed, zero was applied, and the generation before it is the one expected.
   */
  lemma OpenScopeIsExact(s: DriveState, scope: string, expected: U64)
    ensures var (t, accepted) := OpenScope(s, scope, expected);
      && (accepted <==>
          && s.config.mode == Generations && IsScope(scope) && expected < MAX_U64
          && ((!s.isSealed && s.generation == expected + 1 && s.scope == scope)
              || (s.isSealed && s.applied && s.generation == expected)))
      && (accepted && s.isSealed ==>
            && !t.isSealed && !t.applied && t.scope == scope && t.generation == expected + 1
            && t.target == Target(0.0, 0.0, {}) && t.wheels == s.wheels)
      && (!accepted || !s.isSealed ==> t == s)
  {
    hide IsScope;
  }

  /** A generation is closed by its own number and scope. */
  lemma CloseGenerationIsExact(s: DriveState, scope: string, generation: U64)
    requires DriveInv(s)
    ensures var (t, accepted) := CloseGeneration(s, scope, generation);
      && (accepted <==> s.config.mode == Generations && generation == s.generation > 0 && scope == s.scope)
      && (accepted ==> IsClosedFor(s, t, scope) && (!s.isSealed ==> !t.applied))
      && (!accepted || s.isSealed ==> t == s)
  {
    hide IsScope, IsHistory, WheelIsOwn;
  }

  /** A drive under a permission is opened as its permission is; a clock that is not believed seals it for good. */
  lemma OpenPermitIsExact(s: DriveState, id: Identity, expected: U64, issued: U64, now: U64)
    requires DriveInv(s) && s.config.mode == OwnerPermission && id.generation == Increment(expected)
    ensures var (t, accepted) := OpenPermit(s, id.scopeId, expected, id.operationId, issued, now);
      && (accepted <==> MayOpen(s.permission, id, expected, issued, now, s.applied))
      && (accepted && s.isSealed ==>
            && !t.isSealed && !t.applied && t.target == Target(0.0, 0.0, {}) && Current(t) == id
            && t.log == s.log + [Opened(id), Granted(id, issued)])
      && (accepted && !s.isSealed ==> t == s.(permission := t.permission))
      && (!accepted ==> (t.isSealed <==> s.isSealed || !IsInTime(s.permission, now)) && Current(t) == Current(s))
  {
    hide IsHistory, WheelIsOwn, IsScope, Open;
    OpeningIsExact(s.permission, id, expected, issued, now, s.applied);
  }

  lemma RenewPermitIsExact(s: DriveState, id: Identity, issued: U64, now: U64)
    requires DriveInv(s) && s.config.mode == OwnerPermission
    ensures var (t, accepted) := RenewPermit(s, id, issued, now);
      && (accepted <==> MayRenew(s.permission, id, issued, now)) && Current(t) == Current(s)
      && (accepted ==> t.isSealed == s.isSealed && t.target == s.target && t.log == s.log + [Granted(id, issued)])
      && (!accepted ==> (t.isSealed <==> s.isSealed || !IsInTime(s.permission, now)))
  {
    hide IsHistory, WheelIsOwn, IsScope, Renew;
    RenewalIsExact(s.permission, id, issued, now);
  }

  lemma ClosePermitIsExact(s: DriveState, id: Identity, now: U64)
    requires DriveInv(s) && s.config.mode == OwnerPermission
    ensures var (t, accepted) := ClosePermit(s, id, now);
      && (accepted <==> id == Current(s) && id.generation > 0) && Current(t) == Current(s)
      && (t.isSealed <==> s.isSealed || accepted || !IsInTime(s.permission, now))
      && (t.isSealed && !s.isSealed ==> t.target == Target(0.0, 0.0, {}) && !t.applied && t.log == s.log + [Sealed])
  {
    hide IsHistory, WheelIsOwn, IsScope, Close;
    ClosingIsExact(s.permission, id, now);
  }

  // ---------- Commands ----------

  /** The drive aims for just what it is told, on behalf of the open scope, and is otherwise as it was. */
  predicate AimsFor(s: DriveState, t: DriveState, x: real, rot: real) {
    && t.target.x == x && t.target.rot == rot && t.target.from == {Current(s)}
    && t.wheels == s.wheels && t.isSealed == s.isSealed && t.applied == s.applied && t.log == s.log
    && t.scope == s.scope && t.generation == s.generation && t.operationId == s.operationId && t.config == s.config
  }

  /** Anyone may drive an unscoped drive until it is sealed. */
  lemma UnscopedCommandIsExact(s: DriveState, x: real, rot: real)
    requires DriveInv(s)
    ensures var t := OnCmdVel(s, x, rot);
      if s.config.mode == Unscoped && !s.isSealed then AimsFor(s, t, x, rot) && t.permission == s.permission else t == s
  {
    hide IsHistory, WheelIsOwn;
  }

  /** A scoped command is taken if and only if it is finite and of the open scope and generation. */
  lemma ScopedCommandIsExact(s: DriveState, c: Command)
    ensures var t := OnScopedCmd(s, c);
      if && s.config.mode == Generations && !s.isSealed && s.generation > 0 && c.finite
         && c.stamp.generation == s.generation && c.stamp.scopeId == s.scope then
        AimsFor(s, t, c.x, c.rot) && t.permission == s.permission
      else t == s
  {
  }

  /** A permitted command is taken if and only if it is finite, of the active identity, and in time; a fault seals. */
  lemma PermittedCommandIsExact(s: DriveState, c: Command, now: U64)
    requires DriveInv(s) && s.config.mode == OwnerPermission
    ensures var t := OnPermittedCmd(s, c, now);
      if !IsInTime(s.permission, now) then
        t.isSealed && t.permission.mode == FaultClosed && t.target.x == 0.0 && t.target.rot == 0.0
      else if s.permission.mode == Active && c.stamp == s.permission.identity && c.finite then AimsFor(s, t, c.x, c.rot)
      else t == s.(permission := t.permission)
  {
    hide IsHistory, WheelIsOwn;
  }

  /** Whether a section takes a command, and the speeds it asks for. */
  function Taken(s: DriveState, c: Section): Option<(real, real)> {
    match c
    case UnscopedCommand(x, rot) => if s.config.mode == Unscoped && !s.isSealed then Some((x, rot)) else None
    case ScopedCommand(command) =>
      if s.config.mode == Generations && !s.isSealed && s.generation > 0 && command.finite
         && command.stamp.generation == s.generation && command.stamp.scopeId == s.scope
      then Some((command.x, command.rot)) else None
    case PermittedCommand(command, now) =>
      if s.config.mode == OwnerPermission && IsInTime(s.permission, now) && s.permission.mode == Active
        && command.finite
         && command.stamp == s.permission.identity then Some((command.x, command.rot)) else None
    case _ => None
  }

  /** What the drive aims for stays until a command is taken, it is opened or sealed, or the world is reset. */
  lemma SectionAims(s: DriveState, c: Section)
    requires DriveInv(s)
    ensures IsShaped(s)
    ensures var t := DriveRuns.Next(s, c);
      if Taken(s, c).Some? then AimsFor(s, t, Taken(s, c).value.0, Taken(s, c).value.1)
      else t.target == s.target || (t.target.x == 0.0 && t.target.rot == 0.0 && t.target.from == {})
    ensures var t := DriveRuns.Next(s, c);
      Taken(s, c).None? && !c.ResetWorld? && t.isSealed == s.isSealed && t.generation == s.generation ==>
        t.target == s.target
  {
    hide DriveInv, OnUpdate, OnCmdVel, OnScopedCmd, OnPermittedCmd, CloseScope, OpenScope, CloseGeneration, NextPermit,
         AimsFor;
    ShapeOf(s);
    match c
    case Update(input) => UpdateAims(s, input);
    case UnscopedCommand(x, rot) => UnscopedCommandIsExact(s, x, rot);
    case ScopedCommand(command) => ScopedCommandIsExact(s, command);
    case PermittedCommand(command, now) => if s.config.mode == OwnerPermission { PermittedAims(s, command, now); }
    case ResetWorld =>
    case _ => ServiceAims(s, c);
  }

  lemma ShapeOf(s: DriveState)
    requires DriveInv(s)
    ensures IsShaped(s)
  {
    hide IsHistory, WheelIsOwn;
  }

  lemma PermittedAims(s: DriveState, c: Command, now: U64)
    requires DriveInv(s) && s.config.mode == OwnerPermission
    ensures var t := NextPermit(s, PermittedCommand(c, now));
      if Taken(s, PermittedCommand(c, now)).Some? then AimsFor(s, t, c.x, c.rot)
      else t.target == s.target || (t.target == Target(0.0, 0.0, {}) && t.isSealed != s.isSealed)
  {
    hide IsHistory, WheelIsOwn;
  }

  lemma ServiceAims(s: DriveState, c: Section)
    requires DriveInv(s) && IsShaped(s)
    requires c.CloseScopeService? || c.OpenScopeService? || c.CloseGenerationService? || c.OpenPermitService?
             || c.RenewPermitService? || c.ClosePermitService?
    ensures var t := DriveRuns.Next(s, c);
      t.target == s.target || (t.target == Target(0.0, 0.0, {})
                               && (t.isSealed != s.isSealed || t.generation != s.generation))
  {
    hide IsHistory, WheelIsOwn, IsScope, OnUpdate;
  }

  lemma UpdateAims(s: DriveState, input: UpdateInput)
    requires DriveInv(s) && IsShaped(s)
    ensures var t := OnUpdate(s, input); t.target == s.target || (t.target == NO_TARGET && t.isSealed != s.isSealed)
    ensures OnUpdate(s, input).generation == s.generation
  {
    hide IsHistory, WheelIsOwn, CanConsume, WritePairs, Desire, AllTaken, ZeroWrites;
    if input.due {
      var t := Consult(s, input);
      if !t.isSealed { PairsAim(Desire(t, |t.config.separation|), |t.config.radius|, input); }
    }
  }

  predicate KeepsAim(s: DriveState, t: DriveState) {
    && t.generation == s.generation
    && ((t.target == s.target && t.isSealed == s.isSealed) || (t.target == NO_TARGET && t.isSealed && !s.isSealed))
  }

  lemma WriteAims(s: DriveState, w: nat, value: real, from: set<Identity>, now: U64, taken: seq<bool>)
    ensures var (t, ok) := WriteWheel(s, w, value, from, now, taken);
      KeepsAim(s, t) && (ok ==> t.target == s.target && t.isSealed == s.isSealed)
  {
    hide CanConsume, AllTaken, ZeroWrites;
  }

  lemma {:induction false} PairsAim(s: DriveState, pairs: nat, input: UpdateInput)
    requires IsShaped(s) && pairs <= |s.config.radius|
    ensures var (t, ok) := WritePairs(s, pairs, input);
            KeepsAim(s, t) && (ok ==> t.target == s.target && t.isSealed == s.isSealed)
    decreases pairs
  {
    hide PlanPair, WriteWheel;
    if pairs == 0 {
    } else {
      PairsAim(s, pairs - 1, input);
      var (t, ok) := WritePairs(s, pairs - 1, input);
      if ok {
        var i := pairs - 1;
        var p := PlanPair(t, i, input.Speed(2 * i + 1), input.Speed(2 * i), Reach(t.config.maxAccel, input.seconds));
        var u := t.(wheels := p.wheels);
        WriteAims(u, 2 * i + 1, p.left, p.leftFrom, input.Clock(2 * i + 1), input.zeroTaken);
        WriteAims(WriteWheel(u, 2 * i + 1, p.left, p.leftFrom, input.Clock(2 * i + 1), input.zeroTaken).0, 2 * i,
                  p.right,
                  p.rightFrom, input.Clock(2 * i + 2), input.zeroTaken);
      }
    }
  }

  /** The command behind a moment of a run: taken, and none after it. */
  ghost predicate IsLastTaken(config: DriveConfig, sections: seq<Section>, j: nat)
    requires config.Valid()
  {
    && j < |sections| && Taken(DriveRuns.After(config, sections[..j]), sections[j]).Some?
    && forall k :: j < k < |sections| ==> Taken(DriveRuns.After(config, sections[..k]), sections[k]).None?
  }

  /** In every run the drive aims, on anyone's behalf, only for just what the last command taken asked for. */
  lemma {:induction false} AimIsLastCommand(config: DriveConfig, sections: seq<Section>) returns (j: nat)
    requires config.Valid() && DriveRuns.After(config, sections).target.from != {}
    ensures IsLastTaken(config, sections, j)
    ensures var s := DriveRuns.After(config, sections);
      Taken(DriveRuns.After(config, sections[..j]), sections[j]) == Some((s.target.x, s.target.rot))
    decreases |sections|
  {
    hide DriveInv, Taken, DriveRuns.Next;
    if sections == [] {
      NobodyAims(config);
      assert false;
    } else {
      var before, c := sections[..|sections| - 1], sections[|sections| - 1];
      var s := DriveRuns.After(config, before);
      SectionAims(s, c);
      if Taken(s, c).Some? {
        j := |sections| - 1;
      } else {
        j := AimIsLastCommand(config, before);
        assert before[..j] == sections[..j];
        forall k | j < k < |sections| ensures Taken(DriveRuns.After(config, sections[..k]), sections[k]).None? {
          if k < |before| { assert before[..k] == sections[..k]; } else { assert sections[..k] == before; }
        }
      }
    }
  }

  lemma NobodyAims(config: DriveConfig)
    requires config.Valid()
    ensures DriveRuns.After(config, []).target.from == {}
  {
  }
}
