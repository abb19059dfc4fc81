/** The permission the drive consults, updated in place under the drive's lock. */
module MotionPermissions {
  import opened Machine
  import opened PermissionSpec

  class MotionPermission {
    const lifetime: U64
    var identity: Identity
    var mode: Mode
    var openedAt: U64
    var issued: U64
    var deadline: U64
    var observed: U64

    function State(): Permission
      reads this
    {
      Permission(lifetime, identity, mode, openedAt, issued, deadline, observed)
    }

    ghost predicate Valid()
      reads this
    {
      Holds(State())
    }

    constructor (lifetime: U64)
      requires lifetime > 0
      ensures Valid() && State() == NewPermission(lifetime)
    {
      this.lifetime := lifetime;
      identity, mode, openedAt, issued, deadline, observed := NOBODY, BootClosed, 0, 0, 0, 0;
    }

    method ObserveTime(now: U64)
      modifies `mode, `observed
      ensures State() == PermissionSpec.ObserveTime(old(State()), now)
    {
      if now < observed || (mode == Active && now >= deadline) { mode := FaultClosed; }
      observed := now;
    }

    method Open(id: Identity, expected: U64, issuedAt: U64, now: U64, priorZeroApplied: bool) returns (accepted: bool)
      requires Valid()
      modifies this
      ensures Valid()
      ensures State() == PermissionSpec.Open(old(State()), id, expected, issuedAt, now, priorZeroApplied).0
      ensures accepted == PermissionSpec.Open(old(State()), id, expected, issuedAt, now, priorZeroApplied).1
      ensures accepted <==>
              && old(mode) != FaultClosed && old(observed) <= now && (old(mode) == Active ==> now < old(deadline))
              && IsIdentity(id) && id.generation == expected + 1 && 0 < issuedAt <= now < issuedAt + lifetime <= MAX_U64
              && if old(mode) == Active then old(identity) == id && old(openedAt) == issuedAt
                 else && priorZeroApplied && old(identity).generation == expected
                      && old(identity).scopeId != id.scopeId && old(identity).operationId != id.operationId
      ensures accepted ==>
              mode == Active && identity == id && id.generation == expected + 1 && issuedAt <= now < deadline
    {
      CallKeeps(State(), OpenCall(id, expected, issuedAt, now, priorZeroApplied));
      ObserveTime(now);
      if mode == FaultClosed || !IsIdentity(id) || !IsStamp(lifetime, issuedAt, now) || expected == MAX_U64
         || id.generation != expected + 1 {
        return false;
      }
      if mode == Active { return identity == id && issuedAt == openedAt; }
      if !priorZeroApplied || identity.generation != expected || id.scopeId == identity.scopeId
         || id.operationId == identity.operationId {
        return false;
      }
      identity, openedAt, issued := id, issuedAt, issuedAt;
      deadline := issuedAt + lifetime;
      mode := Active;
      return true;
    }

    method Renew(id: Identity, issuedAt: U64, now: U64) returns (accepted: bool)
      requires Valid()
      modifies this
      ensures Valid()
      ensures State() == PermissionSpec.Renew(old(State()), id, issuedAt, now).0
      ensures accepted == PermissionSpec.Renew(old(State()), id, issuedAt, now).1
      ensures accepted <==>
              && old(mode) == Active && old(observed) <= now < old(deadline) && old(identity) == id
              && old(issued) < issuedAt && 0 < issuedAt <= now < issuedAt + lifetime <= MAX_U64
      ensures accepted ==> mode == Active && identity == id && now < deadline == issuedAt + lifetime
      ensures accepted ==> openedAt == old(openedAt) && deadline > old(deadline)
    {
      CallKeeps(State(), RenewCall(id, issuedAt, now));
      ObserveTime(now);
      if mode != Active || identity != id || issuedAt <= issued || !IsStamp(lifetime, issuedAt, now) { return false; }
      issued := issuedAt;
      deadline := issuedAt + lifetime;
      return true;
    }

    method CanConsume(id: Identity, now: U64) returns (allowed: bool)
      requires Valid()
      modifies `mode, `observed
      ensures Valid()
      ensures State() == PermissionSpec.CanConsume(old(State()), id, now).0
      ensures allowed == PermissionSpec.CanConsume(old(State()), id, now).1
      ensures allowed <==> old(mode) == Active && id == identity && old(observed) <= now < deadline
    {
      ObserveTime(now);
      return mode == Active && identity == id;
    }

    method Close(id: Identity, now: U64) returns (accepted: bool)
      requires Valid()
      modifies `mode, `observed
      ensures Valid()
      ensures State() == PermissionSpec.Close(old(State()), id, now).0
      ensures accepted == PermissionSpec.Close(old(State()), id, now).1
      ensures accepted <==> identity == id && id.generation > 0
      ensures accepted ==> mode != Active
    {
      ObserveTime(now);
      if identity != id || identity.generation == 0 { return false; }
      if mode == Active { mode := NormalClosed; }
      return true;
    }
  }
}
