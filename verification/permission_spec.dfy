/** A finite permission to move: a lease with a fault latch, as functions on its state. */
module PermissionSpec {
  import opened Machine

  datatype Identity = Identity(scopeId: string, generation: U64, operationId: U64)

  datatype Mode = BootClosed | Active | NormalClosed | FaultClosed

  datatype Permission = Permission(
    lifetime: U64,
    identity: Identity,
    mode: Mode,
    openedAt: U64,
    issued: U64,
    deadline: U64,
    observed: U64)

  const NOBODY := Identity("", 0, 0)
  const NO_SCOPE := "00000000000000000000000000000000"

  function NewPermission(lifetime: U64): Permission {
    Permission(lifetime, NOBODY, BootClosed, 0, 0, 0, 0)
  }

  predicate IsHex(c: char) {
    '0' <= c <= '9' || 'a' <= c <= 'f'
  }

  predicate IsScope(scope: string) {
    |scope| == 32 && scope != NO_SCOPE && forall i :: 0 <= i < |scope| ==> IsHex(scope[i])
  }

  predicate IsIdentity(id: Identity) {
    id.generation > 0 && id.operationId > 0 && IsScope(id.scopeId)
  }

  /** Issued in the past, alive now, and its deadline a 64-bit number. */
  predicate IsStamp(lifetime: U64, issued: U64, now: U64) {
    0 < issued <= now && issued <= MAX_U64 - lifetime && now < issued + lifetime
  }

  /** A clock that runs backwards, or a deadline reached, is a fault for good. */
  function ObserveTime(p: Permission, now: U64): Permission {
    p.(mode := if now < p.observed || (p.mode == Active && now >= p.deadline) then FaultClosed else p.mode,
       observed := now)
  }

  function Grant(p: Permission, id: Identity, openedAt: U64, issued: U64): Permission
    requires issued <= MAX_U64 - p.lifetime
  {
    p.(identity := id, mode := Active, openedAt := openedAt, issued := issued, deadline := issued + p.lifetime)
  }

  function Open(p: Permission, id: Identity, expected: U64, issued: U64, now: U64, priorZeroApplied: bool)
    : (Permission, bool)
  {
    var q := ObserveTime(p, now);
    if q.mode == FaultClosed || !IsIdentity(id) || !IsStamp(p.lifetime, issued, now) || expected == MAX_U64
       || id.generation != expected + 1 then (q, false)
    else if q.mode == Active then (q, q.identity == id && issued == q.openedAt)
    else if !priorZeroApplied || q.identity.generation != expected || id.scopeId == q.identity.scopeId
            || id.operationId == q.identity.operationId then (q, false)
    else (Grant(q, id, issued, issued), true)
  }

  function Renew(p: Permission, id: Identity, issued: U64, now: U64): (Permission, bool) {
    var q := ObserveTime(p, now);
    if q.mode != Active || q.identity != id || issued <= q.issued || !IsStamp(p.lifetime, issued, now) then (q, false)
    else (Grant(q, id, q.openedAt, issued), true)
  }

  function CanConsume(p: Permission, id: Identity, now: U64): (Permission, bool) {
    var q := ObserveTime(p, now);
    (q, q.mode == Active && q.identity == id)
  }

  function Close(p: Permission, id: Identity, now: U64): (Permission, bool) {
    var q := ObserveTime(p, now);
    if q.identity != id || q.identity.generation == 0 then (q, false)
    else (if q.mode == Active then q.(mode := NormalClosed) else q, true)
  }

  // ---------- What every call keeps ----------

  /** While active: the deadline is the lease's exact end, no addition wrapped, and it is not reached. */
  predicate Holds(p: Permission) {
    && p.lifetime > 0
    && (p.mode == Active ==>
          && IsIdentity(p.identity) && 0 < p.openedAt <= p.issued <= p.observed < p.deadline
          && p.issued <= MAX_U64 - p.lifetime && p.deadline == p.issued + p.lifetime)
  }

  datatype PermitCall =
    | OpenCall(opening: Identity, expected: U64, openIssued: U64, openNow: U64, priorZeroApplied: bool)
    | RenewCall(renewing: Identity, renewIssued: U64, renewNow: U64)
    | ConsumeCall(consumer: Identity, consumeNow: U64)
    | CloseCall(closing: Identity, closeNow: U64)

  function Next(p: Permission, c: PermitCall): Permission {
    match c
    case OpenCall(id, expected, issued, now, zero) => Open(p, id, expected, issued, now, zero).0
    case RenewCall(id, issued, now) => Renew(p, id, issued, now).0
    case ConsumeCall(id, now) => CanConsume(p, id, now).0
    case CloseCall(id, now) => Close(p, id, now).0
  }

  function TimeOf(c: PermitCall): U64 {
    match c
    case OpenCall(_, _, _, now, _) => now
    case RenewCall(_, _, now) => now
    case ConsumeCall(_, now) => now
    case CloseCall(_, now) => now
  }

  /** The call grants a lease: an accepted renewal, or an accepted opening that was not a retry. */
  predicate Grants(p: Permission, c: PermitCall) {
    match c
    case OpenCall(id, expected, issued, now, zero) =>
      Open(p, id, expected, issued, now, zero).1 && ObserveTime(p, now).mode != Active
    case RenewCall(id, issued, now) => Renew(p, id, issued, now).1
    case _ => false
  }

  function IssuedBy(c: PermitCall): U64 {
    match c
    case OpenCall(_, _, issued, _, _) => issued
    case RenewCall(_, issued, _) => issued
    case _ => 0
  }

  function IdentityOf(c: PermitCall): Identity {
    match c
    case OpenCall(id, _, _, _, _) => id
    case RenewCall(id, _, _) => id
    case ConsumeCall(id, _) => id
    case CloseCall(id, _) => id
  }

  lemma CallKeeps(p: Permission, c: PermitCall)
    requires Holds(p)
    ensures Holds(Next(p, c)) && Next(p, c).lifetime == p.lifetime
    ensures p.mode == FaultClosed ==> Next(p, c).mode == FaultClosed
    ensures Next(p, c).mode == Active && !Grants(p, c) ==>
              p.mode == Active && Next(p, c).identity == p.identity && Next(p, c).issued == p.issued
    ensures Grants(p, c) ==>
            Next(p, c).mode == Active && Next(p, c).issued == IssuedBy(c) && Next(p, c).identity == IdentityOf(c)
  {
  }

  /** The permission after some calls. */
  function After(lifetime: U64, calls: seq<PermitCall>): Permission {
    if calls == [] then NewPermission(lifetime) else Next(After(lifetime, calls[..|calls| - 1]), calls[|calls| - 1])
  }

  lemma {:induction false} AlwaysHolds(lifetime: U64, calls: seq<PermitCall>)
    requires lifetime > 0
    ensures Holds(After(lifetime, calls)) && After(lifetime, calls).lifetime == lifetime
  {
    assert Holds(NewPermission(lifetime));
    if calls == [] {}
    else {
      AlwaysHolds(lifetime, calls[..|calls| - 1]);
      CallKeeps(After(lifetime, calls[..|calls| - 1]), calls[|calls| - 1]);
    }
  }

  /** A fault is for good, whatever is asked afterwards. */
  lemma {:induction false} FaultIsForGood(lifetime: U64, calls: seq<PermitCall>, k: nat)
    requires lifetime > 0 && k <= |calls| && After(lifetime, calls[..k]).mode == FaultClosed
    ensures After(lifetime, calls).mode == FaultClosed
    decreases |calls|
  {
    hide Next, Holds;
    if k == |calls| { assert calls[..k] == calls; }
    else {
      var before := calls[..|calls| - 1];
      assert before[..k] == calls[..k];
      FaultIsForGood(lifetime, before, k);
      AlwaysHolds(lifetime, before);
      CallKeeps(After(lifetime, before), calls[|calls| - 1]);
    }
  }

  /** The call that granted the lease now active. */
  lemma {:induction false} LeaseWasGranted(lifetime: U64, calls: seq<PermitCall>) returns (g: nat)
    requires lifetime > 0 && After(lifetime, calls).mode == Active
    ensures g < |calls| && Grants(After(lifetime, calls[..g]), calls[g])
    ensures IssuedBy(calls[g]) == After(lifetime, calls).issued
            && IdentityOf(calls[g]) == After(lifetime, calls).identity
    decreases |calls|
  {
    hide Next, Holds, Grants;
    var before := calls[..|calls| - 1];
    AlwaysHolds(lifetime, before);
    CallKeeps(After(lifetime, before), calls[|calls| - 1]);
    if Grants(After(lifetime, before), calls[|calls| - 1]) { g := |calls| - 1; }
    else {
      g := LeaseWasGranted(lifetime, before);
      assert before[..g] == calls[..g];
    }
  }

  /**
   Every use admitted at a time t lies inside a lease: some accepted opening or renewal of the same
   identity was issued at or before t, and t is before that issue plus the lifetime.
   */
  lemma UseLiesInALease(lifetime: U64, calls: seq<PermitCall>, id: Identity, t: U64) returns (g: nat)
    requires lifetime > 0 && CanConsume(After(lifetime, calls), id, t).1
    ensures g < |calls| && Grants(After(lifetime, calls[..g]), calls[g]) && IdentityOf(calls[g]) == id
    ensures IssuedBy(calls[g]) <= t < IssuedBy(calls[g]) + lifetime <= MAX_U64
  {
    AlwaysHolds(lifetime, calls);
    g := LeaseWasGranted(lifetime, calls);
  }
}
