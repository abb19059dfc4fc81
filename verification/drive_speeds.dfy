/** The speed an update tells each wheel, from the target, the wheel and what was measured. */
module DriveSpeeds {
  import opened Machine
  import opened PermissionSpec
  import opened DriveSpec
  import opened DriveInvariant
  import opened DriveWrites
  import opened DriveLaws

  /**
   What a wheel is to reach: the speed of the drive, and half the turn, added on the right and taken off on the
   left.
   */
  function Wanted(s: DriveState, w: nat): real
    requires IsShaped(s) && w < s.config.Wheels()
  {
    var turn := s.target.rot * s.config.separation[w / 2] / 2.0;
    if w % 2 == 0 then s.target.x + turn else s.target.x - turn
  }

  /** Both wheels of a pair are within a hundredth of what they are to reach, or may reach it at once. */
  predicate IsReached(s: DriveState, i: nat, input: UpdateInput)
    requires IsShaped(s) && i < |s.config.radius|
  {
    var right, left := Wanted(s, 2 * i) - input.Speed(2 * i), Wanted(s, 2 * i + 1) - input.Speed(2 * i + 1);
    s.config.maxAccel == 0.0 || (-0.01 < right < 0.01 && -0.01 < left < 0.01)
  }

  /** One step towards closing a gap, no further than the limit; a left wheel without a gap counts as rising. */
  function Stepped(w: nat, gap: real, limit: real): real {
    if gap > 0.0 || (gap == 0.0 && w % 2 == 1) then if gap < limit then gap else limit
    else if -limit < gap then gap else -limit
  }

  /** A step never exceeds its limit, and closes a gap within it. */
  lemma StepIsLimited(w: nat, gap: real, limit: real)
    requires limit >= 0.0
    ensures -limit <= Stepped(w, gap, limit) <= limit && (-limit <= gap <= limit ==> Stepped(w, gap, limit) == gap)
    ensures gap >= 0.0 ==> 0.0 <= Stepped(w, gap, limit) <= gap
    ensures gap <= 0.0 ==> gap <= Stepped(w, gap, limit) <= 0.0
  {
  }

  /** The instruction a wheel is left with. */
  function Instructed(s: DriveState, w: nat, input: UpdateInput): real
    requires IsShaped(s) && w < s.config.Wheels()
  {
    if IsReached(s, w / 2, input) then s.wheels[w].instr
    else s.wheels[w].instr + Stepped(w, Wanted(s, w) - input.Speed(w), s.config.maxAccel * input.seconds)
  }

  /** The turning speed a wheel is told. */
  function Told(s: DriveState, w: nat, input: UpdateInput): real
    requires IsShaped(s) && w < s.config.Wheels()
  {
    (if IsReached(s, w / 2, input) then Wanted(s, w) else Instructed(s, w, input)) / s.config.radius[w / 2]
  }

  // ---------- Wheels ----------

  /** Taken up by the update, and not yet told. */
  predicate IsSet(s: DriveState, t: DriveState, w: nat)
    requires IsShaped(s) && IsShaped(t) && t.config == s.config && w < s.config.Wheels()
  {
    t.wheels[w].instr == s.wheels[w].instr && t.wheels[w].desired == Wanted(s, w)
  }

  predicate IsDone(s: DriveState, t: DriveState, w: nat, input: UpdateInput)
    requires IsShaped(s) && IsShaped(t) && t.config == s.config && w < s.config.Wheels()
  {
    t.wheels[w].instr == Instructed(s, w, input) && t.wheels[w].desired == Wanted(s, w)
  }

  /** Up to a pair the wheels are told, from it on they are only set. */
  predicate IsUnderWay(s: DriveState, t: DriveState, pairs: nat, input: UpdateInput)
    requires IsShaped(s) && IsShaped(t) && t.config == s.config && pairs <= |s.config.radius|
  {
    && (forall w :: 0 <= w < 2 * pairs ==> IsDone(s, t, w, input))
    && (forall w :: 2 * pairs <= w < s.config.Wheels() ==> IsSet(s, t, w))
  }

  lemma AimedIsWanted(s: DriveState, wheels: seq<Wheel>, i: nat)
    requires IsShaped(s) && |wheels| == |s.wheels| && i < |s.config.separation|
    ensures var aimed := Aimed(wheels, i, s.target, HalfTurn(s.target.rot, s.config.separation[i]));
      && aimed[2 * i].desired == Wanted(s, 2 * i) && aimed[2 * i + 1].desired == Wanted(s, 2 * i + 1)
      && aimed[2 * i].instr == wheels[2 * i].instr && aimed[2 * i + 1].instr == wheels[2 * i + 1].instr
      && forall w :: 0 <= w < |wheels| && w != 2 * i && w != 2 * i + 1 ==> aimed[w] == wheels[w]
  {
    HalfOf(i);
  }

  lemma {:induction false} DesireSets(s: DriveState, pairs: nat)
    requires IsShaped(s) && pairs <= |s.config.separation|
    ensures var t := Desire(s, pairs);
      && (forall w :: 0 <= w < 2 * pairs ==> IsSet(s, t, w))
      && (forall w :: 2 * pairs <= w < s.config.Wheels() ==> t.wheels[w] == s.wheels[w])
  {
    hide HalfTurn, Aimed, Wanted;
    if pairs == 0 {
    } else {
      DesireSets(s, pairs - 1);
      var t, u := Desire(s, pairs - 1), Desire(s, pairs);
      AimedIsWanted(s, t.wheels, pairs - 1);
      forall w | 0 <= w < 2 * pairs ensures IsSet(s, u, w) {
        if w < 2 * (pairs - 1) { assert IsSet(s, t, w); }
      }
    }
  }

  lemma NearIsNear(w: Wheel, speed: real)
    ensures IsNear(w, speed) <==> -0.01 < w.desired - speed < 0.01
  {
  }

  lemma InstructedIs(s: DriveState, w: nat, desired: real, rising: bool, input: UpdateInput)
    requires IsShaped(s) && w < s.config.Wheels() && desired == Wanted(s, w)
    requires rising <==> if w % 2 == 1 then desired >= input.Speed(w) else desired > input.Speed(w)
    ensures var change := Change(desired - input.Speed(w), rising, Reach(s.config.maxAccel, input.seconds));
      !IsReached(s, w / 2, input) ==> Instructed(s, w, input) == s.wheels[w].instr + change
  {
    hide Wanted, IsReached;
  }

  /** What a pair is told, and how it is left. */
  lemma PlanIsExact(s: DriveState, t: DriveState, i: nat, input: UpdateInput)
    requires IsShaped(s) && IsShaped(t) && t.config == s.config && i < |s.config.radius|
    requires IsSet(s, t, 2 * i) && IsSet(s, t, 2 * i + 1)
    ensures var p := PlanPair(t, i, input.Speed(2 * i + 1), input.Speed(2 * i),
                              Reach(s.config.maxAccel, input.seconds));
      && p.left == Told(s, 2 * i + 1, input) && p.right == Told(s, 2 * i, input)
      && IsDone(s, t.(wheels := p.wheels), 2 * i, input) && IsDone(s, t.(wheels := p.wheels), 2 * i + 1, input)
      && forall w :: 0 <= w < |t.wheels| && w != 2 * i && w != 2 * i + 1 ==> p.wheels[w] == t.wheels[w]
  {
    hide Wanted, Stepped, Change, IsNear, Reach;
    HalfOf(i);
    var l, r := t.wheels[2 * i + 1], t.wheels[2 * i];
    var left, right, limit := input.Speed(2 * i + 1), input.Speed(2 * i), Reach(s.config.maxAccel, input.seconds);
    NearIsNear(l, left);
    NearIsNear(r, right);
    InstructedIs(s, 2 * i + 1, l.desired, l.desired >= left, input);
    InstructedIs(s, 2 * i, r.desired, r.desired > right, input);
  }

  // ---------- Writes ----------

  /** The wheel that is written at a place: the left one of a pair, and then the right one. */
  function WheelAt(k: nat): nat {
    if k % 2 == 0 then k + 1 else k - 1
  }

  /** So many writes since a moment, wheel by wheel, each of the speed it is told. */
  predicate AreTold(s: DriveState, input: UpdateInput, log: seq<Event>, start: nat, n: nat)
    requires IsShaped(s) && n <= s.config.Wheels()
  {
    && |log| == start + n
    && forall k :: 0 <= k < n ==>
         && WheelAt(k) < s.config.Wheels() && log[start + k].Wrote? && log[start + k].wheel == WheelAt(k)
         && log[start + k].value == Told(s, WheelAt(k), input)
  }

  /** After a moment only zero is written. */
  predicate OnlyZeroes(log: seq<Event>, from: nat) {
    forall j :: from <= j < |log| ==> !log[j].Wrote? && !log[j].Opened?
  }

  lemma {:induction false} ZeroWritesOnly(n: nat, taken: seq<bool>)
    ensures OnlyZeroes(ZeroWrites(n, taken), 0) && |ZeroWrites(n, taken)| == n
    ensures forall w :: 0 <= w < n ==> ZeroWrites(n, taken)[w] == WroteZero(w, Takes(taken, w))
  {
    if n == 0 {
    } else {
      ZeroWritesOnly(n - 1, taken);
    }
  }

  /** A write that is not admitted is replaced by zeroes, and seals. */
  lemma RefusedIsZeroed(s: DriveState, w: nat, value: real, from: set<Identity>, now: U64, taken: seq<bool>)
    requires s.config.mode == OwnerPermission && s.permission.identity == Current(s) && s.permission.mode == Active
    ensures var (t, ok) := WriteWheel(s, w, value, from, now, taken);
      if ok then t.log == s.log + [Wrote(w, value, from, Some(now))]
        && t == s.(permission := t.permission, log := t.log)
                 && t.permission.identity == s.permission.identity && t.permission.mode == Active
      else t.isSealed && s.log <= t.log && OnlyZeroes(t.log, |s.log|)
  {
    hide ZeroWrites, IsScope, Still;
    ZeroWritesOnly(|s.wheels|, taken);
  }

  /** A write is admitted, or everything is zeroed. */
  lemma WriteOrZero(s: DriveState, w: nat, value: real, from: set<Identity>, now: U64, taken: seq<bool>)
    requires MayBeTold(s)
    ensures var (t, ok) := WriteWheel(s, w, value, from, now, taken);
      if ok then
        && MayBeTold(t) && t.wheels == s.wheels && |t.log| == |s.log| + 1 && s.log <= t.log
        && t.log[|s.log|].Wrote? && t.log[|s.log|].wheel == w && t.log[|s.log|].value == value
      else t.isSealed && s.log <= t.log && OnlyZeroes(t.log, |s.log|)
  {
    hide ApplyZero, Sync, CanConsume;
    if s.config.mode == OwnerPermission { RefusedIsZeroed(s, w, value, from, now, taken); }
  }

  /** Open, and under a permission by the permission's own identity. */
  predicate MayBeTold(s: DriveState) {
    && !s.isSealed
    && (s.config.mode == OwnerPermission ==> s.permission.identity == Current(s) && s.permission.mode == Active)
  }

  /** How an update stands after some pairs: all told, or broken off with zeroes. */
  ghost predicate Stands(s: DriveState, t: DriveState, ok: bool, pairs: nat, input: UpdateInput)
    requires IsShaped(s) && pairs <= |s.config.radius|
  {
    && IsShaped(t) && t.config == s.config
    && if ok then MayBeTold(t) && AreTold(s, input, t.log, |s.log|, 2 * pairs) && IsUnderWay(s, t, pairs, input)
       else t.isSealed && exists n: nat :: n < s.config.Wheels() && BreaksOff(s, input, t.log, n)
  }

  /** So many writes as they should be, and then only zeroes. */
  predicate BreaksOff(s: DriveState, input: UpdateInput, log: seq<Event>, n: nat)
    requires IsShaped(s) && n < s.config.Wheels()
  {
    |s.log| + n <= |log| && AreTold(s, input, log[..|s.log| + n], |s.log|, n) && OnlyZeroes(log, |s.log| + n)
  }

  lemma OneMoreTold(s: DriveState, input: UpdateInput, log: seq<Event>, n: nat, e: Event)
    requires IsShaped(s) && n < s.config.Wheels() && AreTold(s, input, log, |s.log|, n)
             && WheelAt(n) < s.config.Wheels()
    requires e.Wrote? && e.wheel == WheelAt(n) && e.value == Told(s, WheelAt(n), input)
    ensures AreTold(s, input, log + [e], |s.log|, n + 1)
  {
    hide Told, WheelAt;
  }

  lemma BrokenOff(s: DriveState, input: UpdateInput, before: seq<Event>, after: seq<Event>, n: nat)
    requires IsShaped(s) && n < s.config.Wheels() && AreTold(s, input, before, |s.log|, n)
    requires before <= after && OnlyZeroes(after, |before|)
    ensures BreaksOff(s, input, after, n)
  {
    hide Told, WheelAt;
    assert after[..|before|] == before;
  }

  lemma PlanStands(s: DriveState, t: DriveState, i: nat, p: Plan, input: UpdateInput)
    requires IsShaped(s) && IsShaped(t) && t.config == s.config && i < |s.config.radius| && MayBeTold(t)
    requires AreTold(s, input, t.log, |s.log|, 2 * i)
    requires p.left == Told(s, 2 * i + 1, input) && p.right == Told(s, 2 * i, input)
    ensures var (u, ok) := WritePlan(t, i, p, input);
      && IsShaped(u) && u.config == s.config
      && if ok then u.wheels == t.wheels && MayBeTold(u) && AreTold(s, input, u.log, |s.log|, 2 * i + 2)
         else u.isSealed && exists n: nat :: n < s.config.Wheels() && BreaksOff(s, input, u.log, n)
  {
    hide WriteWheel, AreTold, Told, BreaksOff, MayBeTold, OnlyZeroes;
    HalfOf(i);
    WriteOrZero(t, 2 * i + 1, p.left, p.leftFrom, input.Clock(2 * i + 1), input.zeroTaken);
    var (u, ok) := WriteWheel(t, 2 * i + 1, p.left, p.leftFrom, input.Clock(2 * i + 1), input.zeroTaken);
    LengthTold(s, input, t.log, 2 * i);
    if !ok {
      BrokenOff(s, input, t.log, u.log, 2 * i);
    } else {
      assert u.log == t.log + [u.log[|t.log|]];
      OneMoreTold(s, input, t.log, 2 * i, u.log[|t.log|]);
      WriteOrZero(u, 2 * i, p.right, p.rightFrom, input.Clock(2 * i + 2), input.zeroTaken);
      var (v, done) := WriteWheel(u, 2 * i, p.right, p.rightFrom, input.Clock(2 * i + 2), input.zeroTaken);
      if !done {
        BrokenOff(s, input, u.log, v.log, 2 * i + 1);
      } else {
        assert v.log == u.log + [v.log[|u.log|]];
        OneMoreTold(s, input, u.log, 2 * i + 1, v.log[|u.log|]);
      }
    }
  }

  lemma LengthTold(s: DriveState, input: UpdateInput, log: seq<Event>, n: nat)
    requires IsShaped(s) && n <= s.config.Wheels() && AreTold(s, input, log, |s.log|, n)
    ensures |log| == |s.log| + n
  {
  }

  lemma PairStands(s: DriveState, t: DriveState, i: nat, input: UpdateInput)
    requires IsShaped(s) && IsShaped(t) && t.config == s.config && i < |s.config.radius| && Stands(s, t, true, i, input)
    ensures var (u, ok) := WritePair(t, i, input); Stands(s, u, ok, i + 1, input)
  {
    hide WritePlan, AreTold, Told, BreaksOff, MayBeTold, Instructed, Wanted;
    assert IsSet(s, t, 2 * i) && IsSet(s, t, 2 * i + 1);
    PlanIsExact(s, t, i, input);
    var p := PlanPair(t, i, input.Speed(2 * i + 1), input.Speed(2 * i), Reach(s.config.maxAccel, input.seconds));
    var r := t.(wheels := p.wheels);
    SameTold(t, r);
    PlanStands(s, r, i, p, input);
    var (u, ok) := WritePair(t, i, input);
    if ok {
      forall w | 0 <= w < 2 * (i + 1) ensures IsDone(s, u, w, input) {
        if w < 2 * i { assert IsDone(s, t, w, input); }
      }
      forall w | 2 * (i + 1) <= w < s.config.Wheels() ensures IsSet(s, u, w) {
        assert IsSet(s, t, w);
      }
    }
  }

  lemma SameTold(t: DriveState, r: DriveState)
    requires r == t.(wheels := r.wheels)
    ensures MayBeTold(t) <==> MayBeTold(r)
  {
  }

  lemma {:induction false} PairsStand(s: DriveState, t: DriveState, pairs: nat, input: UpdateInput)
    requires IsShaped(s) && IsShaped(t) && pairs <= |s.config.radius| && t.config == s.config
             && Stands(s, t, true, 0, input)
    ensures var (u, ok) := WritePairs(t, pairs, input); Stands(s, u, ok, pairs, input)
    decreases pairs
  {
    hide WritePair, Stands;
    if pairs == 0 {
    } else {
      PairsStand(s, t, pairs - 1, input);
      var (u, ok) := WritePairs(t, pairs - 1, input);
      if ok { PairStands(s, u, pairs - 1, input); } else { StandsBroken(s, u, pairs, input); }
    }
  }

  lemma StandsBroken(s: DriveState, t: DriveState, pairs: nat, input: UpdateInput)
    requires IsShaped(s) && 0 < pairs <= |s.config.radius| && Stands(s, t, false, pairs - 1, input)
    ensures Stands(s, t, false, pairs, input)
  {
    hide AreTold, BreaksOff;
  }

  // ---------- Clock readings ----------

  /** So many readings of the clock never run backwards, and none reaches the deadline. */
  predicate AreInTime(p: Permission, input: UpdateInput, k: nat) {
    && p.observed <= input.Clock(0) && input.Clock(k) < p.deadline
    && forall j :: 0 <= j < k ==> input.Clock(j) <= input.Clock(j + 1)
  }

  /** The permission after so many readings, all in time. */
  predicate HasRead(p: Permission, q: Permission, input: UpdateInput, k: nat) {
    q == p.(observed := input.Clock(k)) && p.mode == Active
  }

  lemma WriteReads(s: DriveState, p: Permission, w: nat, value: real, from: set<Identity>, k: nat, input: UpdateInput)
    requires s.config.mode == OwnerPermission && p.identity == Current(s)
    requires HasRead(p, s.permission, input, k) && AreInTime(p, input, k)
    ensures var (t, ok) := WriteWheel(s, w, value, from, input.Clock(k + 1), input.zeroTaken);
      && (ok <==> AreInTime(p, input, k + 1))
      && (ok ==> HasRead(p, t.permission, input, k + 1) && Current(t) == Current(s) && t.config == s.config)
  {
    hide CanConsume, ApplyZero, Sync;
    UseIsExact(s.permission, Current(s), input.Clock(k + 1));
  }

  lemma {:induction false} PairsRead(s: DriveState, p: Permission, pairs: nat, input: UpdateInput)
    requires IsShaped(s) && pairs <= |s.config.radius| && s.config.mode == OwnerPermission && p.identity == Current(s)
    requires HasRead(p, s.permission, input, 0) && AreInTime(p, input, 0)
    ensures var (t, ok) := WritePairs(s, pairs, input);
      && (ok <==> AreInTime(p, input, 2 * pairs))
      && (ok ==> HasRead(p, t.permission, input, 2 * pairs) && Current(t) == Current(s))
    decreases pairs
  {
    hide PlanPair, WriteWheel, AreInTime, HasRead;
    if pairs == 0 {
    } else {
      PairsRead(s, p, pairs - 1, input);
      var (t, ok) := WritePairs(s, pairs - 1, input);
      if AreInTime(p, input, 2 * pairs) {
        FewerAreInTime(p, input, 2 * pairs - 2, 2 * pairs);
        FewerAreInTime(p, input, 2 * pairs - 1, 2 * pairs);
      }
      if ok {
        var i := pairs - 1;
        var plan := PlanPair(t, i, input.Speed(2 * i + 1), input.Speed(2 * i), Reach(t.config.maxAccel, input.seconds));
        var u := t.(wheels := plan.wheels);
        WriteReads(u, p, 2 * i + 1, plan.left, plan.leftFrom, 2 * i, input);
        var (v, done) := WriteWheel(u, 2 * i + 1, plan.left, plan.leftFrom, input.Clock(2 * i + 1), input.zeroTaken);
        if done { WriteReads(v, p, 2 * i, plan.right, plan.rightFrom, 2 * i + 1, input); }
      }
    }
  }

  lemma FewerAreInTime(p: Permission, input: UpdateInput, k: nat, n: nat)
    requires k <= n && AreInTime(p, input, n)
    ensures AreInTime(p, input, k)
    decreases n
  {
    if k < n {
      assert input.Clock(n - 1) <= input.Clock(n - 1 + 1);
      FewerAreInTime(p, input, k, n - 1);
    }
  }

  // ---------- Whole updates ----------

  /** Whether an update drives the wheels to the end: it may, and every reading of its clock is in time. */
  predicate DrivesThrough(s: DriveState, input: UpdateInput) {
    !s.isSealed && (s.config.mode == OwnerPermission ==> AreInTime(s.permission, input, s.config.Wheels()))
  }

  lemma {:induction false} NeverRefused(s: DriveState, pairs: nat, input: UpdateInput)
    requires IsShaped(s) && pairs <= |s.config.radius| && s.config.mode != OwnerPermission
    ensures WritePairs(s, pairs, input).1
    decreases pairs
  {
    hide PlanPair, Reach;
    if pairs == 0 {
    } else {
      NeverRefused(s, pairs - 1, input);
    }
  }

  lemma ConsultIsExact(s: DriveState, input: UpdateInput)
    requires DriveInv(s) && !s.isSealed
    ensures IsShaped(s)
    ensures var t := Consult(s, input);
      && MayBeTold(s) && IsShaped(t) && t.config == s.config
      && if s.config.mode == OwnerPermission then
           if AreInTime(s.permission, input, 0) then
             HasRead(s.permission, t.permission, input, 0) && t == s.(permission := t.permission) && MayBeTold(t)
           else t.isSealed && t.log == s.log + [Sealed]
         else t == s && t == s.(permission := t.permission)
  {
    hide IsHistory, WheelIsOwn, IsScope, CanConsume;
    UseIsExact(s.permission, Current(s), input.Clock(0));
  }

  lemma BrokenAtOnce(s: DriveState, t: DriveState, input: UpdateInput)
    requires IsShaped(s) && IsShaped(t) && t.config == s.config && t.isSealed && t.log == s.log + [Sealed]
    ensures var u := ApplyZero(t, input.zeroTaken); u.isSealed && u.config == s.config && IsShaped(u)
    ensures BreaksOff(s, input, ApplyZero(t, input.zeroTaken).log, 0)
  {
    hide ZeroWrites, Told, WheelAt;
    ZeroWritesOnly(|t.wheels|, input.zeroTaken);
    var log := ApplyZero(t, input.zeroTaken).log;
    assert log[..|s.log|] == s.log;
  }

  lemma DesiredStands(s: DriveState, t: DriveState, input: UpdateInput)
    requires IsShaped(s) && t == s.(permission := t.permission) && MayBeTold(t)
    ensures IsShaped(t)
    ensures var d := Desire(t, |t.config.separation|);
      Stands(s, d, true, 0, input) && Current(d) == Current(s) && d.permission == t.permission && d.config == s.config
  {
    hide Told, WheelAt, BreaksOff, Desire, Wanted;
    DesireSets(t, |t.config.separation|);
    var d := Desire(t, |t.config.separation|);
    forall w | 0 <= w < s.config.Wheels() ensures IsSet(s, d, w) {
      SetAnyway(s, t, d, w);
    }
  }

  lemma SetAnyway(s: DriveState, t: DriveState, d: DriveState, w: nat)
    requires IsShaped(s) && t == s.(permission := t.permission) && w < s.config.Wheels()
    requires IsShaped(d) && d.config == t.config && IsSet(t, d, w)
    ensures IsSet(s, d, w)
  {
  }

  /**
   An update of an open drive writes every wheel once, pair by pair, left before right: just the speed asked for, or one
   limited step towards it. A drive whose permission runs out meanwhile breaks off: what it wrote before was right, and
   from there on it writes only zeroes and is sealed.
   */
  lemma UpdateIsExact(s: DriveState, input: UpdateInput)
    requires DriveInv(s) && input.due && !s.isSealed
    ensures IsShaped(s)
    ensures var t := OnUpdate(s, input);
      && IsShaped(t) && t.config == s.config && (t.isSealed <==> !DrivesThrough(s, input))
      && if DrivesThrough(s, input) then
           && AreTold(s, input, t.log, |s.log|, s.config.Wheels())
           && forall w :: 0 <= w < s.config.Wheels() ==> IsDone(s, t, w, input)
         else exists n: nat :: n < s.config.Wheels() && BreaksOff(s, input, t.log, n)
  {
    hide DriveInv, Consult, Desire, WritePairs, ApplyZero, Stands, AreTold, BreaksOff, AreInTime, HasRead, IsDone;
    ConsultIsExact(s, input);
    var t, n := Consult(s, input), |s.config.radius|;
    if s.config.mode == OwnerPermission && AreInTime(s.permission, input, 2 * n) {
      FewerAreInTime(s.permission, input, 0, 2 * n);
    }
    if t.isSealed {
      BrokenAtOnce(s, t, input);
    } else {
      DesiredStands(s, t, input);
      var d := Desire(t, |t.config.separation|);
      PairsStand(s, d, n, input);
      if s.config.mode == OwnerPermission { PairsRead(d, s.permission, n, input); } else { NeverRefused(d, n, input); }
      WhatStands(s, WritePairs(d, n, input).0, WritePairs(d, n, input).1, input);
    }
  }

  lemma WhatStands(s: DriveState, t: DriveState, ok: bool, input: UpdateInput)
    requires IsShaped(s) && Stands(s, t, ok, |s.config.radius|, input)
    ensures IsShaped(t) && t.config == s.config && (t.isSealed <==> !ok)
    ensures if ok then
              && AreTold(s, input, t.log, |s.log|, s.config.Wheels())
              && forall w :: 0 <= w < s.config.Wheels() ==> IsDone(s, t, w, input)
            else exists n: nat :: n < s.config.Wheels() && BreaksOff(s, input, t.log, n)
  {
    hide AreTold, BreaksOff, IsDone;
  }

  /** Every wheel took the zero it was told. */
  predicate AllTook(n: nat, taken: seq<bool>) {
    n <= |taken| && forall w :: 0 <= w < n ==> taken[w]
  }

  /** Zeros written to every wheel since a moment, in order. */
  predicate AreZeroed(log: seq<Event>, start: nat, n: nat) {
    && start + n <= |log|
    && forall j :: start <= j < start + n ==> log[j].WroteZero? && log[j].zeroWheel == j - start
  }

  /** An update of a sealed drive writes zero to every wheel, in order; zero is applied once every wheel took it. */
  lemma SealedUpdateIsExact(s: DriveState, input: UpdateInput)
    requires DriveInv(s) && input.due && s.isSealed
    ensures IsShaped(s)
    ensures var t, n := OnUpdate(s, input), s.config.Wheels();
      && t.isSealed && (t.applied <==> s.applied || AllTook(n, input.zeroTaken)) && t.target == s.target
      && s.log <= t.log && AreZeroed(t.log, |s.log|, n)
      && |t.log| == |s.log| + n + (if AllTook(n, input.zeroTaken) && !s.applied then 1 else 0)
      && forall w :: 0 <= w < n ==> t.wheels[w].desired == 0.0 && t.wheels[w].instr == 0.0
  {
    hide IsHistory, WheelIsOwn, IsScope, CanConsume, ZeroWrites;
    ZeroWritesOnly(s.config.Wheels(), input.zeroTaken);
    TookIsTaken(s.config.Wheels(), input.zeroTaken);
  }

  lemma TookIsTaken(n: nat, taken: seq<bool>)
    ensures AllTook(n, taken) <==> AllTaken(n, taken)
  {
    if AllTaken(n, taken) {
      if n > 0 { assert Takes(taken, n - 1); }
      forall w | 0 <= w < n ensures taken[w] {
        assert Takes(taken, w);
      }
    }
  }
}
