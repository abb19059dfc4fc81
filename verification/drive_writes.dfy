/**
 Where the speeds written to the wheels come from. A nonzero speed comes from a command of the open scope,
 except on the acceleration-limited branch of an update, where a drive that has not been told anything
 corrects measured speeds. The exception is exact, and can be read off before the update.
 */
module DriveWrites {
  import opened Machine
  import opened PermissionSpec
  import opened DriveSpec
  import opened DriveInvariant
  import opened DriveRuns

  /** Whether an update would correct wheel `w` although no command is behind it. */
  predicate IsStray(s: DriveState, w: nat, input: UpdateInput)
    requires IsShaped(s) && w < s.config.Wheels()
  {
    var left, right := input.Speed(w / 2 * 2 + 1), input.Speed(w / 2 * 2);
    var speed, rising := if w % 2 == 1 then left else right, if w % 2 == 1 then 0.0 >= left else 0.0 > right;
    && s.target.from == {} && s.wheels[w].instrFrom == {}
    && s.config.maxAccel != 0.0 && !(Abs(0.0 - left) < 0.01 && Abs(0.0 - right) < 0.01)
    && s.wheels[w].instr + Change(0.0 - speed, rising, Reach(s.config.maxAccel, input.seconds)) != 0.0
  }

  /** A write of a nonzero speed with no command behind it. */
  predicate IsUncommanded(e: Event) {
    e.Wrote? && e.value != 0.0 && e.from == {}
  }

  lemma TurningIsZero(speed: real, radius: real)
    requires radius != 0.0
    ensures Turning(speed, radius) == 0.0 <==> speed == 0.0
  {
    if speed != 0.0 { assert Turning(speed, radius) * radius == speed; }
  }

  // ---------- One pair ----------

  /** The wheel as an update takes it up: told to go for the target, its instruction as it was. */
  predicate IsTold(s: DriveState, w: Wheel, was: Wheel) {
    && w.instr == was.instr && w.instrFrom == was.instrFrom && w.desiredFrom == s.target.from
    && (s.target.from == {} ==> w.desired == 0.0)
  }

  predicate PairIsTold(s: DriveState, t: DriveState, i: nat)
    requires IsShaped(s) && IsShaped(t) && t.config == s.config && i < |s.config.radius|
  {
    IsTold(s, t.wheels[2 * i + 1], s.wheels[2 * i + 1]) && IsTold(s, t.wheels[2 * i], s.wheels[2 * i])
  }

  predicate IsUncommandedSpeed(value: real, from: set<Identity>) {
    value != 0.0 && from == {}
  }

  lemma HalfOf(i: nat)
    ensures (2 * i + 1) / 2 * 2 == 2 * i && 2 * i / 2 * 2 == 2 * i && (2 * i + 1) % 2 == 1 && 2 * i % 2 == 0
  {
  }

  /** A step from a wheel without commands behind it. */
  lemma StepIsStray(s: DriveState, w: Wheel, was: Wheel, speed: real, limit: real, rising: bool, radius: real)
    requires IsTold(s, w, was) && radius != 0.0
    ensures var m := Step(w, speed, rising, limit);
      IsUncommandedSpeed(Turning(m.instr, radius), m.instrFrom) <==>
      s.target.from == {} && was.instrFrom == {} && was.instr + Change(0.0 - speed, rising, limit) != 0.0
  {
    hide Turning, Change;
    TurningIsZero(Step(w, speed, rising, limit).instr, radius);
  }

  lemma PlanIsStray(s: DriveState, t: DriveState, i: nat, input: UpdateInput)
    requires IsShaped(s) && IsShaped(t) && t.config == s.config && i < |s.config.radius| && PairIsTold(s, t, i)
    ensures var p := PlanPair(t, i, input.Speed(2 * i + 1), input.Speed(2 * i),
                              Reach(s.config.maxAccel, input.seconds));
      && (IsUncommandedSpeed(p.left, p.leftFrom) <==> IsStray(s, 2 * i + 1, input))
      && (IsUncommandedSpeed(p.right, p.rightFrom) <==> IsStray(s, 2 * i, input))
  {
    hide Turning, Change, Reach, Abs;
    HalfOf(i);
    var left, right, limit := input.Speed(2 * i + 1), input.Speed(2 * i), Reach(s.config.maxAccel, input.seconds);
    var l, r, radius := t.wheels[2 * i + 1], t.wheels[2 * i], s.config.radius[i];
    TurningIsZero(l.desired, radius);
    TurningIsZero(r.desired, radius);
    StepIsStray(s, l, s.wheels[2 * i + 1], left, limit, l.desired >= left, radius);
    StepIsStray(s, r, s.wheels[2 * i], right, limit, r.desired > right, radius);
  }

  // ---------- What an update adds to the history ----------

  /** Every write since a moment is uncommanded exactly where the drive before the update says so. */
  predicate WritesAsForeseen(s: DriveState, input: UpdateInput, log: seq<Event>, start: nat)
    requires IsShaped(s)
  {
    forall j :: start <= j < |log| && log[j].Wrote? ==>
      log[j].wheel < s.config.Wheels() && (IsUncommanded(log[j]) <==> IsStray(s, log[j].wheel, input))
  }

  lemma OneMoreEvent(s: DriveState, input: UpdateInput, log: seq<Event>, start: nat, e: Event)
    requires IsShaped(s) && WritesAsForeseen(s, input, log, start)
    requires e.Wrote? ==> e.wheel < s.config.Wheels() && (IsUncommanded(e) <==> IsStray(s, e.wheel, input))
    ensures WritesAsForeseen(s, input, log + [e], start)
  {
    hide IsStray, IsUncommanded;
  }

  lemma {:induction false} ZeroesAreNoWrites(s: DriveState, input: UpdateInput, log: seq<Event>, start: nat, n: nat,
                                             taken: seq<bool>)
    requires IsShaped(s) && WritesAsForeseen(s, input, log, start)
    ensures WritesAsForeseen(s, input, log + ZeroWrites(n, taken), start)
  {
    hide WritesAsForeseen;
    if n == 0 {
      assert log + [] == log;
    } else {
      ZeroesAreNoWrites(s, input, log, start, n - 1, taken);
      OneMoreEvent(s, input, log + ZeroWrites(n - 1, taken), start, WroteZero(n - 1, Takes(taken, n - 1)));
      assert log + ZeroWrites(n, taken) == log + ZeroWrites(n - 1, taken) + [WroteZero(n - 1, Takes(taken, n - 1))];
    }
  }

  lemma ZeroingForeseen(s: DriveState, t: DriveState, input: UpdateInput, start: nat, taken: seq<bool>)
    requires IsShaped(s) && WritesAsForeseen(s, input, t.log, start)
    ensures WritesAsForeseen(s, input, ApplyZero(t, taken).log, start)
  {
    hide WritesAsForeseen, AllTaken, ZeroWrites;
    ZeroesAreNoWrites(s, input, t.log, start, |t.wheels|, taken);
    OneMoreEvent(s, input, t.log + ZeroWrites(|t.wheels|, taken), start, ZeroApplied);
  }

  lemma SyncForeseen(s: DriveState, t: DriveState, input: UpdateInput, start: nat)
    requires IsShaped(s) && WritesAsForeseen(s, input, t.log, start)
    ensures WritesAsForeseen(s, input, Sync(t).log, start)
  {
    hide WritesAsForeseen;
    OneMoreEvent(s, input, t.log, start, Sealed);
  }

  /** One write, or the zeroing in its place. */
  lemma WriteForeseen(s: DriveState, t: DriveState, w: nat, value: real, from: set<Identity>, now: U64,
                      input: UpdateInput, start: nat)
    requires IsShaped(s) && WritesAsForeseen(s, input, t.log, start) && w < s.config.Wheels()
    requires IsUncommandedSpeed(value, from) <==> IsStray(s, w, input)
    ensures var (u, ok) := WriteWheel(t, w, value, from, now, input.zeroTaken);
      WritesAsForeseen(s, input, u.log, start) && (ok ==> u.wheels == t.wheels && u.config == t.config)
  {
    hide WritesAsForeseen, ApplyZero, Sync, CanConsume, IsStray;
    OneMoreEvent(s, input, t.log, start, Wrote(w, value, from, None));
    OneMoreEvent(s, input, t.log, start, Wrote(w, value, from, Some(now)));
    var q := t.(permission := CanConsume(t.permission, Current(t), now).0);
    SyncForeseen(s, q, input, start);
    ZeroingForeseen(s, Sync(q), input, start, input.zeroTaken);
  }

  lemma PlanForeseen(s: DriveState, t: DriveState, i: nat, p: Plan, input: UpdateInput, start: nat)
    requires IsShaped(s) && WritesAsForeseen(s, input, t.log, start) && i < |s.config.radius|
    requires IsUncommandedSpeed(p.left, p.leftFrom) <==> IsStray(s, 2 * i + 1, input)
    requires IsUncommandedSpeed(p.right, p.rightFrom) <==> IsStray(s, 2 * i, input)
    ensures var (u, ok) := WritePlan(t, i, p, input);
      WritesAsForeseen(s, input, u.log, start) && (ok ==> u.wheels == t.wheels && u.config == t.config)
  {
    hide WritesAsForeseen, WriteWheel, IsStray, IsUncommandedSpeed;
    WriteForeseen(s, t, 2 * i + 1, p.left, p.leftFrom, input.Clock(2 * i + 1), input, start);
    var (u, ok) := WriteWheel(t, 2 * i + 1, p.left, p.leftFrom, input.Clock(2 * i + 1), input.zeroTaken);
    if ok { WriteForeseen(s, u, 2 * i, p.right, p.rightFrom, input.Clock(2 * i + 2), input, start); }
  }

  /** The pairs from `k` on are as the update took them up. */
  predicate RestIsTold(s: DriveState, t: DriveState, k: nat)
    requires IsShaped(s) && IsShaped(t) && t.config == s.config
  {
    forall i :: k <= i < |s.config.radius| ==> PairIsTold(s, t, i)
  }

  lemma PairForeseen(s: DriveState, t: DriveState, i: nat, input: UpdateInput, start: nat)
    requires IsShaped(s) && IsShaped(t) && t.config == s.config && i < |s.config.radius|
    requires WritesAsForeseen(s, input, t.log, start) && RestIsTold(s, t, i)
    ensures var (u, ok) := WritePair(t, i, input);
      && WritesAsForeseen(s, input, u.log, start) && IsShaped(u) && u.config == s.config
      && (ok ==> RestIsTold(s, u, i + 1))
  {
    hide WritesAsForeseen, WritePlan, IsStray, IsUncommandedSpeed, Reach, Step, Turning, Abs;
    assert PairIsTold(s, t, i);
    PlanIsStray(s, t, i, input);
    var p := PlanPair(t, i, input.Speed(2 * i + 1), input.Speed(2 * i), Reach(s.config.maxAccel, input.seconds));
    PlanForeseen(s, t.(wheels := p.wheels), i, p, input, start);
    var u := WritePair(t, i, input).0;
    if WritePair(t, i, input).1 {
      forall m | i + 1 <= m < |s.config.radius| ensures PairIsTold(s, u, m) {
        assert PairIsTold(s, t, m);
        assert u.wheels[2 * m + 1] == t.wheels[2 * m + 1] && u.wheels[2 * m] == t.wheels[2 * m];
      }
    }
  }

  lemma {:induction false} PairsForeseen(s: DriveState, t: DriveState, pairs: nat, input: UpdateInput, start: nat)
    requires IsShaped(s) && IsShaped(t) && t.config == s.config && pairs <= |s.config.radius|
    requires WritesAsForeseen(s, input, t.log, start) && RestIsTold(s, t, 0)
    ensures var (u, ok) := WritePairs(t, pairs, input);
      && WritesAsForeseen(s, input, u.log, start) && IsShaped(u) && u.config == s.config
      && (ok ==> RestIsTold(s, u, pairs))
    decreases pairs
  {
    hide WritesAsForeseen, RestIsTold, WritePair;
    if pairs == 0 {
      assert WritePairs(t, 0, input) == (t, true);
    } else {
      PairsForeseen(s, t, pairs - 1, input, start);
      var (u, ok) := WritePairs(t, pairs - 1, input);
      if ok { PairForeseen(s, u, pairs - 1, input, start); }
    }
  }

  /** Telling the wheels changes what they are to reach, not what they were instructed. */
  lemma {:induction false} DesireTells(s: DriveState, pairs: nat)
    requires IsShaped(s) && pairs <= |s.config.separation|
             && (s.target.from == {} ==> s.target.x == 0.0 && s.target.rot == 0.0)
    ensures var t := Desire(s, pairs);
      && (forall i :: 0 <= i < pairs ==> PairIsTold(s, t, i))
      && (forall w :: 2 * pairs <= w < |s.wheels| ==> t.wheels[w] == s.wheels[w])
  {
    hide HalfTurn;
    if pairs == 0 {
    } else {
      DesireTells(s, pairs - 1);
      StoppedTarget(s.target, s.config.separation[pairs - 1]);
      var t, u := Desire(s, pairs - 1), Desire(s, pairs);
      forall i | 0 <= i < pairs ensures PairIsTold(s, u, i) {
        if i < pairs - 1 {
          assert PairIsTold(s, t, i);
          assert u.wheels[2 * i + 1] == t.wheels[2 * i + 1] && u.wheels[2 * i] == t.wheels[2 * i];
        }
      }
    }
  }

  lemma ConsultKeepsTarget(s: DriveState, input: UpdateInput)
    requires IsShaped(s)
    ensures var t := Consult(s, input);
      && IsShaped(t) && t.config == s.config
      && (!t.isSealed ==> t.wheels == s.wheels && t.target == s.target && t.log == s.log)
      && (t.isSealed ==> t.log == s.log || t.log == s.log + [Sealed])
  {
    hide CanConsume;
  }

  lemma StrayDependsOn(s: DriveState, t: DriveState, input: UpdateInput, log: seq<Event>, start: nat)
    requires IsShaped(s) && IsShaped(t) && t.config == s.config && t.wheels == s.wheels && t.target == s.target
    ensures WritesAsForeseen(s, input, log, start) == WritesAsForeseen(t, input, log, start)
  {
    assert forall w :: 0 <= w < s.config.Wheels() ==> IsStray(s, w, input) == IsStray(t, w, input);
  }

  /**
   An update writes a nonzero speed to a wheel with no command behind it exactly where the state before says it
   would.
   */
  lemma UpdateForeseen(s: DriveState, input: UpdateInput)
    requires DriveInv(s)
    ensures IsShaped(s) && WritesAsForeseen(s, input, OnUpdate(s, input).log, |s.log|)
  {
    ConsultKeepsTarget(s, input);
    var t := Consult(s, input);
    assert s.target.from == {} ==> s.target.x == 0.0 && s.target.rot == 0.0;
    assert WritesAsForeseen(s, input, s.log, |s.log|);
    OneMoreEvent(s, input, s.log, |s.log|, Sealed);
    if t.isSealed {
      ZeroingForeseen(s, t, input, |s.log|, input.zeroTaken);
    } else {
      var d := Desire(t, |t.config.separation|);
      DesireTells(t, |t.config.separation|);
      StrayDependsOn(s, t, input, s.log, |s.log|);
      PairsForeseen(t, d, |t.config.radius|, input, |s.log|);
      StrayDependsOn(s, t, input, WritePairs(d, |t.config.radius|, input).0.log, |s.log|);
    }
  }

  // ---------- Theorems ----------

  lemma SectionAddsToRun(config: DriveConfig, sections: seq<Section>, c: Section)
    requires config.Valid()
    ensures var s := DriveRuns.After(config, sections);
      IsShaped(s) && DriveRuns.After(config, sections + [c]) == DriveRuns.Next(s, c)
  {
    hide DriveInv, DriveRuns.Next, IsShaped;
    assert (sections + [c])[..|sections|] == sections;
    SectionKeeps(DriveRuns.After(config, sections), c);
  }

  lemma UpdateAddsToRun(config: DriveConfig, sections: seq<Section>, input: UpdateInput)
    requires config.Valid()
    ensures var s := DriveRuns.After(config, sections);
      IsShaped(s) && DriveRuns.After(config, sections + [Update(input)]) == OnUpdate(s, input)
  {
    hide DriveInv, OnUpdate, IsShaped, DriveRuns.After;
    SectionAddsToRun(config, sections, Update(input));
  }

  /**
   Of the speeds an update writes, a nonzero one is made of commands of the open scope, generation and
   operation exactly when the drive before the update did not foresee it as a correction of its own.
   */
  lemma NonzeroWritesAreCommanded(config: DriveConfig, sections: seq<Section>, input: UpdateInput, j: nat)
    returns (o: nat)
    requires config.Valid() && config.mode != Unscoped
    requires |DriveRuns.After(config, sections).log| <= j < |DriveRuns.After(config, sections + [Update(input)]).log|
    requires var e := DriveRuns.After(config, sections + [Update(input)]).log[j]; e.Wrote? && e.value != 0.0
    ensures var s, log := DriveRuns.After(config, sections), DriveRuns.After(config, sections + [Update(input)]).log;
      && o < j && log[o].Opened? && (forall a :: o < a < j ==> !OpensOrSeals(log[a]))
      && IsShaped(s) && log[j].wheel < s.config.Wheels()
      && (log[j].from == {log[o].identity} <==> !IsStray(s, log[j].wheel, input))
  {
    hide DriveInv, OnUpdate, IsStray, DriveRuns.After;
    o := WritesCarryTheOpenScope(config, sections + [Update(input)], j);
    UpdateAddsToRun(config, sections, input);
    InvAfter(config, sections);
    UpdateForeseen(DriveRuns.After(config, sections), input);
    var e := DriveRuns.After(config, sections + [Update(input)]).log[j];
    assert e.from == {} || e.from == {DriveRuns.After(config, sections + [Update(input)]).log[o].identity};
  }

  lemma InvAfter(config: DriveConfig, sections: seq<Section>)
    requires config.Valid()
    ensures DriveInv(DriveRuns.After(config, sections))
  {
    hide DriveInv;
  }

  /** Without an acceleration limit no correction is ever foreseen: every nonzero speed is commanded. */
  lemma UnlimitedDriveIsCommanded(s: DriveState, w: nat, input: UpdateInput)
    requires IsShaped(s) && w < s.config.Wheels()
    requires s.config.maxAccel == 0.0 || s.target.from != {} || s.wheels[w].instrFrom != {}
    ensures !IsStray(s, w, input)
  {
  }

  // ---------- The exception ----------

  const A_SCOPE := "0123456789abcdef0123456789abcdef"
  const ONE_PAIR := DriveConfig(Generations, [1.0], [1.0], 1.0)
  const AT_REST := UpdateInput(true, 1.0, [], [0.0, 0.0], [true, true])
  const PUSHED := UpdateInput(true, 1.0, [], [1.0, 1.0], [])

  /** Zero is applied and a scope opened; nobody has commanded anything. */
  function OpenedDrive(): DriveState {
    NewDrive(ONE_PAIR).(scope := A_SCOPE, generation := 1, isSealed := false,
                        log := [WroteZero(0, true), WroteZero(1, true), ZeroApplied, Opened(Identity(A_SCOPE, 1, 0))])
  }

  lemma ZeroIsApplied()
    ensures IsShaped(NewDrive(ONE_PAIR))
    ensures OnUpdate(NewDrive(ONE_PAIR), AT_REST)
         == NewDrive(ONE_PAIR).(applied := true, log := [WroteZero(0, true), WroteZero(1, true), ZeroApplied])
  {
    assert ZeroWrites(2, [true, true]) == ZeroWrites(1, [true, true]) + [WroteZero(1, true)];
    assert ZeroWrites(1, [true, true]) == ZeroWrites(0, [true, true]) + [WroteZero(0, true)];
    assert ZeroWrites(2, [true, true]) == [WroteZero(0, true), WroteZero(1, true)];
    assert AllTaken(2, [true, true]);
  }

  lemma RunStarts(config: DriveConfig)
    requires config.Valid()
    ensures DriveRuns.After(config, []) == NewDrive(config)
  {
    hide DriveInv, NewDrive;
  }

  lemma AScopeIsScope()
    ensures IsScope(A_SCOPE)
  {
    assert |A_SCOPE| == 32 && A_SCOPE != NO_SCOPE;
  }

  lemma ScopeIsOpened()
    ensures DriveRuns.After(ONE_PAIR, [Update(AT_REST), OpenScopeService(A_SCOPE, 0)]) == OpenedDrive()
  {
    hide DriveRuns.After, OnUpdate, DriveInv, IsScope, IsShaped;
    var none: seq<Section> := [];
    RunStarts(ONE_PAIR);
    SectionAddsToRun(ONE_PAIR, none, Update(AT_REST));
    assert none + [Update(AT_REST)] == [Update(AT_REST)];
    ZeroIsApplied();
    SectionAddsToRun(ONE_PAIR, [Update(AT_REST)], OpenScopeService(A_SCOPE, 0));
    assert [Update(AT_REST)] + [OpenScopeService(A_SCOPE, 0)] == [Update(AT_REST), OpenScopeService(A_SCOPE, 0)];
    AScopeIsScope();
  }

  lemma PushIsCorrected()
    ensures IsShaped(OpenedDrive()) && 4 < |OnUpdate(OpenedDrive(), PUSHED).log|
    ensures OnUpdate(OpenedDrive(), PUSHED).log[4] == Wrote(1, -1.0, {}, None)
    ensures OnUpdate(OpenedDrive(), PUSHED).log[..4] == OpenedDrive().log
  {
    var s := OpenedDrive();
    var d := Desire(s, 1);
    assert Desire(s, 0) == s;
    assert HalfTurn(0.0, 1.0) == 0.0 && Reach(1.0, 1.0) == 1.0;
    assert d.wheels[1] == STILL && d.wheels[0] == STILL;
    var p := PlanPair(d, 0, 1.0, 1.0, 1.0);
    assert Turning(-1.0, 1.0) == -1.0;
    assert p.left == -1.0 && p.leftFrom == {};
    assert WritePairs(d, 0, PUSHED) == (d, true);
  }

  /** The exception is there: on this run a wheel is driven although nobody has commanded anything. */
  lemma PushedDriveCorrects()
    ensures ONE_PAIR.Valid()
    ensures var log := DriveRuns.After(ONE_PAIR, [Update(AT_REST), OpenScopeService(A_SCOPE, 0), Update(PUSHED)]).log;
      && 4 < |log| && IsUncommanded(log[4])
      && forall k :: 0 <= k < 4 ==> !log[k].Wrote?
  {
    hide OnUpdate, DriveInv, IsScope, DriveRuns.After;
    ScopeIsOpened();
    PushIsCorrected();
    var two := [Update(AT_REST), OpenScopeService(A_SCOPE, 0)];
    assert two + [Update(PUSHED)] == [Update(AT_REST), OpenScopeService(A_SCOPE, 0), Update(PUSHED)];
    UpdateAddsToRun(ONE_PAIR, two, PUSHED);
  }
}
