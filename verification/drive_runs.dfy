/** What holds over every life of the drive: any commands, services, updates and clock readings. */
module DriveRuns {
  import opened Machine
  import opened PermissionSpec
  import opened DriveSpec
  import opened DriveInvariant

  /** The critical sections; those about permits exist only where the drive has a permission. */
  datatype Section =
    | Update(input: UpdateInput)
    | UnscopedCommand(x: real, rot: real)
    | ScopedCommand(scoped: Command)
    | PermittedCommand(permitted: Command, commandNow: U64)
    | CloseScopeService(closing: string)
    | OpenScopeService(opening: string, expected: U64)
    | CloseGenerationService(closingScope: string, generation: U64)
    | OpenPermitService(permitScope: string, permitExpected: U64, operation: U64, openIssued: U64, openNow: U64)
    | RenewPermitService(renewing: Identity, renewIssued: U64, renewNow: U64)
    | ClosePermitService(releasing: Identity, closeNow: U64)
    | ResetWorld

  function Next(s: DriveState, c: Section): DriveState
    requires IsShaped(s)
  {
    match c
    case Update(input) => OnUpdate(s, input)
    case UnscopedCommand(x, rot) => OnCmdVel(s, x, rot)
    case ScopedCommand(c) => OnScopedCmd(s, c)
    case CloseScopeService(scope) => CloseScope(s, scope).0
    case OpenScopeService(scope, expected) => OpenScope(s, scope, expected).0
    case CloseGenerationService(scope, generation) => CloseGeneration(s, scope, generation).0
    case ResetWorld => Reset(s)
    case _ => if s.config.mode == OwnerPermission then NextPermit(s, c) else s
  }

  function NextPermit(s: DriveState, c: Section): DriveState {
    match c
    case PermittedCommand(command, now) => OnPermittedCmd(s, command, now)
    case OpenPermitService(scope, expected, operation, issued, now) =>
      OpenPermit(s, scope, expected, operation, issued, now).0
    case RenewPermitService(id, issued, now) => RenewPermit(s, id, issued, now).0
    case ClosePermitService(id, now) => ClosePermit(s, id, now).0
    case _ => s
  }

  lemma SectionKeeps(s: DriveState, c: Section)
    requires DriveInv(s)
    ensures IsShaped(s) && DriveInv(Next(s, c))
  {
    assert IsShaped(s);
    match c
    case Update(input) => UpdateKeeps(s, input);
    case UnscopedCommand(x, rot) => CommandsKeep(s, Command(NOBODY, x, rot, true));
    case ScopedCommand(command) => CommandsKeep(s, command);
    case CloseScopeService(scope) => CloseScopeKeeps(s, scope);
    case OpenScopeService(scope, expected) => GenerationCallsKeep(s, scope, expected);
    case CloseGenerationService(scope, generation) => GenerationCallsKeep(s, scope, generation);
    case ResetWorld => CommandsKeep(s, Command(NOBODY, 0.0, 0.0, true));
    case PermittedCommand(command, now) => if s.config.mode == OwnerPermission {
      PermittedCommandKeeps(s, command, now);
    }
    case OpenPermitService(scope, expected, operation, issued, now) =>
      if s.config.mode == OwnerPermission { OpenPermitKeeps(s, scope, expected, operation, issued, now); }
    case RenewPermitService(id, issued, now) => if s.config.mode == OwnerPermission {
      RenewPermitKeeps(s, id, issued, now);
    }
    case ClosePermitService(id, now) => if s.config.mode == OwnerPermission { ClosePermitKeeps(s, id, now); }
  }

  /** The drive after some critical sections. */
  ghost function After(config: DriveConfig, sections: seq<Section>): (s: DriveState)
    requires config.Valid()
    ensures DriveInv(s)
  {
    if sections == [] then NewDriveIsValid(config); NewDrive(config)
    else
      var s := After(config, sections[..|sections| - 1]);
      SectionKeeps(s, sections[|sections| - 1]);
      Next(s, sections[|sections| - 1])
  }

  // ---------- Histories ----------

  lemma {:induction false} HistoryFits(c: DriveConfig, log: seq<Event>, j: nat)
    requires IsHistory(c, log) && j < |log|
    ensures Fits(c, Summarize(c, log[..j]), log[j])
    ensures Summarize(c, log[..j + 1]) == Add(Summarize(c, log[..j]), log[j])
  {
    hide Fits, Add;
    assert log[..j + 1][..j] == log[..j];
    if j + 1 < |log| {
      HistoryFits(c, log[..|log| - 1], j);
      assert log[..|log| - 1][..j] == log[..j];
      assert log[..|log| - 1][..j + 1] == log[..j + 1];
    } else {
      assert log[..j + 1] == log;
    }
  }

  predicate OpensOrSeals(e: Event) {
    e.Opened? || e.Sealed?
  }

  /** An open drive was opened, and has not been sealed since. */
  lemma {:induction false} OpenedBefore(c: DriveConfig, log: seq<Event>, j: nat) returns (o: nat)
    requires IsHistory(c, log) && j <= |log| && c.mode != Unscoped && !Summarize(c, log[..j]).isSealed
    ensures o < j && log[o].Opened? && log[o].identity == Summarize(c, log[..j]).identity
    ensures forall a :: o < a < j ==> !OpensOrSeals(log[a])
  {
    hide IsHistory, Fits;
    assert j > 0 by { assert log[..0] == []; }
    HistoryFits(c, log, j - 1);
    if log[j - 1].Opened? { o := j - 1; } else { o := OpenedBefore(c, log, j - 1); }
  }

  /** Once sealed, a drive stays so until it is opened. */
  lemma {:induction false} SealedUntilOpened(c: DriveConfig, log: seq<Event>, i: nat, j: nat)
    requires IsHistory(c, log) && i < j <= |log| && log[i].Sealed? && (forall a :: i < a < j ==> !log[a].Opened?)
    ensures Summarize(c, log[..j]).isSealed
  {
    hide IsHistory, Summarize, Fits;
    HistoryFits(c, log, j - 1);
    if i < j - 1 { SealedUntilOpened(c, log, i, j - 1); }
  }

  /** Wheels 0 to k - 1 have just taken zero, in this order. */
  predicate AreZeroes(log: seq<Event>, from: nat, k: nat) {
    from + k <= |log| && forall w :: 0 <= w < k ==> log[from + w] == WroteZero(w, true)
  }

  predicate CountsZeroes(log: seq<Event>, j: nat, h: History) {
    j <= |log| && (h.applied || (h.zeroes <= j && AreZeroes(log, j - h.zeroes, h.zeroes)))
  }

  lemma CountsOneMore(log: seq<Event>, j: nat, h: History)
    requires CountsZeroes(log, j, h) && j < |log|
    ensures CountsZeroes(log, j + 1, Add(h, log[j]))
  {
  }

  lemma {:induction false} ZeroesWereTaken(c: DriveConfig, log: seq<Event>, j: nat)
    requires IsHistory(c, log) && j <= |log|
    ensures CountsZeroes(log, j, Summarize(c, log[..j]))
  {
    if j == 0 { assert log[..0] == []; }
    else {
      HistoryFits(c, log, j - 1);
      ZeroesWereTaken(c, log, j - 1);
      CountsOneMore(log, j - 1, Summarize(c, log[..j - 1]));
    }
  }

  /** Zero was applied: every wheel took it in one pass, and nothing was written or opened since. */
  predicate IsZeroPass(log: seq<Event>, n: nat, z: nat, j: nat) {
    && n <= z < j <= |log| && log[z] == ZeroApplied && AreZeroes(log, z - n, n)
    && forall a :: z <= a < j ==> !log[a].Wrote? && !OpensOrSeals(log[a])
  }

  lemma {:induction false} AppliedBefore(c: DriveConfig, log: seq<Event>, j: nat) returns (z: nat)
    requires IsHistory(c, log) && j <= |log| && Summarize(c, log[..j]).applied
    ensures Summarize(c, log[..j]).isSealed && IsZeroPass(log, c.Wheels(), z, j)
  {
    hide IsHistory;
    assert j > 0 by { assert log[..0] == []; }
    HistoryFits(c, log, j - 1);
    if log[j - 1].ZeroApplied? {
      ZeroesWereTaken(c, log, j - 1);
      z := j - 1;
    } else {
      z := AppliedBefore(c, log, j - 1);
    }
  }

  // ---------- Theorems ----------

  /**
   A scope is opened only after every wheel took zero in one uninterrupted pass since the drive was
   last sealed, with nothing written and nothing opened in between.
   */
  lemma OpeningFollowsZero(config: DriveConfig, sections: seq<Section>, j: nat) returns (z: nat)
    requires config.Valid() && j < |After(config, sections).log| && After(config, sections).log[j].Opened?
    ensures IsZeroPass(After(config, sections).log, config.Wheels(), z, j)
  {
    hide After, IsHistory, Summarize;
    ConfigStays(config, sections);
    var log := After(config, sections).log;
    HistoryFits(config, log, j);
    z := AppliedBefore(config, log, j);
  }

  lemma {:induction false} ConfigStays(config: DriveConfig, sections: seq<Section>)
    requires config.Valid()
    ensures After(config, sections).config == config && IsHistory(config, After(config, sections).log)
  {
    hide Next;
    if sections == [] {
    } else {
      ConfigStays(config, sections[..|sections| - 1]);
      NextKeepsConfig(After(config, sections[..|sections| - 1]), sections[|sections| - 1]);
    }
  }

  lemma NextKeepsConfig(s: DriveState, c: Section)
    requires IsShaped(s)
    ensures Next(s, c).config == s.config
  {
    hide WritePairs, Desire, Open, Renew, Close, CanConsume;
  }

  /** After a seal no speed is written until a scope is opened: everything in between is zero. */
  lemma SealedMeansZero(config: DriveConfig, sections: seq<Section>, i: nat, j: nat) returns (o: nat)
    requires config.Valid() && i < j < |After(config, sections).log|
    requires After(config, sections).log[i].Sealed? && After(config, sections).log[j].Wrote?
    ensures config.mode != Unscoped && i < o < j && After(config, sections).log[o].Opened?
  {
    hide After, IsHistory, Summarize;
    ConfigStays(config, sections);
    var log := After(config, sections).log;
    HistoryFits(config, log, j);
    if forall a :: i < a < j ==> !log[a].Opened? { SealedUntilOpened(config, log, i, j); }
    o :| i < o < j && log[o].Opened?;
    HistoryFits(config, log, o);
  }

  /**
   Whatever is written to a wheel was made only of commands that carry the scope, generation and operation now
   open.
   */
  lemma WritesCarryTheOpenScope(config: DriveConfig, sections: seq<Section>, j: nat) returns (o: nat)
    requires config.Valid() && config.mode != Unscoped
    requires j < |After(config, sections).log| && After(config, sections).log[j].Wrote?
    ensures var log := After(config, sections).log;
      o < j && log[o].Opened? && (forall a :: o < a < j ==> !OpensOrSeals(log[a])) && log[j].from <= {log[o].identity}
  {
    hide After, IsHistory, Summarize;
    ConfigStays(config, sections);
    var log := After(config, sections).log;
    HistoryFits(config, log, j);
    o := OpenedBefore(config, log, j);
  }

  lemma {:induction false} GrantedBefore(c: DriveConfig, log: seq<Event>, j: nat) returns (g: nat)
    requires IsHistory(c, log) && j <= |log| && Summarize(c, log[..j]).lease > 0
    ensures g < j && log[g] == Granted(Summarize(c, log[..j]).identity, Summarize(c, log[..j]).lease)
    ensures forall a :: g < a < j ==> !log[a].Granted? && !OpensOrSeals(log[a])
  {
    hide IsHistory;
    assert j > 0 by { assert log[..0] == []; }
    HistoryFits(c, log, j - 1);
    if log[j - 1].Granted? { g := j - 1; } else { g := GrantedBefore(c, log, j - 1); }
  }

  /** The write at j was admitted under the lease granted at g to the identity opened at o. */
  predicate IsLeased(log: seq<Event>, o: nat, g: nat, j: nat) {
    && o < g < j < |log| && log[o].Opened? && log[g].Granted? && log[j].Wrote? && log[j].at.Some?
    && (forall a :: o < a < j ==> !OpensOrSeals(log[a]))
    && log[g].holder == log[o].identity
    && log[g].issued <= log[j].at.value < log[g].issued + LIFETIME_NS <= MAX_U64
  }

  lemma WriteIsLeased(c: DriveConfig, log: seq<Event>, j: nat) returns (o: nat, g: nat)
    requires IsHistory(c, log) && c.mode == OwnerPermission && j < |log| && log[j].Wrote?
    ensures IsLeased(log, o, g, j)
  {
    hide IsHistory, Summarize;
    HistoryFits(c, log, j);
    o := OpenedBefore(c, log, j);
    g := GrantedBefore(c, log, j);
  }

  /**
   Under a permission, a write admitted at a time lies inside the lease last granted to the
   identity now open, which has not been sealed since.
   */
  lemma WritesLieInALease(config: DriveConfig, sections: seq<Section>, j: nat) returns (o: nat, g: nat)
    requires config.Valid() && config.mode == OwnerPermission
    requires j < |After(config, sections).log| && After(config, sections).log[j].Wrote?
    ensures IsLeased(After(config, sections).log, o, g, j)
  {
    hide After, IsHistory, IsLeased;
    ConfigStays(config, sections);
    o, g := WriteIsLeased(config, After(config, sections).log, j);
  }

  /** The drive is sealed exactly when its permission is not active, after every critical section. */
  lemma SealedExactlyWhenInactive(config: DriveConfig, sections: seq<Section>)
    requires config.Valid() && config.mode == OwnerPermission
    ensures var s := After(config, sections); s.isSealed <==> s.permission.mode != Active
  {
    hide After;
    ConfigStays(config, sections);
  }

  predicate IsZeroing(e: Event) {
    e.WroteZero? || e.ZeroApplied?
  }

  /** What a critical section adds to the history of a drive whose permission has failed. */
  lemma FaultOnlyZeroes(s: DriveState, c: Section)
    requires DriveInv(s) && s.config.mode == OwnerPermission && s.permission.mode == FaultClosed
    ensures IsShaped(s)
    ensures var t := Next(s, c);
      && t.permission.mode == FaultClosed && |s.log| <= |t.log| && s.log == t.log[..|s.log|]
      && forall a :: |s.log| <= a < |t.log| ==> IsZeroing(t.log[a])
  {
    hide IsHistory, Summarize, Desire, WritePairs, IsScope;
    if c.Update? { ZeroWritesAreZeroing(|s.wheels|, c.input.zeroTaken); }
  }

  lemma {:induction false} ZeroWritesAreZeroing(n: nat, taken: seq<bool>)
    ensures forall a :: 0 <= a < |ZeroWrites(n, taken)| ==> IsZeroing(ZeroWrites(n, taken)[a])
  {
    if n == 0 {
    } else {
      ZeroWritesAreZeroing(n - 1, taken);
    }
  }

  /** A fault is final: from then on the drive writes nothing but zero and opens nothing. */
  lemma {:induction false} FaultIsFinal(config: DriveConfig, sections: seq<Section>, k: nat)
    requires config.Valid() && config.mode == OwnerPermission && k <= |sections|
    requires After(config, sections[..k]).permission.mode == FaultClosed
    ensures var s, t := After(config, sections[..k]), After(config, sections);
      && t.permission.mode == FaultClosed && |s.log| <= |t.log| && s.log == t.log[..|s.log|]
      && forall a :: |s.log| <= a < |t.log| ==> IsZeroing(t.log[a])
    decreases |sections|
  {
    hide Next, DriveInv;
    if k == |sections| { assert sections[..k] == sections; }
    else {
      var before := sections[..|sections| - 1];
      assert before[..k] == sections[..k];
      FaultIsFinal(config, before, k);
      ConfigStays(config, before);
      FaultOnlyZeroes(After(config, before), sections[|sections| - 1]);
    }
  }
}
