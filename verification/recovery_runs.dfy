/** The theorems about every run of the whole recovery protocol. */
module RecoveryRuns {
  import opened Machine
  import opened Sums
  import P = RecoveryProtocol
  import opened RecoveryProtocol
  import C = ClientSpec
  import CR = ClientRuns
  import CI = ClientInvariant
  import opened Conversation
  import O = OwnerSpec
  import OI = OwnerInvariant
  import OR = OwnerRuns
  import OC = OwnedChild
  import opened RecoverySystem

  ghost predicate Steps(s: System, m: Move, t: System) {
    Possible(s, m) && t == Next(s, m)
  }

  /** Any number of hosts, crashes, children, delays and losses, move by move. */
  ghost predicate IsRun(stopGrace: U64, states: seq<System>, moves: seq<Move>) {
    && |states| == |moves| + 1 && states[0] == Start(stopGrace)
    && forall i :: 0 <= i < |moves| ==> Steps(states[i], moves[i], states[i + 1])
  }

  lemma {:induction false} RunsAreValid(stopGrace: U64, states: seq<System>, moves: seq<Move>, k: nat)
    requires IsRun(stopGrace, states, moves) && k < |states|
    ensures SystemInv(states[k])
  {
    hide SystemInv, Next, Possible, Start;
    if k == 0 { StartIsValid(stopGrace); }
    else {
      RunsAreValid(stopGrace, states, moves, k - 1);
      assert Steps(states[k - 1], moves[k - 1], states[k]);
      MoveKeepsSystem(states[k - 1], moves[k - 1]);
    }
  }

  lemma LinkOf(stopGrace: U64, states: seq<System>, moves: seq<Move>, k: nat, session: U64)
    requires IsRun(stopGrace, states, moves) && k < |states| && session in states[k].links
    ensures OI.OwnerInv(states[k].owner) && LinkInv(states[k].owner, states[k].links[session], session)
    ensures 2 <= session <= states[k].owner.session.epoch
  {
    hide IsRun, LinkInv, OI.OwnerInv;
    RunsAreValid(stopGrace, states, moves, k);
  }

  /** A child launched for an operation, reaped, and then its result sent. */
  predicate IsAccountedFor(log: seq<O.Event>, i: nat, r: nat, j: nat, session: U64, operation: U64, amount: U64) {
    && OR.IsEarned(log, i, r, j)
    && log[i] == O.LaunchedChild(log[j].number, session, operation, amount)
  }

  /**
   A value a client shows, whether it is still open or has closed since, is the sum over the iterations of its
   operation; the owner launched a child in this very session for this operation and that many iterations,
   reaped it and closed its channels, and only then sent the result. Nothing of an earlier session is shown.
   */
  lemma ShownValueIsGenuine(stopGrace: U64, states: seq<System>, moves: seq<Move>, k: nat, session: U64)
    returns (i: nat, r: nat, j: nat)
    requires IsRun(stopGrace, states, moves) && k < |states| && session in states[k].links
    requires states[k].links[session].client.value.Some?
    ensures var c := states[k].links[session].client;
      && c.operation.Some? && c.value.value == SumTo(c.iterations)
      && IsAccountedFor(states[k].owner.log, i, r, j, session, c.operation.value.operationId, c.iterations)
  {
    LinkOf(stopGrace, states, moves, k, session);
    var log := states[k].owner.log;
    var c := states[k].links[session].client;
    assert OI.IsHistory(log);
    ValueIsExact(c);
    var request :| WasSent(log, ShownBy(c, session, request));
    j :| 0 <= j < |log| && log[j].SentResult? && log[j].result == ShownBy(c, session, request);
    i, r := OR.SentResultIsEarned(log, j);
  }

  lemma ValueIsExact(c: C.ClientState)
    requires CR.ClientInv(c) && c.value.Some?
    ensures c.operation.Some? && c.value.value == SumTo(c.iterations)
  {
    hide ExpectedSum, SumTo, Cubic;
    SupportedSumsDoNotWrap(c.iterations);
  }

  /**
   No client ever receives a message out of place, and its gate never refuses it before more than
   2^62 requests: a client closes only for its clock, its peer, lateness, its caller or that limit.
   */
  lemma ClientsAreNeverMisled(stopGrace: U64, states: seq<System>, moves: seq<Move>, k: nat, session: U64)
    requires IsRun(stopGrace, states, moves) && k < |states| && session in states[k].links
    ensures var c := states[k].links[session].client;
      && c.cause != Some(C.OutOfPlace)
      && (c.cause == Some(C.GateRefused) ==> c.nonce >= 0x4000_0000_0000_0000)
      && (C.IsClosed(c) <==> c.cause.Some?)
  {
    hide IsRun, OI.OwnerInv, Converses;
    LinkOf(stopGrace, states, moves, k, session);
  }

  /** The host's gate is bound to, or prepared for, the generation that is its session's number. */
  lemma BoundGenerationIsSession(stopGrace: U64, states: seq<System>, moves: seq<Move>, k: nat, session: U64)
    requires IsRun(stopGrace, states, moves) && k < |states| && session in states[k].links
    requires var c := states[k].links[session].client;
      !C.IsClosed(c) && (c.exchange == C.ActivationExchange || c.phase == C.ReadyToSubmit)
    ensures var c := states[k].links[session].client;
      c.gate.Some? && var g := c.gate.value;
      if c.phase == C.ReadyToSubmit then g.config.binding == CI.BindingOf(session)
      else
        && c.candidate == Some(CI.BindingOf(session)) && g.candidate.Some?
        && g.candidate.value.binding == CI.BindingOf(session)
  {
    hide IsRun, OI.OwnerInv;
    LinkOf(stopGrace, states, moves, k, session);
  }

  /** The request at the head of a live session's queue. */
  ghost predicate HasRequest(s: System, session: U64) {
    && session in s.links && IsLive(s.owner, session) && O.MayReceive(s.owner)
    && !C.IsClosed(s.links[session].client) && s.links[session].toOwner != []
  }

  /** What the owner makes of a request, by its kind. */
  predicate IsUnderstood(o: O.OwnerState, m: Message, now: U64, canLaunch: bool) {
    && m.session == o.session.epoch && m.request > o.session.lastRequest
    && (m.kind == P.Query || m.kind == P.Activate || m.kind == P.Submit)
    && (m.kind == P.Query ==> O.IsQuery(o, m))
    && (m.kind == P.Activate ==>
          (O.IsActivation(o, m, now, canLaunch) <==>
           !o.fault && canLaunch && Elapsed(o.session.clearTokenAt, now) < EVIDENCE_LIFETIME_MS))
    && (m.kind == P.Submit ==> (O.IsSubmission(o, m, canLaunch) <==> !o.fault && canLaunch))
  }

  lemma RequestIsUnderstood(o: O.OwnerState, l: Link, session: U64, now: U64, canLaunch: bool)
    requires OI.OwnerInv(o) && CR.ClientInv(l.client) && Converses(l.client, l.toOwner, l.toClient, o, session)
    requires IsLive(o, session) && O.MayReceive(o) && !C.IsClosed(l.client) && l.toOwner != []
    ensures IsUnderstood(o, l.toOwner[0], now, canLaunch)
  {
    hide SumTo, OI.IsHistory, O.Summarize, OI.HistoryMatches, CI.IsFreeGate, CI.IsWorkingGate, CI.IsBlockedGate,
         CI.IsPreparingGate;
    assert Requests(l.toOwner, l.client)[0] == l.toOwner[0] == RequestOf(l.client);
  }

  /**
   The owner understands every request of an open client it is attached to: it answers a query
   always, an activation while its snapshot is fresh and a worker can be launched, and a
   submission whenever a worker can be launched.
   */
  lemma RequestsAreUnderstood(stopGrace: U64, states: seq<System>, moves: seq<Move>, k: nat, session: U64,
                              now: U64, canLaunch: bool)
    requires IsRun(stopGrace, states, moves) && k < |states| && HasRequest(states[k], session)
    ensures IsUnderstood(states[k].owner, states[k].links[session].toOwner[0], now, canLaunch)
  {
    hide IsRun, OI.OwnerInv, CR.ClientInv, Converses, IsUnderstood;
    LinkOf(stopGrace, states, moves, k, session);
    RequestIsUnderstood(states[k].owner, states[k].links[session], session, now, canLaunch);
  }

  /** The guards that keep the moves defined never rule anything out: they hold in every run. */
  lemma MovesAreDefined(stopGrace: U64, states: seq<System>, moves: seq<Move>, k: nat)
    requires IsRun(stopGrace, states, moves) && k < |states|
    ensures var s := states[k];
      && O.HasRoom(s.owner) && (s.owner.process.Some? ==> IsDriven(s))
      && forall session :: session in s.links && !C.IsClosed(s.links[session].client) ==>
           && C.CanHandle(s.links[session].client)
           && (s.links[session].client.phase == C.ReadyToSubmit ==> s.links[session].client.gate.Some?)
  {
    hide IsRun, O.HasRoom, OI.OwnerInv, Converses;
    RunsAreValid(stopGrace, states, moves, k);
    var s := states[k];
    OC.RoomOf(s.owner);
    forall session | session in s.links && !C.IsClosed(s.links[session].client)
      ensures C.CanHandle(s.links[session].client)
      ensures s.links[session].client.phase == C.ReadyToSubmit ==> s.links[session].client.gate.Some?
    {
      assert LinkInv(s.owner, s.links[session], session);
      CR.InvCanHandle(s.links[session].client);
    }
  }
}
