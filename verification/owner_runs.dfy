/** What holds over every life of the owner: any hosts, any children, any answers of the system. */
module OwnerRuns {
  import opened Machine
  import opened ProcessSpec
  import P = RecoveryProtocol
  import opened OwnerSpec
  import opened OwnerInvariant

  datatype OwnerCall =
    | AttachHost(usable: bool, attachAt: U64, attachEnvironment: Environment)
    | PollAll(pollAt: U64, pollEnvironment: Environment)

  /** The owner after some calls; its history is in its log. */
  ghost function After(stopGrace: U64, calls: seq<OwnerCall>): (o: OwnerState)
    ensures OwnerInv(o)
  {
    if calls == [] then NewOwnerIsValid(stopGrace); NewOwner(stopGrace)
    else
      var o := After(stopGrace, calls[..|calls| - 1]);
      match calls[|calls| - 1]
      case AttachHost(usable, now, e) => AttachKeeps(o, usable, now, e); Attach(o, usable, now, e).0
      case PollAll(now, e) => PollKeeps(o, now, e); PollOwner(o, now, e)
  }

  /** The history up to an event admits that event. */
  lemma {:induction false} HistoryFits(log: seq<Event>, j: nat)
    requires IsHistory(log) && j < |log|
    ensures Fits(Summarize(log[..j]), log[j])
    ensures Summarize(log[..j + 1]) == Add(Summarize(log[..j]), log[j])
  {
    hide Fits, Add;
    assert log[..j + 1][..j] == log[..j];
    if j + 1 < |log| {
      HistoryFits(log[..|log| - 1], j);
      assert log[..|log| - 1][..j] == log[..j];
      assert log[..|log| - 1][..j + 1] == log[..j + 1];
    } else {
      assert log[..j + 1] == log;
    }
  }

  lemma {:induction false} SummaryGrows(log: seq<Event>, i: nat, j: nat)
    requires IsHistory(log) && i <= j <= |log|
    ensures var a, b := Summarize(log[..i]), Summarize(log[..j]);
      && a.launches <= b.launches && a.reaps <= b.reaps && a.sent + a.discarded <= b.sent + b.discarded
      && a.session <= b.session && (a.faulted ==> b.faulted)
  {
    hide IsHistory, Summarize;
    if i == j {
    } else {
      SummaryGrows(log, i, j - 1);
      HistoryFits(log, j - 1);
    }
  }

  lemma {:induction false} ReapedBetween(log: seq<Event>, i: nat, j: nat) returns (k: nat)
    requires IsHistory(log) && i < j <= |log| && log[i].LaunchedChild?
    requires Summarize(log[..j]).reaps >= log[i].number
    ensures i < k < j && log[k].ReapedChild? && log[k].number == log[i].number
  {
    hide IsHistory, Summarize;
    HistoryFits(log, i);
    HistoryFits(log, j - 1);
    SummaryGrows(log, i, j - 1);
    if Summarize(log[..j - 1]).reaps >= log[i].number { k := ReapedBetween(log, i, j - 1); }
    else { k := j - 1; }
  }

  /**
   A child is launched, and a session is activated, only when every child launched before - in
   whatever session - has exited, reached the end of its stream and had its channels closed.
   */
  lemma OneChildAtATime(stopGrace: U64, calls: seq<OwnerCall>, i: nat, j: nat) returns (k: nat)
    requires var log := After(stopGrace, calls).log;
      i < j < |log| && log[i].LaunchedChild? && (log[j].LaunchedChild? || log[j].ActivatedSession?)
    ensures var log := After(stopGrace, calls).log;
      && i < k < j && log[k].ReapedChild? && log[k].number == log[i].number
      && HasExited(log[k].seen) && log[k].seen.stream.eof && log[k].seen.channels.closed
  {
    hide After, IsHistory, Summarize;
    var log := After(stopGrace, calls).log;
    HistoryFits(log, i);
    HistoryFits(log, j);
    SummaryGrows(log, i + 1, j);
    k := ReapedBetween(log, i, j);
    HistoryFits(log, k);
  }

  /** After a fault no host is attached, no session activated and no child launched, ever. */
  lemma FaultIsFinal(stopGrace: U64, calls: seq<OwnerCall>, i: nat, j: nat)
    requires var log := After(stopGrace, calls).log; i < j < |log| && log[i].Faulted?
    ensures var e := After(stopGrace, calls).log[j];
      !e.Attached? && !e.ActivatedSession? && !e.LaunchedChild? && !e.Faulted?
  {
    hide After, IsHistory, Summarize;
    var log := After(stopGrace, calls).log;
    HistoryFits(log, i);
    HistoryFits(log, j);
    SummaryGrows(log, i + 1, j);
  }

  /** The launch a history's last child stands for. */
  lemma {:induction false} LastLaunch(log: seq<Event>, j: nat) returns (i: nat)
    requires IsHistory(log) && j <= |log| && Summarize(log[..j]).launches > 0
    ensures i < j && log[i].LaunchedChild? && log[i].number == Summarize(log[..j]).launches
    ensures Summarize(log[..j]).last == Some(LaunchRecord(log[i].session, log[i].operation, log[i].amount))
  {
    hide IsHistory;
    assert j > 0 by { assert log[..0] == []; }
    HistoryFits(log, j - 1);
    if log[j - 1].LaunchedChild? { i := j - 1; } else { i := LastLaunch(log, j - 1); }
  }

  lemma {:induction false} LastReap(log: seq<Event>, j: nat) returns (k: nat)
    requires IsHistory(log) && j <= |log| && Summarize(log[..j]).reaps > 0
    ensures k < j && log[k].ReapedChild? && log[k].number == Summarize(log[..j]).reaps
    ensures Summarize(log[..j]).seen == Some(log[k].seen)
  {
    hide IsHistory;
    assert j > 0 by { assert log[..0] == []; }
    HistoryFits(log, j - 1);
    if log[j - 1].ReapedChild? { k := j - 1; } else { k := LastReap(log, j - 1); }
  }

  /** A history in which a result was sent holds the launch and the reaping it stands for. */
  lemma SentResultIsEarned(log: seq<Event>, j: nat) returns (i: nat, k: nat)
    requires IsHistory(log) && j < |log| && log[j].SentResult?
    ensures IsEarned(log, i, k, j)
  {
    hide IsHistory, Summarize;
    HistoryFits(log, j);
    i := LastLaunch(log, j);
    k := LastReap(log, j);
    HistoryFits(log, i);
    HistoryFits(log, k);
    if k <= i { SummaryGrows(log, k, i); }
    forall a | i < a < j ensures !log[a].Attached? {
      HistoryFits(log, a);
      SummaryGrows(log, i, a);
      SummaryGrows(log, a + 1, j);
    }
  }

  /** Launched for just this, reaped, and reported as it ended, all within one session. */
  predicate IsEarned(log: seq<Event>, i: nat, k: nat, j: nat) {
    && i < k < j < |log| && log[j].SentResult? && log[k].ReapedChild?
    && (forall a :: i < a < j ==> !log[a].Attached?)
    && EarnsResult(log[i], log[k], log[j].number, log[j].result)
  }

  /**
   The message answers this launch with what this reaping saw: success with the value reported, if and only if the child
   exited with zero and had completed all the iterations asked for; failure without a value otherwise.
   */
  predicate EarnsResult(launch: Event, reaping: Event, number: nat, m: P.Message)
    requires reaping.ReapedChild?
  {
    var seen, view := reaping.seen, reaping.seen.stream.view;
    && launch == LaunchedChild(number, m.session, m.operation, m.amount)
    && reaping.number == number && seen.limit == m.amount
    && HasExited(seen) && seen.stream.eof && seen.channels.closed
    && m.kind == P.Result
    && (m.flags == P.SUCCEEDED <==>
        seen.reaping.exit == Some(ExitedWith(0)) && view.terminal == CompletedTerminal
          && view.terminalIterations == m.amount)
    && (m.flags == P.SUCCEEDED ==> m.value == view.terminalValue)
    && (m.flags != P.SUCCEEDED ==> m.flags == P.FAILED && m.value == 0)
  }

  /**
   A result sent is for a child launched in this very session for this very operation and amount;
   that child was reaped first, and the result is what it reported.
   */
  lemma ResultsComeFromReapedChildren(stopGrace: U64, calls: seq<OwnerCall>, j: nat) returns (i: nat, k: nat)
    requires var log := After(stopGrace, calls).log; j < |log| && log[j].SentResult?
    ensures IsEarned(After(stopGrace, calls).log, i, k, j)
  {
    hide After, IsHistory, Summarize;
    i, k := SentResultIsEarned(After(stopGrace, calls).log, j);
  }

  predicate Answers(e: Event, number: nat) {
    (e.SentResult? || e.DiscardedResult?) && e.number == number
  }

  /** The result of a child is sent once or discarded once, never both. */
  lemma AnsweredOnce(stopGrace: U64, calls: seq<OwnerCall>, i: nat, j: nat, number: nat)
    requires var log := After(stopGrace, calls).log;
      i < j < |log| && Answers(log[i], number)
    ensures !Answers(After(stopGrace, calls).log[j], number)
  {
    hide After, IsHistory, Summarize;
    var log := After(stopGrace, calls).log;
    HistoryFits(log, i);
    HistoryFits(log, j);
    SummaryGrows(log, i + 1, j);
  }

  function CountOf(log: seq<Event>, kind: Event -> bool): nat {
    if log == [] then 0
    else CountOf(log[..|log| - 1], kind) + (if kind(log[|log| - 1]) then 1 else 0)
  }

  lemma {:induction false} SummaryCounts(log: seq<Event>)
    ensures Summarize(log).launches == CountOf(log, (e: Event) => e.LaunchedChild?)
    ensures Summarize(log).sent == CountOf(log, (e: Event) => e.SentResult?)
    ensures Summarize(log).discarded == CountOf(log, (e: Event) => e.DiscardedResult?)
  {
    if log == [] {
    } else {
      SummaryCounts(log[..|log| - 1]);
    }
  }

  /**
   Every launch is accounted for: handed off, discarded, or still outstanding - across disconnects,
   retried sends and launches that failed. The owner's counters are these numbers in 64 bits.
   */
  lemma LaunchesAreConserved(stopGrace: U64, calls: seq<OwnerCall>)
    ensures var o := After(stopGrace, calls);
      var launched := CountOf(o.log, (e: Event) => e.LaunchedChild?);
      var discarded := CountOf(o.log, (e: Event) => e.DiscardedResult?);
      && launched == CountOf(o.log, (e: Event) => e.SentResult?) + discarded
                     + (if o.work.operation != 0 then 1 else 0)
      && o.counters.launches == launched % (MAX_U64 + 1)
      && o.counters.discardedResults == discarded % (MAX_U64 + 1)
  {
    hide After, IsHistory, Summarize;
    SummaryCounts(After(stopGrace, calls).log);
  }
}
