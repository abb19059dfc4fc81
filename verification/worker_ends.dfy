/** How a compute child ends, from what its environment did: completed, cancelled or failed. */
module WorkerEnds {
  import opened Machine
  import opened Frames
  import opened Sums
  import opened Workers

  /** Ready was written, and in the batches up to this one no command came and nothing failed. */
  ghost predicate IsUndisturbed(inputs: nat -> Input, batches: nat) {
    && inputs(0).send == Sent
    && forall k :: 1 <= k <= batches ==> inputs(k).control == NothingYet && inputs(k).send != SendFailed
  }

  /** The stop command was read before this batch, and it was acknowledged and followed. */
  ghost predicate IsStoppedAt(inputs: nat -> Input, batch: nat) {
    && batch >= 1 && IsUndisturbed(inputs, batch - 1)
    && inputs(batch).control == Command(STOP_COMMAND) && inputs(batch).send == Sent && inputs(batch + 1).send == Sent
  }

  /** What a number of batches comes to. */
  function CompletedBy(limit: nat, batches: nat): nat {
    if batches * 4096 < limit then batches * 4096 else limit
  }

  lemma BatchesReachLimit(limit: nat, batches: nat)
    requires 0 < limit
    ensures batches < Batches(limit) <==> CompletedBy(limit, batches) < limit
    ensures CompletedBy(limit, batches) < limit ==>
            CompletedBy(limit, batches + 1) == BatchEnd(CompletedBy(limit, batches), limit)
    ensures Batches(limit) >= 1
  {
  }

  lemma UndisturbedExtends(inputs: nat -> Input, batches: nat)
    requires batches >= 1
    ensures IsUndisturbed(inputs, batches) <==>
            && IsUndisturbed(inputs, batches - 1)
            && inputs(batches).control == NothingYet && inputs(batches).send != SendFailed
  {
  }

  /** The child after a batch: still at it, stopping, or gone. */
  lemma {:induction false} AfterBatches(limit: nat, inputs: nat -> Input, batches: nat)
    requires 0 < limit <= MAXIMUM_ITERATIONS && batches <= Batches(limit)
    ensures var c := After(limit, inputs, batches + 1).child;
      && (c.Running? <==> IsUndisturbed(inputs, batches))
      && (c.Running? ==> c.completed == CompletedBy(limit, batches))
      && (c.Stopping? <==> batches >= 1 && IsUndisturbed(inputs, batches - 1)
                           && inputs(batches).control == Command(STOP_COMMAND) && inputs(batches).send == Sent)
      && !c.Starting? && (c.Exited? ==> c.code == FAILURE_EXIT_CODE || c.code == CANCELLED_EXIT_CODE)
      && (c == Exited(CANCELLED_EXIT_CODE) <==> exists k :: 1 <= k < batches && IsStoppedAt(inputs, k))
  {
    hide IsUndisturbed, SumTo;
    BatchesReachLimit(limit, batches);
    assert After(limit, inputs, 0) == Trace(Starting, []);
    assert IsUndisturbed(inputs, 0) <==> inputs(0).send == Sent by { StartsUndisturbed(inputs); }
    if batches == 0 {
    } else {
      AfterBatches(limit, inputs, batches - 1);
      BatchesReachLimit(limit, batches - 1);
      UndisturbedExtends(inputs, batches);
      StepOn(limit, inputs, batches);
      StopsSoFar(inputs, batches);
    }
  }

  lemma StartsUndisturbed(inputs: nat -> Input)
    ensures IsUndisturbed(inputs, 0) <==> inputs(0).send == Sent
  {
  }

  lemma StopsSoFar(inputs: nat -> Input, batches: nat)
    requires batches >= 1
    ensures (exists k :: 1 <= k < batches && IsStoppedAt(inputs, k)) <==>
            (exists k :: 1 <= k < batches - 1 && IsStoppedAt(inputs, k))
              || (batches >= 2 && IsStoppedAt(inputs, batches - 1))
  {
    hide IsStoppedAt;
  }

  /** One turn of a child. */
  lemma StepOn(limit: nat, inputs: nat -> Input, turn: nat)
    requires 0 < limit <= MAXIMUM_ITERATIONS
    ensures var c, d, i := After(limit, inputs, turn).child, After(limit, inputs, turn + 1).child, inputs(turn);
      match c
      case Starting => d == if i.send == Sent then Running(0, 0) else Exited(FAILURE_EXIT_CODE)
      case Running(completed, dropped) =>
        if completed == limit then d == if i.send == Sent then Exited(0) else Exited(FAILURE_EXIT_CODE)
        else if i.control == Command(STOP_COMMAND) then
          d == if i.send == Sent then Stopping(completed, dropped) else Exited(FAILURE_EXIT_CODE)
        else if i.control != NothingYet || i.send == SendFailed then d == Exited(FAILURE_EXIT_CODE)
        else d.Running? && d.completed == BatchEnd(completed, limit)
      case Stopping(_, _) => d == if i.send == Sent then Exited(CANCELLED_EXIT_CODE) else Exited(FAILURE_EXIT_CODE)
      case Exited(_) => d == c
  {
    hide SumTo;
  }

  /**
   A child ends within two turns of its last batch: completed if and only if no command came and nothing failed;
   cancelled if and only if before some batch the stop command was read, acknowledged and followed; failed otherwise.
   */
  lemma EndIsExact(limit: nat, inputs: nat -> Input)
    requires 0 < limit <= MAXIMUM_ITERATIONS
    ensures var c, last := After(limit, inputs, Batches(limit) + 2).child, Batches(limit);
      && c.Exited?
      && (c.code == 0 <==> IsUndisturbed(inputs, last) && inputs(last + 1).send == Sent)
      && (c.code == CANCELLED_EXIT_CODE <==> exists k :: 1 <= k <= last && IsStoppedAt(inputs, k))
      && (c.code == 0 || c.code == CANCELLED_EXIT_CODE || c.code == FAILURE_EXIT_CODE)
  {
    hide IsUndisturbed, After;
    var last := Batches(limit);
    AfterBatches(limit, inputs, last);
    BatchesReachLimit(limit, last);
    StepOn(limit, inputs, last + 1);
    StopsSoFar(inputs, last + 1);
  }
}
