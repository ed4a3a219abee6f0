/**
 * Sequences of coordinator requests: the order in which queued commands
 * are handed out, for one user's queue and for the shared passwordless one.
 */
module ApiTrace {
  import opened Protocol
  import opened Api

  /** One request handled by the coordinator, or one pass of the inactivity sweep. */
  datatype Op =
    | RunCommandOp(req: Request, id: string, now: int)
    | GetCommandOp(password: string, now: int)
    | PostResultOp(password: string, body: PostBody, now: int)
    | TakeResultOp(id: string, channel: Option<string>)
    | SweepOp(now: int)

  function Step(t: Tables, admin: string, op: Op): Tables
  {
    match op
    case RunCommandOp(req, id, now) => Submit(t, req, id, now)
    case GetCommandOp(password, now) => NextCommand(t, admin, password, now).0
    case PostResultOp(password, body, now) => PostResult(t, admin, password, body, now).0
    case TakeResultOp(id, channel) => TakeResult(t, id, channel).0
    case SweepOp(now) => Swept(t, now)
  }

  function After(t: Tables, admin: string, ops: seq<Op>): Tables
    decreases |ops|
  {
    if ops == [] then t else After(Step(t, admin, ops[0]), admin, ops[1..])
  }

  /** The command one request hands to a poll with `password`, if any. */
  function HandedTo(t: Tables, admin: string, op: Op, password: string): seq<QueuedCommand>
  {
    if op.GetCommandOp? && op.password == password then
      var next := NextCommand(t, admin, password, op.now).1;
      if next.Some? then [next.value] else []
    else []
  }

  /** The commands handed out, in order, to polls with `password`. */
  function ServedTo(t: Tables, admin: string, ops: seq<Op>, password: string): seq<QueuedCommand>
    decreases |ops|
  {
    if ops == [] then []
    else HandedTo(t, admin, ops[0], password) + ServedTo(Step(t, admin, ops[0]), admin, ops[1..], password)
  }

  /** The commands queued by `ops` under the user password `password`. */
  function SubmittedFor(ops: seq<Op>, password: string): seq<QueuedCommand>
  {
    if ops == [] then []
    else
      var op := ops[0];
      (if op.RunCommandOp? && !IsPasswordless(op.req) && op.req.password.value == password
       then [CommandDataOf(op.req, op.id)] else [])
      + SubmittedFor(ops[1..], password)
  }

  /** The commands queued by `ops` without a password. */
  function SubmittedPasswordless(ops: seq<Op>): seq<QueuedCommand>
  {
    if ops == [] then []
    else
      var op := ops[0];
      (if op.RunCommandOp? && IsPasswordless(op.req) then [CommandDataOf(op.req, op.id)] else [])
      + SubmittedPasswordless(ops[1..])
  }

  predicate NoSweeps(ops: seq<Op>)
  {
    forall i :: 0 <= i < |ops| ==> !ops[i].SweepOp?
  }

  /** Two steps of a queue's bookkeeping compose into one. */
  lemma Telescope(q0: seq<QueuedCommand>, s1: seq<QueuedCommand>, s2: seq<QueuedCommand>,
                  h1: seq<QueuedCommand>, q1: seq<QueuedCommand>, h2: seq<QueuedCommand>, q2: seq<QueuedCommand>)
    requires q0 + s1 == h1 + q1 && q1 + s2 == h2 + q2
    ensures q0 + (s1 + s2) == (h1 + h2) + q2
  {
    calc {
      q0 + (s1 + s2);
      (q0 + s1) + s2;
      h1 + (q1 + s2);
      h1 + (h2 + q2);
    }
  }

  lemma SubmittedForCons(ops: seq<Op>, password: string)
    requires ops != []
    ensures SubmittedFor(ops, password) == SubmittedFor([ops[0]], password) + SubmittedFor(ops[1..], password)
  {
    assert SubmittedFor([ops[0]], password) == SubmittedFor([ops[0]], password) + [];
  }

  lemma SubmittedPasswordlessCons(ops: seq<Op>)
    requires ops != []
    ensures SubmittedPasswordless(ops) == SubmittedPasswordless([ops[0]]) + SubmittedPasswordless(ops[1..])
  {
    assert SubmittedPasswordless([ops[0]]) == SubmittedPasswordless([ops[0]]) + [];
  }

  lemma NoSweepsSplit(ops: seq<Op>)
    requires ops != [] && NoSweeps(ops)
    ensures !ops[0].SweepOp? && NoSweeps(ops[1..])
  {
    assert forall i :: 0 <= i < |ops[1..]| ==> ops[1..][i] == ops[i + 1];
  }

  lemma AdminStep(t: Tables, admin: string, op: Op)
    requires !op.SweepOp?
    ensures QueueOf(t, admin) + SubmittedFor([op], admin) == [] + QueueOf(Step(t, admin, op), admin)
  {
    assert SubmittedFor([op], admin)
        == if op.RunCommandOp? && !IsPasswordless(op.req) && op.req.password.value == admin
           then [CommandDataOf(op.req, op.id)] else [];
  }

  lemma UserStep(t: Tables, admin: string, op: Op, password: string)
    requires password != admin && !op.SweepOp?
    ensures QueueOf(t, password) + SubmittedFor([op], password)
         == HandedTo(t, admin, op, password) + QueueOf(Step(t, admin, op), password)
  {
    assert SubmittedFor([op], password)
        == if op.RunCommandOp? && !IsPasswordless(op.req) && op.req.password.value == password
           then [CommandDataOf(op.req, op.id)] else [];
    if op.GetCommandOp? && op.password == password && QueueOf(t, password) != [] {
      var q := QueueOf(t, password);
      assert q == [q[0]] + q[1..];
    }
  }

  /**
   * A user's commands leave their queue in the order they were queued: what
   * the queue held plus what was queued equals what was handed out plus
   * what is left. The sweep is left out of `ops`, since it may drop the queue.
   */
  lemma {:induction false} UserQueueFifo(t: Tables, admin: string, ops: seq<Op>, password: string)
    requires password != admin && NoSweeps(ops)
    ensures QueueOf(t, password) + SubmittedFor(ops, password)
         == ServedTo(t, admin, ops, password) + QueueOf(After(t, admin, ops), password)
    decreases |ops|
  {
    if ops != [] {
      var op, rest, t1 := ops[0], ops[1..], Step(t, admin, ops[0]);
      NoSweepsSplit(ops);
      UserStep(t, admin, op, password);
      UserQueueFifo(t1, admin, rest, password);
      Telescope(QueueOf(t, password), SubmittedFor([op], password), SubmittedFor(rest, password),
                HandedTo(t, admin, op, password), QueueOf(t1, password),
                ServedTo(t1, admin, rest, password), QueueOf(After(t1, admin, rest), password));
      SubmittedForCons(ops, password);
    } else {
      assert QueueOf(t, password) + [] == [] + QueueOf(t, password);
    }
  }

  lemma PasswordlessStep(t: Tables, admin: string, op: Op)
    ensures t.passwordlessCommands + SubmittedPasswordless([op])
         == HandedTo(t, admin, op, admin) + Step(t, admin, op).passwordlessCommands
  {
    assert SubmittedPasswordless([op])
        == if op.RunCommandOp? && IsPasswordless(op.req) then [CommandDataOf(op.req, op.id)] else [];
    if op.GetCommandOp? && op.password == admin && t.passwordlessCommands != [] {
      var q := t.passwordlessCommands;
      assert q == [q[0]] + q[1..];
    }
  }

  /**
   * Passwordless commands reach the admin agent in the order they were
   * queued, and only they do: every command handed to an admin poll was
   * queued without a password. The sweep never touches this queue.
   */
  lemma {:induction false} PasswordlessFifo(t: Tables, admin: string, ops: seq<Op>)
    ensures t.passwordlessCommands + SubmittedPasswordless(ops)
         == ServedTo(t, admin, ops, admin) + After(t, admin, ops).passwordlessCommands
    decreases |ops|
  {
    if ops != [] {
      var op, rest, t1 := ops[0], ops[1..], Step(t, admin, ops[0]);
      PasswordlessStep(t, admin, op);
      PasswordlessFifo(t1, admin, rest);
      Telescope(t.passwordlessCommands, SubmittedPasswordless([op]), SubmittedPasswordless(rest),
                HandedTo(t, admin, op, admin), t1.passwordlessCommands,
                ServedTo(t1, admin, rest, admin), After(t1, admin, rest).passwordlessCommands);
      SubmittedPasswordlessCons(ops);
    } else {
      assert t.passwordlessCommands + [] == [] + t.passwordlessCommands;
    }
  }

  /**
   * No poll ever takes from the user queue of the admin password itself:
   * commands queued with the admin password as their password only pile up.
   */
  lemma {:induction false} AdminUserQueueOnlyGrows(t: Tables, admin: string, ops: seq<Op>)
    requires NoSweeps(ops)
    ensures QueueOf(After(t, admin, ops), admin) == QueueOf(t, admin) + SubmittedFor(ops, admin)
    decreases |ops|
  {
    if ops != [] {
      var op, rest, t1 := ops[0], ops[1..], Step(t, admin, ops[0]);
      NoSweepsSplit(ops);
      AdminStep(t, admin, op);
      AdminUserQueueOnlyGrows(t1, admin, rest);
      SubmittedForCons(ops, admin);
      Telescope(QueueOf(t, admin), SubmittedFor([op], admin), SubmittedFor(rest, admin),
                [], QueueOf(t1, admin), [], QueueOf(After(t1, admin, rest), admin));
    }
  }

  /** Every command handed to a user's polls was queued for that user, and they come out in queueing order. */
  lemma UserServedInOrder(t: Tables, admin: string, ops: seq<Op>, password: string)
    requires password != admin && NoSweeps(ops)
    ensures ServedTo(t, admin, ops, password) <= QueueOf(t, password) + SubmittedFor(ops, password)
  {
    UserQueueFifo(t, admin, ops, password);
  }

  /** Every command handed to the admin agent was queued without a password, and they come out in queueing order. */
  lemma PasswordlessServedInOrder(t: Tables, admin: string, ops: seq<Op>)
    ensures ServedTo(t, admin, ops, admin) <= t.passwordlessCommands + SubmittedPasswordless(ops)
  {
    PasswordlessFifo(t, admin, ops);
  }
}
