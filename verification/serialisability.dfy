/** Concurrent writers.  Any number of threads step through the durable-backing check,
    BEGIN IMMEDIATE, the statements of the body one at a time, and COMMIT or ROLLBACK, in any
    interleaving, with busy timeouts, loss of the backing file and crashes anywhere.  Nothing
    but the order of these steps protects the lookups that precede an insert. */
module Serialisability {
  import opened Wrappers
  import opened Contract
  import opened Tables
  import opened Metadata
  import opened History

  // ---------------------------------------------------------------------------
  // One transaction body, statement by statement
  // ---------------------------------------------------------------------------

  datatype Pc =
    | AtGuards
    | AtKey
    | AtId
    | AtWrite(decision: Decision)
    | Finished(reply: Reply)

  ghost function FoundByKey<R(!new)>(t: Table<R>, sub: Submission<R>): Option<Verdict<R>> {
    if sub.row.binding.None? then None else
    var byKey := FindByScope(t, sub.row.binding.value.scope);
    if byKey.None? then None else Some(JudgeByKey(t[byKey.value], sub))
  }

  /** The SELECT by `(producer, key)`: what a hit decides. */
  ghost function KeyRead(h: Hasher, db: Db, op: Op): Option<Decision> {
    match op
    case CreateExperiment(e, key) =>
      var sub := ExperimentSubmission(h, db, e, key);
      var v := FoundByKey(db.experiments, sub);
      if v.Some? then Some(ConcludeExperiment(sub.row, v.value)) else None
    case CreateRun(r, key) =>
      var sub := RunSubmission(h, r, key);
      var v := FoundByKey(db.runs, sub);
      if v.Some? then Some(ConcludeRun(sub.row, v.value)) else None
    case AppendEvidence(e) =>
      var sub := EvidenceSubmission(h, db, e);
      var v := FoundByKey(db.evidence, sub);
      if v.Some? then Some(ConcludeEvidence(sub.row, v.value)) else None
    case RegisterArtifact(a, key, producer) =>
      if key.Some? && Unscoped(producer) then Some(Raise(ContractViolation)) else
      var sub := ArtifactSubmission(h, db, a, key, ScopeProducer(producer));
      var v := FoundByKey(db.artifacts, sub);
      if v.Some? then Some(ConcludeArtifact(sub.row, v.value)) else None
    case RecordPromotion(p, key) =>
      var sub := PromotionSubmission(h, db, p, key);
      var v := FoundByKey(db.promotions, sub);
      if v.Some? then Some(ConcludePromotion(sub.row, v.value)) else None
    case RecordHealth(r, key) =>
      var sub := HealthSubmission(h, db, r, key);
      var v := FoundByKey(db.health, sub);
      if v.Some? then Some(ConcludeHealth(sub.row, v.value)) else None
    case _ => None
  }

  /** The SELECT by id, and what its result decides. */
  function IdRead(h: Hasher, db: Db, op: Op): Decision {
    match op
    case RegisterStrategy(s) => DecideStrategy(h, db, s)
    case RegisterStrategyVersion(v) => DecideVersion(h, db, v)
    case CreateExperiment(e, key) =>
      var sub := ExperimentSubmission(h, db, e, key);
      ConcludeExperiment(sub.row, JudgeById(db.experiments, sub))
    case CreateRun(r, key) =>
      var sub := RunSubmission(h, r, key);
      ConcludeRun(sub.row, JudgeById(db.runs, sub))
    case CloseRun(id, status, endedAt) => DecideClose(db, id, status, endedAt)
    case AppendEvidence(e) =>
      var sub := EvidenceSubmission(h, db, e);
      ConcludeEvidence(sub.row, JudgeById(db.evidence, sub))
    case RegisterArtifact(a, key, producer) =>
      var sub := ArtifactSubmission(h, db, a, key, ScopeProducer(producer));
      ConcludeArtifact(sub.row, JudgeById(db.artifacts, sub))
    case AttachArtifact(id, toEvidence, toRun) => DecideAttach(db, id, toEvidence, toRun)
    case RecordPromotion(p, key) =>
      var sub := PromotionSubmission(h, db, p, key);
      ConcludePromotion(sub.row, JudgeById(db.promotions, sub))
    case RecordHealth(r, key) =>
      var sub := HealthSubmission(h, db, r, key);
      ConcludeHealth(sub.row, JudgeById(db.health, sub))
  }

  /** The next statement of the body, reading the database as it is committed right now. */
  ghost function Statement(h: Hasher, db: Db, op: Op, pc: Pc): Pc
    requires !pc.Finished?
  {
    match pc
    case AtGuards => if GuardsPass(db, op) then AtKey else Finished(Raised(NotFound))
    case AtKey => if KeyRead(h, db, op).Some? then AtWrite(KeyRead(h, db, op).value) else AtId
    case AtId => AtWrite(IdRead(h, db, op))
    case AtWrite(d) => Finished(d.reply)
  }

  /** What the rest of the body will decide if the database stays as it is. */
  ghost function Remaining(h: Hasher, db: Db, op: Op, pc: Pc, pending: Write): Decision {
    match pc
    case AtGuards => Decide(h, db, op)
    case AtKey => if KeyRead(h, db, op).Some? then KeyRead(h, db, op).value else IdRead(h, db, op)
    case AtId => IdRead(h, db, op)
    case AtWrite(d) => d
    case Finished(reply) => Decision(pending, reply)
  }

  /** Guards, then the key, then the id is exactly how the specification decides. */
  lemma BodyDecides(h: Hasher, db: Db, op: Op)
    requires GuardsPass(db, op)
    ensures Decide(h, db, op) == Remaining(h, db, op, AtKey, NoWrite)
  {
  }

  // ---------------------------------------------------------------------------
  // The system
  // ---------------------------------------------------------------------------

  type ThreadId = nat

  datatype Phase =
    | Idle
    | Checked(op: Op)
    | InTransaction(op: Op, pc: Pc, pending: Write)

  /** A write that got an answer from the body of its transaction, or one that SQLite or the missing
      file turned away. */
  datatype Entry =
    | Served(thread: ThreadId, op: Op, reply: Reply)
    | Unavailable(thread: ThreadId, op: Op)

  /** `log` records answers in the order they were given. */
  datatype System = System(committed: Db, backing: bool, lock: Option<ThreadId>, threads: map<ThreadId, Phase>,
                           log: seq<Entry>)

  datatype Step =
    | Check(t: ThreadId, op: Op)
    | BeginImmediate(t: ThreadId)
    | Busy(t: ThreadId)
    | Execute(t: ThreadId)
    | Commit(t: ThreadId)
    | Rollback(t: ThreadId)
    | Abort(t: ThreadId)
    | LoseBacking
    | Crash

  predicate Enabled(s: System, step: Step) {
    match step
    case Check(t, _) => t in s.threads && s.threads[t] == Idle
    case BeginImmediate(t) => t in s.threads && s.threads[t].Checked? && s.lock.None?
    case Busy(t) => t in s.threads && s.threads[t].Checked? && s.lock.Some?
    case Execute(t) => t in s.threads && s.threads[t].InTransaction? && !s.threads[t].pc.Finished?
    case Commit(t) => t in s.threads && s.threads[t].InTransaction? && s.threads[t].pc.Finished?
      && !s.threads[t].pc.reply.Raised?
    case Rollback(t) => t in s.threads && s.threads[t].InTransaction? && s.threads[t].pc.Finished?
      && s.threads[t].pc.reply.Raised?
    case Abort(t) => t in s.threads && s.threads[t].InTransaction?
    case LoseBacking => true
    case Crash => true
  }

  /** The next statement of the body. */
  ghost function ExecuteNow(h: Hasher, s: System, t: ThreadId): System
    requires Enabled(s, Execute(t))
  {
    var InTransaction(op, pc, pending) := s.threads[t];
    var pending' := if pc.AtWrite? then pc.decision.write else pending;
    s.(threads := s.threads[t := InTransaction(op, Statement(h, s.committed, op, pc), pending')])
  }

  function CommitNow(s: System, t: ThreadId): System
    requires Enabled(s, Commit(t))
  {
    var InTransaction(op, pc, pending) := s.threads[t];
    s.(committed := Perform(s.committed, pending), lock := None,
       threads := s.threads[t := Idle], log := s.log + [Served(t, op, pc.reply)])
  }

  /** The body raised. */
  function RollbackNow(s: System, t: ThreadId): System
    requires Enabled(s, Rollback(t))
  {
    var InTransaction(op, pc, _) := s.threads[t];
    s.(lock := None, threads := s.threads[t := Idle], log := s.log + [Served(t, op, pc.reply)])
  }

  /** SQLite itself raised, in any statement of the body or in COMMIT: rolled back all the same. */
  function AbortNow(s: System, t: ThreadId): System
    requires Enabled(s, Abort(t))
  {
    s.(lock := None, threads := s.threads[t := Idle], log := s.log + [Unavailable(t, s.threads[t].op)])
  }

  ghost function Do(h: Hasher, s: System, step: Step): System
    requires Enabled(s, step)
  {
    match step
    case Check(t, op) =>
      if s.backing then s.(threads := s.threads[t := Checked(op)]) else s.(log := s.log + [Unavailable(t, op)])
    case BeginImmediate(t) =>
      s.(threads := s.threads[t := InTransaction(s.threads[t].op, AtGuards, NoWrite)], lock := Some(t))
    case Busy(t) => s.(threads := s.threads[t := Idle], log := s.log + [Unavailable(t, s.threads[t].op)])
    case Execute(t) => ExecuteNow(h, s, t)
    case Commit(t) => CommitNow(s, t)
    case Rollback(t) => RollbackNow(s, t)
    case Abort(t) => AbortNow(s, t)
    case LoseBacking => s.(backing := false)
    case Crash => s.(lock := None, threads := map t | t in s.threads :: Idle)
  }

  ghost predicate Run(h: Hasher, s: System, steps: seq<Step>, s': System)
    decreases |steps|
  {
    if steps == [] then s == s'
    else Enabled(s, steps[0]) && Run(h, Do(h, s, steps[0]), steps[1..], s')
  }

  ghost predicate Initial(s: System) {
    s.lock.None? && s.log == [] && forall t :: t in s.threads ==> s.threads[t] == Idle
  }

  // ---------------------------------------------------------------------------
  // The serial order
  // ---------------------------------------------------------------------------

  function ServedOps(log: seq<Entry>): seq<Op> {
    if log == [] then []
    else
      var n := |log| - 1;
      ServedOps(log[..n]) + (if log[n].Served? then [log[n].op] else [])
  }

  function ServedReplies(log: seq<Entry>): seq<Reply> {
    if log == [] then []
    else
      var n := |log| - 1;
      ServedReplies(log[..n]) + (if log[n].Served? then [log[n].reply] else [])
  }

  /** The log is a serial execution from `init`: same final database, same answers. */
  ghost predicate Serial(h: Hasher, init: Db, s: System) {
    && s.committed == Exec(h, init, ServedOps(s.log))
    && ServedReplies(s.log) == Replies(h, init, ServedOps(s.log))
  }

  /** Only the lock holder is inside a transaction, and what it has read so far still decides
      what the whole operation would decide on the committed database. */
  ghost predicate LockDiscipline(h: Hasher, s: System) {
    forall t :: t in s.threads && s.threads[t].InTransaction? ==>
      && s.lock == Some(t)
      && (!s.threads[t].pc.Finished? ==> s.threads[t].pending == NoWrite)
      && Remaining(h, s.committed, s.threads[t].op, s.threads[t].pc, s.threads[t].pending)
          == Decide(h, s.committed, s.threads[t].op)
  }

  lemma ServedSnoc(log: seq<Entry>, e: Entry)
    ensures ServedOps(log + [e]) == if e.Served? then ServedOps(log) + [e.op] else ServedOps(log)
    ensures ServedReplies(log + [e]) == if e.Served? then ServedReplies(log) + [e.reply] else ServedReplies(log)
  {
    assert (log + [e])[..|log|] == log;
  }

  lemma AnswerExtendsSerial(h: Hasher, init: Db, s: System, t: ThreadId, op: Op, s': System)
    requires Serial(h, init, s)
    requires s'.log == s.log + [Served(t, op, Apply(h, s.committed, op).1)]
      && s'.committed == Apply(h, s.committed, op).0
    ensures Serial(h, init, s')
  {
    ServedSnoc(s.log, Served(t, op, Apply(h, s.committed, op).1));
    ExecConcat(h, init, ServedOps(s.log), [op]);
    assert [op][1..] == [];
  }

  lemma StatementKeepsRemaining(h: Hasher, db: Db, op: Op, pc: Pc, pending: Write)
    requires !pc.Finished? && pending == NoWrite && Remaining(h, db, op, pc, pending) == Decide(h, db, op)
    ensures var pc' := Statement(h, db, op, pc);
      var pending' := if pc.AtWrite? then pc.decision.write else pending;
      Remaining(h, db, op, pc', pending') == Decide(h, db, op) && (!pc'.Finished? ==> pending' == NoWrite)
  {
    if pc.AtGuards? && GuardsPass(db, op) { BodyDecides(h, db, op); }
  }

  lemma ExecuteKeepsDiscipline(h: Hasher, s: System, t: ThreadId)
    requires LockDiscipline(h, s) && Enabled(s, Execute(t))
    ensures LockDiscipline(h, ExecuteNow(h, s, t))
  {
    StatementKeepsRemaining(h, s.committed, s.threads[t].op, s.threads[t].pc, s.threads[t].pending);
  }

  /** When the lock is released the thread that held it was the only one inside. */
  lemma ReleaseKeepsDiscipline(h: Hasher, s: System, t: ThreadId, s': System)
    requires LockDiscipline(h, s) && t in s.threads && s.threads[t].InTransaction?
    requires s'.threads == s.threads[t := Idle]
    ensures LockDiscipline(h, s')
  {
  }

  lemma CommitKeepsSerial(h: Hasher, init: Db, s: System, t: ThreadId)
    requires Serial(h, init, s) && LockDiscipline(h, s) && Enabled(s, Commit(t))
    ensures Serial(h, init, CommitNow(s, t)) && LockDiscipline(h, CommitNow(s, t))
  {
    AnswerExtendsSerial(h, init, s, t, s.threads[t].op, CommitNow(s, t));
    ReleaseKeepsDiscipline(h, s, t, CommitNow(s, t));
  }

  lemma RollbackKeepsSerial(h: Hasher, init: Db, s: System, t: ThreadId)
    requires Serial(h, init, s) && LockDiscipline(h, s) && Enabled(s, Rollback(t))
    ensures Serial(h, init, RollbackNow(s, t)) && LockDiscipline(h, RollbackNow(s, t))
  {
    RaisingWriteIsNoOp(h, s.committed, s.threads[t].op);
    AnswerExtendsSerial(h, init, s, t, s.threads[t].op, RollbackNow(s, t));
    ReleaseKeepsDiscipline(h, s, t, RollbackNow(s, t));
  }

  lemma AbortKeepsSerial(h: Hasher, init: Db, s: System, t: ThreadId)
    requires Serial(h, init, s) && LockDiscipline(h, s) && Enabled(s, Abort(t))
    ensures Serial(h, init, AbortNow(s, t)) && LockDiscipline(h, AbortNow(s, t))
  {
    ServedSnoc(s.log, Unavailable(t, s.threads[t].op));
    ReleaseKeepsDiscipline(h, s, t, AbortNow(s, t));
  }

  predicate OutsideStep(step: Step) {
    step.Check? || step.BeginImmediate? || step.Busy? || step.LoseBacking? || step.Crash?
  }

  /** The steps taken outside a transaction leave the committed database and the answers alone. */
  lemma OutsideKeepsSerial(h: Hasher, init: Db, s: System, step: Step)
    requires Serial(h, init, s) && Enabled(s, step) && OutsideStep(step)
    ensures Serial(h, init, Do(h, s, step))
  {
    match step
    case Check(t, op) => ServedSnoc(s.log, Unavailable(t, op));
    case Busy(t) => ServedSnoc(s.log, Unavailable(t, s.threads[t].op));
    case _ =>
  }

  lemma OutsideKeepsDiscipline(h: Hasher, s: System, step: Step)
    requires LockDiscipline(h, s) && Enabled(s, step) && OutsideStep(step)
    ensures LockDiscipline(h, Do(h, s, step))
  {
  }

  lemma StepKeepsSerial(h: Hasher, init: Db, s: System, step: Step)
    requires Serial(h, init, s) && LockDiscipline(h, s) && Enabled(s, step)
    ensures Serial(h, init, Do(h, s, step)) && LockDiscipline(h, Do(h, s, step))
  {
    match step
    case Execute(t) => ExecuteKeepsDiscipline(h, s, t);
    case Commit(t) => CommitKeepsSerial(h, init, s, t);
    case Rollback(t) => RollbackKeepsSerial(h, init, s, t);
    case Abort(t) => AbortKeepsSerial(h, init, s, t);
    case _ =>
      OutsideKeepsSerial(h, init, s, step);
      OutsideKeepsDiscipline(h, s, step);
  }

  lemma {:induction false} RunKeepsSerial(h: Hasher, init: Db, s: System, steps: seq<Step>, s': System)
    requires Serial(h, init, s) && LockDiscipline(h, s) && Run(h, s, steps, s')
    ensures Serial(h, init, s') && LockDiscipline(h, s')
    decreases |steps|
  {
    if steps != [] {
      StepKeepsSerial(h, init, s, steps[0]);
      RunKeepsSerial(h, init, Do(h, s, steps[0]), steps[1..], s');
    }
  }

  /** The serial order is that of the answers: what was answered before a write was even checked
      stays before it for good. */
  lemma {:induction false} AnswersStayInOrder(h: Hasher, s: System, steps: seq<Step>, s': System)
    requires Run(h, s, steps, s')
    ensures s.log <= s'.log
    decreases |steps|
  {
    if steps != [] {
      assert s.log <= Do(h, s, steps[0]).log;
      AnswersStayInOrder(h, Do(h, s, steps[0]), steps[1..], s');
    }
  }

  /** Serialisability: after any interleaving of any number of threads, the committed database
      and every answer given are those of one serial order, the order of the log; and the
      unique indexes have never been violated. */
  lemma Serialisable(h: Hasher, s: System, steps: seq<Step>, s': System)
    requires Initial(s) && Valid(h, s.committed) && Run(h, s, steps, s')
    ensures s'.committed == Exec(h, s.committed, ServedOps(s'.log))
    ensures ServedReplies(s'.log) == Replies(h, s.committed, ServedOps(s'.log))
    ensures Valid(h, s'.committed) && Extends(s.committed, s'.committed)
  {
    RunKeepsSerial(h, s.committed, s, steps, s');
    EveryTraceIsValid(h, s.committed, ServedOps(s'.log));
    HistoryIsAppendOnly(h, s.committed, ServedOps(s'.log));
  }

  // ---------------------------------------------------------------------------
  // A write goes through
  // ---------------------------------------------------------------------------

  lemma Unroll(h: Hasher, s: System, step: Step, rest: seq<Step>, s': System)
    requires Enabled(s, step) && Run(h, Do(h, s, step), rest, s')
    ensures Run(h, s, [step] + rest, s')
  {
    assert ([step] + rest)[1..] == rest;
  }

  function Ahead(pc: Pc): nat {
    match pc
    case AtGuards => 4
    case AtKey => 3
    case AtId => 2
    case AtWrite(_) => 1
    case Finished(_) => 0
  }

  /** The thread has been answered by the database, and everything is as before but for the answer. */
  ghost predicate Answered(h: Hasher, s: System, t: ThreadId, op: Op, s': System) {
    && s'.committed == Apply(h, s.committed, op).0 && s'.log == s.log + [Served(t, op, Apply(h, s.committed, op).1)]
    && s'.lock.None? && s'.backing == s.backing && s'.threads == s.threads[t := Idle]
  }

  lemma Concludes(h: Hasher, s: System, t: ThreadId) returns (step: Step, s': System)
    requires t in s.threads && s.threads[t].InTransaction? && s.threads[t].pc.Finished?
    requires Remaining(h, s.committed, s.threads[t].op, s.threads[t].pc, s.threads[t].pending)
      == Decide(h, s.committed, s.threads[t].op)
    ensures Enabled(s, step) && s' == Do(h, s, step) && Answered(h, s, t, s.threads[t].op, s')
  {
    if s.threads[t].pc.reply.Raised? {
      RaisingWriteIsNoOp(h, s.committed, s.threads[t].op);
      step, s' := Rollback(t), RollbackNow(s, t);
    } else {
      step, s' := Commit(t), CommitNow(s, t);
    }
  }

  lemma {:induction false} BodyGoesThrough(h: Hasher, s: System, t: ThreadId) returns (steps: seq<Step>, s': System)
    requires t in s.threads && s.threads[t].InTransaction? && LockDiscipline(h, s)
    ensures Run(h, s, steps, s') && Answered(h, s, t, s.threads[t].op, s')
    decreases Ahead(s.threads[t].pc)
  {
    var step, rest := Execute(t), [];
    if s.threads[t].pc.Finished? {
      step, s' := Concludes(h, s, t);
    } else {
      ExecuteKeepsDiscipline(h, s, t);
      rest, s' := BodyGoesThrough(h, ExecuteNow(h, s, t), t);
    }
    Unroll(h, s, step, rest, s');
    steps := [step] + rest;
  }

  /** With the file in place and the lock free, every write a thread brings can be taken to its answer:
      the database and the answer are those of the write alone, and the lock is free again. */
  lemma WriteGoesThrough(h: Hasher, s: System, t: ThreadId, op: Op) returns (steps: seq<Step>, s': System)
    requires LockDiscipline(h, s) && s.backing && s.lock.None? && t in s.threads && s.threads[t] == Idle
    ensures Run(h, s, steps, s') && Answered(h, s, t, op, s')
  {
    var s1 := s.(threads := s.threads[t := Checked(op)]);
    var s2 := s1.(threads := s1.threads[t := InTransaction(op, AtGuards, NoWrite)], lock := Some(t));
    var rest;
    rest, s' := BodyGoesThrough(h, s2, t);
    Unroll(h, s1, BeginImmediate(t), rest, s');
    Unroll(h, s, Check(t, op), [BeginImmediate(t)] + rest, s');
    steps := [Check(t, op)] + ([BeginImmediate(t)] + rest);
    assert s2.threads[t := Idle] == s.threads[t := Idle];
  }

  // ---------------------------------------------------------------------------
  // A vanished database file
  // ---------------------------------------------------------------------------

  /** The thread had passed the check of the durable backing with this write. */
  predicate PastTheCheck(s: System, t: ThreadId, op: Op) {
    t in s.threads && !s.threads[t].Idle? && s.threads[t].op == op
  }

  /** From the `n`th entry on, the answers of the database went to threads that were past the check
      in `s`, each with the write it held then, and to no thread twice. */
  predicate OnlyTheChecked(s: System, log: seq<Entry>, n: nat) {
    && (forall i :: n <= i < |log| && log[i].Served? ==> PastTheCheck(s, log[i].thread, log[i].op))
    && (forall i, j :: n <= i < j < |log| && log[i].Served? && log[j].Served? ==> log[i].thread != log[j].thread)
  }

  /** One step towards the end of the log: either it answers nobody, or it answers one thread that
      is then done. */
  lemma StepWithoutBacking(h: Hasher, s: System, step: Step, log: seq<Entry>)
    requires !s.backing && Enabled(s, step) && Do(h, s, step).log <= log
    requires OnlyTheChecked(Do(h, s, step), log, |Do(h, s, step).log|)
    ensures OnlyTheChecked(s, log, |s.log|)
  {
    var s' := Do(h, s, step);
    assert s.log <= s'.log <= log;
    assert forall i :: |s.log| <= i < |s'.log| ==> log[i] == s'.log[i];
    forall i | |s.log| <= i < |log| && log[i].Served? ensures PastTheCheck(s, log[i].thread, log[i].op) {
      if i >= |s'.log| { assert PastTheCheck(s', log[i].thread, log[i].op); }
    }
    forall i, j | |s.log| <= i < j < |log| && log[i].Served? && log[j].Served? ensures log[i].thread != log[j].thread {
      assert PastTheCheck(s', log[j].thread, log[j].op);
    }
  }

  lemma BackingStaysLost(h: Hasher, s: System, step: Step)
    requires !s.backing && Enabled(s, step)
    ensures !Do(h, s, step).backing
  {
  }

  /** Once the database file is gone, however long the threads run on, every write the database
      still answers had been let past the check before, and each thread is answered at most once
      more; every other write is turned away. */
  lemma {:induction false} NoWriteStartsWithoutBacking(h: Hasher, s: System, steps: seq<Step>, s': System)
    requires !s.backing && Run(h, s, steps, s')
    ensures s.log <= s'.log && OnlyTheChecked(s, s'.log, |s.log|)
    decreases |steps|
  {
    AnswersStayInOrder(h, s, steps, s');
    if steps != [] {
      var s1 := Do(h, s, steps[0]);
      BackingStaysLost(h, s, steps[0]);
      NoWriteStartsWithoutBacking(h, s1, steps[1..], s');
      StepWithoutBacking(h, s, steps[0], s'.log);
    }
  }
}
