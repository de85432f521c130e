/** Safe retries.  A producer that resubmits under a key it has already bound gets the stored
    record back and changes nothing, however much has happened in between; so a trace delivered
    at least once leaves the database a trace delivered exactly once would. */
module Retries {
  import opened Wrappers
  import opened Contract
  import opened Tables
  import opened Metadata
  import opened History

  /** The scope and fingerprint a submission asks for; absent when it carries no key. */
  function BindingOf(h: Hasher, op: Op): Option<Binding> {
    match op
    case CreateExperiment(e, key) => BindingFor(e.producer, key, h(ExperimentPayload(e)))
    case CreateRun(r, key) => BindingFor(r.producer, key, h(RunPayload(r)))
    case AppendEvidence(e) => BindingFor(e.producer, Some(e.idempotencyKey), h(EvidencePayload(e)))
    case RegisterArtifact(a, key, producer) => BindingFor(ScopeProducer(producer), key, h(SubmissionPayload(a)))
    case RecordPromotion(p, key) => BindingFor(p.producer, key, h(PromotionPayload(p)))
    case RecordHealth(r, key) => BindingFor(r.producer, key, h(HealthPayload(r)))
    case _ => None
  }

  ghost predicate HoldsIn<R(!new)>(t: Table<R>, b: Binding) {
    exists id :: Binds(t, id, b.scope) && t[id].binding == Some(b)
  }

  /** The operation's table has its scope bound to exactly its fingerprint. */
  ghost predicate HoldsKey(h: Hasher, db: Db, op: Op) {
    var b := BindingOf(h, op);
    b.Some? &&
    match op
    case CreateExperiment(_, _) => HoldsIn(db.experiments, b.value)
    case CreateRun(_, _) => HoldsIn(db.runs, b.value)
    case AppendEvidence(_) => HoldsIn(db.evidence, b.value)
    case RegisterArtifact(_, _, _) => HoldsIn(db.artifacts, b.value)
    case RecordPromotion(_, _) => HoldsIn(db.promotions, b.value)
    case RecordHealth(_, _) => HoldsIn(db.health, b.value)
    case _ => false
  }

  ghost predicate IdTakenUnbound<R(!new)>(t: Table<R>, id: string, b: Option<Binding>) {
    id in t && Unbound(t, b)
  }

  /** The key is unused but the id is not: the id path answers, and it never records the key. */
  ghost predicate IdPathAnswers(h: Hasher, db: Db, op: Op) {
    var b := BindingOf(h, op);
    match op
    case CreateExperiment(e, _) => IdTakenUnbound(db.experiments, e.experimentId, b)
    case CreateRun(r, _) => IdTakenUnbound(db.runs, r.runId, b)
    case AppendEvidence(e) => IdTakenUnbound(db.evidence, e.evidenceId, b)
    case RegisterArtifact(a, _, _) => IdTakenUnbound(db.artifacts, a.artifactId, b)
    case RecordPromotion(p, _) => IdTakenUnbound(db.promotions, p.transitionId, b)
    case RecordHealth(r, _) => IdTakenUnbound(db.health, r.healthId, b)
    case _ => false
  }

  ghost predicate Accepted(h: Hasher, db: Db, op: Op) { !Apply(h, db, op).1.Raised? }

  lemma AcceptedRow<R(!new)>(t: Table<R>, sub: Submission<R>)
    requires OneRowPerScope(t) && sub.row.binding.Some? && !Judge(t, sub).Refuse?
    ensures Judge(t, sub).Insert? ==> sub.id !in t && HoldsIn(t[sub.id := sub.row], sub.row.binding.value)
    ensures Judge(t, sub).Stored? ==>
      (HoldsIn(t, sub.row.binding.value) <==> !IdTakenUnbound(t, sub.id, sub.row.binding))
  {
    var b := sub.row.binding.value;
    if Judge(t, sub).Insert? {
      assert Binds(t[sub.id := sub.row], sub.id, b.scope);
    } else if FindByScope(t, b.scope).Some? {
      var id := FindByScope(t, b.scope).value;
      assert Binds(t, id, b.scope) && t[id].binding == Some(b);
    }
  }

  /** An accepted keyed submission ends up bound to its key exactly when it was not the id
      path that answered it. */
  lemma AcceptedBindsKey(h: Hasher, db: Db, op: Op)
    requires UniqueKeys(db) && BindingOf(h, op).Some? && Accepted(h, db, op)
    ensures HoldsKey(h, Apply(h, db, op).0, op) <==> !IdPathAnswers(h, db, op)
  {
    match op
    case CreateExperiment(e, key) => AcceptedRow(db.experiments, ExperimentSubmission(h, db, e, key));
    case CreateRun(r, key) => AcceptedRow(db.runs, RunSubmission(h, r, key));
    case AppendEvidence(e) => AcceptedRow(db.evidence, EvidenceSubmission(h, db, e));
    case RegisterArtifact(a, key, producer) =>
      AcceptedRow(db.artifacts, ArtifactSubmission(h, db, a, key, ScopeProducer(producer)));
    case RecordPromotion(p, key) => AcceptedRow(db.promotions, PromotionSubmission(h, db, p, key));
    case RecordHealth(r, key) => AcceptedRow(db.health, HealthSubmission(h, db, r, key));
    case _ =>
  }

  /** The id path reached: create an experiment without a key, then the same one with a key.  The
      second call is accepted, and its key is bound to nothing. */
  lemma IdMatchKeyMiss(h: Hasher, e: Experiment, key: string)
    ensures var db := Apply(h, EMPTY_DB, CreateExperiment(e, None)).0;
      var keyed := CreateExperiment(e, Some(key));
      && Accepted(h, db, keyed) && IdPathAnswers(h, db, keyed)
      && Apply(h, db, keyed).0 == db && !HoldsKey(h, Apply(h, db, keyed).0, keyed)
  {
    var db := Apply(h, EMPTY_DB, CreateExperiment(e, None)).0;
    assert db.experiments == map[e.experimentId := Row(e, h(ExperimentPayload(e)), None)];
    assert Judge(db.experiments, ExperimentSubmission(h, db, e, Some(key))) == Stored(e);
  }

  ghost predicate FreeIn<R(!new)>(t: Table<R>, id: string, b: Option<Binding>) { id !in t && Unbound(t, b) }

  predicate Scoped(op: Op) {
    op.RegisterArtifact? && op.key.Some? ==> !Unscoped(op.producer)
  }

  /** Neither the id nor the key of the submission is in use. */
  ghost predicate IsFirst(h: Hasher, db: Db, op: Op) {
    var b := BindingOf(h, op);
    match op
    case CreateExperiment(e, _) => FreeIn(db.experiments, e.experimentId, b)
    case CreateRun(r, _) => FreeIn(db.runs, r.runId, b)
    case AppendEvidence(e) => FreeIn(db.evidence, e.evidenceId, b)
    case RegisterArtifact(a, _, _) => FreeIn(db.artifacts, a.artifactId, b)
    case RecordPromotion(p, _) => FreeIn(db.promotions, p.transitionId, b)
    case RecordHealth(r, _) => FreeIn(db.health, r.healthId, b)
    case _ => false
  }

  function OwnReply(op: Op): Reply {
    match op
    case CreateExperiment(e, _) => ExperimentIs(e)
    case CreateRun(r, _) => RunIs(r)
    case AppendEvidence(e) => EvidenceIs(e)
    case RegisterArtifact(a, _, _) => ArtifactIs(a)
    case RecordPromotion(p, _) => PromotionIs(p)
    case RecordHealth(r, _) => HealthIs(r)
    case _ => Raised(NotFound)
  }

  lemma FreeMeansInsert<R(!new)>(t: Table<R>, sub: Submission<R>)
    requires FreeIn(t, sub.id, sub.row.binding)
    ensures Judge(t, sub).Insert?
  {
  }

  /** A first submission whose references resolve is accepted as it was sent: the answer is its own
      record, stored as such, and its key, if it has one, is bound from then on. */
  lemma FirstSubmissionIsAccepted(h: Hasher, db: Db, op: Op)
    requires Valid(h, db) && OwnIds(db) && IsFirst(h, db, op) && GuardsPass(db, op) && Scoped(op)
    ensures Apply(h, db, op).1 == OwnReply(op) && IsStored(Apply(h, db, op).0, OwnReply(op))
    ensures BindingOf(h, op).Some? ==> HoldsKey(h, Apply(h, db, op).0, op)
  {
    FirstSubmissionAnswersItself(h, db, op);
    AnswerIsStored(h, db, op);
    if BindingOf(h, op).Some? { AcceptedBindsKey(h, db, op); }
  }

  lemma FirstSubmissionAnswersItself(h: Hasher, db: Db, op: Op)
    requires IsFirst(h, db, op) && GuardsPass(db, op) && Scoped(op)
    ensures Apply(h, db, op).1 == OwnReply(op)
  {
    match op
    case CreateExperiment(e, key) => FreeMeansInsert(db.experiments, ExperimentSubmission(h, db, e, key));
    case CreateRun(r, key) => FreeMeansInsert(db.runs, RunSubmission(h, r, key));
    case AppendEvidence(e) => FreeMeansInsert(db.evidence, EvidenceSubmission(h, db, e));
    case RegisterArtifact(a, key, producer) =>
      FreeMeansInsert(db.artifacts, ArtifactSubmission(h, db, a, key, ScopeProducer(producer)));
    case RecordPromotion(p, key) => FreeMeansInsert(db.promotions, PromotionSubmission(h, db, p, key));
    case RecordHealth(r, key) => FreeMeansInsert(db.health, HealthSubmission(h, db, r, key));
    case _ =>
  }

  lemma HoldsKeyForever(h: Hasher, db: Db, db': Db, op: Op)
    requires Extends(db, db') && HoldsKey(h, db, op)
    ensures HoldsKey(h, db', op)
  {
    var b := BindingOf(h, op).value;
    match op
    case CreateExperiment(_, _) =>
      var id :| Binds(db.experiments, id, b.scope) && db.experiments[id].binding == Some(b);
      assert Binds(db'.experiments, id, b.scope);
    case CreateRun(_, _) =>
      var id :| Binds(db.runs, id, b.scope) && db.runs[id].binding == Some(b);
      assert RunKept(db.runs[id], db'.runs[id]) && Binds(db'.runs, id, b.scope);
    case AppendEvidence(_) =>
      var id :| Binds(db.evidence, id, b.scope) && db.evidence[id].binding == Some(b);
      assert Binds(db'.evidence, id, b.scope);
    case RegisterArtifact(_, _, _) =>
      var id :| Binds(db.artifacts, id, b.scope) && db.artifacts[id].binding == Some(b);
      assert ArtifactKept(db.artifacts[id], db'.artifacts[id]) && Binds(db'.artifacts, id, b.scope);
    case RecordPromotion(_, _) =>
      var id :| Binds(db.promotions, id, b.scope) && db.promotions[id].binding == Some(b);
      assert Binds(db'.promotions, id, b.scope);
    case RecordHealth(_, _) =>
      var id :| Binds(db.health, id, b.scope) && db.health[id].binding == Some(b);
      assert Binds(db'.health, id, b.scope);
    case _ =>
  }

  // ---------------------------------------------------------------------------
  // Replays
  // ---------------------------------------------------------------------------

  ghost function RowUnder<R(!new)>(t: Table<R>, b: Binding): R
    requires HoldsIn(t, b)
  {
    var id :| Binds(t, id, b.scope) && t[id].binding == Some(b);
    t[id].record
  }

  /** The stored record under the operation's key, as the database has it now. */
  ghost function StoredReply(h: Hasher, db: Db, op: Op): Reply
    requires HoldsKey(h, db, op)
  {
    var b := BindingOf(h, op).value;
    match op
    case CreateExperiment(_, _) => ExperimentIs(RowUnder(db.experiments, b))
    case CreateRun(_, _) => RunIs(RowUnder(db.runs, b))
    case AppendEvidence(_) => EvidenceIs(RowUnder(db.evidence, b))
    case RegisterArtifact(_, _, _) => ArtifactIs(RowUnder(db.artifacts, b))
    case RecordPromotion(_, _) => PromotionIs(RowUnder(db.promotions, b))
    case RecordHealth(_, _) => HealthIs(RowUnder(db.health, b))
  }

  lemma HeldKeyIsStored<R(!new)>(t: Table<R>, sub: Submission<R>)
    requires OneRowPerScope(t) && sub.row.binding.Some? && HoldsIn(t, sub.row.binding.value)
    ensures Judge(t, sub) == Stored(RowUnder(t, sub.row.binding.value))
  {
    var b := sub.row.binding.value;
    var id :| Binds(t, id, b.scope) && t[id].binding == Some(b) && RowUnder(t, b) == t[id].record;
    FindIsTheRow(t, id, b.scope);
  }

  /** A submission whose key is held is answered with the stored record and writes nothing;
      the only way it can fail is a referential guard. */
  lemma ReplayIsANoOp(h: Hasher, db: Db, op: Op)
    requires UniqueKeys(db) && HoldsKey(h, db, op) && Scoped(op)
    ensures Apply(h, db, op).0 == db
    ensures Apply(h, db, op).1 == if GuardsPass(db, op) then StoredReply(h, db, op) else Raised(NotFound)
  {
    match op
    case CreateExperiment(e, key) => HeldKeyIsStored(db.experiments, ExperimentSubmission(h, db, e, key));
    case CreateRun(r, key) => HeldKeyIsStored(db.runs, RunSubmission(h, r, key));
    case AppendEvidence(e) => HeldKeyIsStored(db.evidence, EvidenceSubmission(h, db, e));
    case RegisterArtifact(a, key, producer) =>
      HeldKeyIsStored(db.artifacts, ArtifactSubmission(h, db, a, key, ScopeProducer(producer)));
    case RecordPromotion(p, key) => HeldKeyIsStored(db.promotions, PromotionSubmission(h, db, p, key));
    case RecordHealth(r, key) => HeldKeyIsStored(db.health, HealthSubmission(h, db, r, key));
    case _ =>
  }

  /** Same kind, same key, and agreement on every field the fingerprint covers.  The id and
      the server-stamped times may be fresh; an artifact's links and uri may differ too. */
  predicate SameSubmission(a: Op, b: Op) {
    match (a, b)
    case (CreateExperiment(x, k), CreateExperiment(y, l)) => k == l && ExperimentPayload(x) == ExperimentPayload(y)
    case (CreateRun(x, k), CreateRun(y, l)) => k == l && RunPayload(x) == RunPayload(y)
    case (AppendEvidence(x), AppendEvidence(y)) => EvidencePayload(x) == EvidencePayload(y)
    case (RegisterArtifact(x, k, p), RegisterArtifact(y, l, q)) =>
      k == l && p == q && SubmissionPayload(x) == SubmissionPayload(y)
    case (RecordPromotion(x, k), RecordPromotion(y, l)) => k == l && PromotionPayload(x) == PromotionPayload(y)
    case (RecordHealth(x, k), RecordHealth(y, l)) => k == l && HealthPayload(x) == HealthPayload(y)
    case _ => false
  }

  lemma SameSubmissionSameBinding(h: Hasher, a: Op, b: Op)
    requires SameSubmission(a, b)
    ensures BindingOf(h, a) == BindingOf(h, b)
    ensures forall db :: HoldsKey(h, db, a) ==> HoldsKey(h, db, b)
  {
    match (a, b)
    case (CreateExperiment(x, _), CreateExperiment(y, _)) =>
      assert ExperimentPayload(x).experiment.producer == ExperimentPayload(y).experiment.producer;
    case (CreateRun(x, _), CreateRun(y, _)) => assert RunPayload(x).run.producer == RunPayload(y).run.producer;
    case (AppendEvidence(x), AppendEvidence(y)) =>
      assert EvidencePayload(x).evidence.producer == EvidencePayload(y).evidence.producer;
      assert EvidencePayload(x).evidence.idempotencyKey == EvidencePayload(y).evidence.idempotencyKey;
    case (RecordPromotion(x, _), RecordPromotion(y, _)) =>
      assert PromotionPayload(x).promotion.producer == PromotionPayload(y).promotion.producer;
    case (RecordHealth(x, _), RecordHealth(y, _)) =>
      assert HealthPayload(x).health.producer == HealthPayload(y).health.producer;
    case _ =>
  }

  /** References the fingerprint covers were checked once and never disappear.  An artifact's
      links are outside its fingerprint, so a retry may cite a run that does not exist. */
  lemma GuardsStillPass(db: Db, db': Db, a: Op, b: Op)
    requires GuardsPass(db, a) && Extends(db, db') && SameSubmission(a, b) && !a.RegisterArtifact?
    ensures GuardsPass(db', b)
  {
    match (a, b)
    case (CreateRun(x, _), CreateRun(y, _)) => assert RunPayload(x).run.experimentId == RunPayload(y).run.experimentId;
    case (AppendEvidence(x), AppendEvidence(y)) =>
      assert EvidencePayload(x).evidence.runId == EvidencePayload(y).evidence.runId;
      assert EvidencePayload(x).evidence.experimentId == EvidencePayload(y).evidence.experimentId;
    case _ =>
  }

  /** The submission was accepted and it was not the id path that answered it. */
  ghost predicate BoundItsKey(h: Hasher, db: Db, op: Op) {
    BindingOf(h, op).Some? && Accepted(h, db, op) && !IdPathAnswers(h, db, op)
  }

  // ---------------------------------------------------------------------------
  // The answer under a key
  // ---------------------------------------------------------------------------

  function ReplyId(reply: Reply): string {
    match reply
    case ExperimentIs(e) => e.experimentId
    case RunIs(r) => r.runId
    case EvidenceIs(e) => e.evidenceId
    case ArtifactIs(a) => a.artifactId
    case PromotionIs(p) => p.transitionId
    case HealthIs(r) => r.healthId
    case _ => ""
  }

  /** The same record under the same id, but for what closing a run or attaching an artifact may
      have set since. */
  predicate ReplyKept(a: Reply, b: Reply) {
    match (a, b)
    case (ExperimentIs(x), ExperimentIs(y)) => x == y
    case (RunIs(x), RunIs(y)) => y == x.(status := y.status, endedAt := y.endedAt) && (x.status != OPEN ==> y == x)
    case (EvidenceIs(x), EvidenceIs(y)) => x == y
    case (ArtifactIs(x), ArtifactIs(y)) =>
      y == x.(runId := y.runId, evidenceId := y.evidenceId) && LinkKept(x.runId, y.runId)
        && LinkKept(x.evidenceId, y.evidenceId)
    case (PromotionIs(x), PromotionIs(y)) => x == y
    case (HealthIs(x), HealthIs(y)) => x == y
    case _ => false
  }

  lemma ReplyKeptKeepsId(a: Reply, b: Reply)
    requires ReplyKept(a, b)
    ensures ReplyId(a) == ReplyId(b)
  {
  }

  ghost predicate BoundAt<R(!new)>(t: Table<R>, id: string, b: Binding) {
    Binds(t, id, b.scope) && t[id].binding == Some(b)
  }

  /** The row bound to the operation's scope, with its fingerprint, is the one under `id`. */
  ghost predicate HoldsKeyAs(h: Hasher, db: Db, op: Op, id: string) {
    var b := BindingOf(h, op);
    b.Some? &&
    match op
    case CreateExperiment(_, _) => BoundAt(db.experiments, id, b.value)
    case CreateRun(_, _) => BoundAt(db.runs, id, b.value)
    case AppendEvidence(_) => BoundAt(db.evidence, id, b.value)
    case RegisterArtifact(_, _, _) => BoundAt(db.artifacts, id, b.value)
    case RecordPromotion(_, _) => BoundAt(db.promotions, id, b.value)
    case RecordHealth(_, _) => BoundAt(db.health, id, b.value)
    case _ => false
  }

  lemma RowUnderIsTheRow<R(!new)>(t: Table<R>, id: string, b: Binding)
    requires OneRowPerScope(t) && BoundAt(t, id, b)
    ensures HoldsIn(t, b) && RowUnder(t, b) == t[id].record
  {
    var other :| Binds(t, other, b.scope) && t[other].binding == Some(b) && RowUnder(t, b) == t[other].record;
  }

  /** What a keyed submission that was not answered by its id is answered with: the row its scope
      is bound to from then on. */
  lemma AnsweredRow<R(!new)>(t: Table<R>, sub: Submission<R>) returns (id: string)
    requires OneRowPerScope(t) && sub.row.binding.Some? && !Judge(t, sub).Refuse?
    requires !IdTakenUnbound(t, sub.id, sub.row.binding)
    ensures var b := sub.row.binding.value;
      if Judge(t, sub).Insert? then
        id == sub.id && BoundAt(t[sub.id := sub.row], id, b) && HoldsIn(t[sub.id := sub.row], b)
        && RowUnder(t[sub.id := sub.row], b) == sub.row.record
      else
        && BoundAt(t, id, b) && t[id].record == Judge(t, sub).record && HoldsIn(t, b)
        && RowUnder(t, b) == Judge(t, sub).record
  {
    var b := sub.row.binding.value;
    if Judge(t, sub).Insert? {
      id := sub.id;
      InsertKeepsIndex(t, sub.id, sub.row);
      RowUnderIsTheRow(t[sub.id := sub.row], id, b);
    } else {
      id := FindByScope(t, b.scope).value;
      RowUnderIsTheRow(t, id, b);
    }
  }

  ghost predicate AnswersItsKey(h: Hasher, db: Db, op: Op) {
    var (after, reply) := Apply(h, db, op);
    HoldsKey(h, after, op) && HoldsKeyAs(h, after, op, ReplyId(reply)) && reply == StoredReply(h, after, op)
  }

  lemma ExperimentAnswersItsKey(h: Hasher, db: Db, e: Experiment, key: Option<string>)
    requires UniqueKeys(db) && RowsBound(h, db) && BoundItsKey(h, db, CreateExperiment(e, key))
    ensures AnswersItsKey(h, db, CreateExperiment(e, key))
  {
    var id := AnsweredRow(db.experiments, ExperimentSubmission(h, db, e, key));
  }

  lemma RunAnswersItsKey(h: Hasher, db: Db, r: Run, key: Option<string>)
    requires UniqueKeys(db) && RowsBound(h, db) && BoundItsKey(h, db, CreateRun(r, key))
    ensures AnswersItsKey(h, db, CreateRun(r, key))
  {
    var id := AnsweredRow(db.runs, RunSubmission(h, r, key));
  }

  lemma EvidenceAnswersItsKey(h: Hasher, db: Db, e: Evidence)
    requires UniqueKeys(db) && RowsBound(h, db) && BoundItsKey(h, db, AppendEvidence(e))
    ensures AnswersItsKey(h, db, AppendEvidence(e))
  {
    var id := AnsweredRow(db.evidence, EvidenceSubmission(h, db, e));
  }

  lemma ArtifactAnswersItsKey(h: Hasher, db: Db, a: ArtifactRecord, key: Option<string>, producer: Option<string>)
    requires UniqueKeys(db) && RowsBound(h, db) && BoundItsKey(h, db, RegisterArtifact(a, key, producer))
    ensures AnswersItsKey(h, db, RegisterArtifact(a, key, producer))
  {
    var id := AnsweredRow(db.artifacts, ArtifactSubmission(h, db, a, key, ScopeProducer(producer)));
  }

  lemma PromotionAnswersItsKey(h: Hasher, db: Db, p: Promotion, key: Option<string>)
    requires UniqueKeys(db) && RowsBound(h, db) && BoundItsKey(h, db, RecordPromotion(p, key))
    ensures AnswersItsKey(h, db, RecordPromotion(p, key))
  {
    var id := AnsweredRow(db.promotions, PromotionSubmission(h, db, p, key));
  }

  lemma HealthAnswersItsKey(h: Hasher, db: Db, r: Health, key: Option<string>)
    requires UniqueKeys(db) && RowsBound(h, db) && BoundItsKey(h, db, RecordHealth(r, key))
    ensures AnswersItsKey(h, db, RecordHealth(r, key))
  {
    var id := AnsweredRow(db.health, HealthSubmission(h, db, r, key));
  }

  /** Whatever a submission that bound its key was answered with is the record stored under that
      key: the id in the answer is the id the scope is bound to. */
  lemma AnswerIsUnderItsKey(h: Hasher, db: Db, op: Op)
    requires Valid(h, db) && BoundItsKey(h, db, op)
    ensures AnswersItsKey(h, db, op)
  {
    match op
    case CreateExperiment(e, key) => ExperimentAnswersItsKey(h, db, e, key);
    case CreateRun(r, key) => RunAnswersItsKey(h, db, r, key);
    case AppendEvidence(e) => EvidenceAnswersItsKey(h, db, e);
    case RegisterArtifact(a, key, producer) => ArtifactAnswersItsKey(h, db, a, key, producer);
    case RecordPromotion(p, key) => PromotionAnswersItsKey(h, db, p, key);
    case RecordHealth(r, key) => HealthAnswersItsKey(h, db, r, key);
    case _ =>
  }

  lemma HeldAsStays<R(!new)>(t: Table<R>, t': Table<R>, id: string, b: Binding)
    requires OneRowPerScope(t) && OneRowPerScope(t') && BoundAt(t, id, b) && id in t' && t'[id].binding == t[id].binding
    ensures BoundAt(t', id, b) && HoldsIn(t, b) && HoldsIn(t', b)
    ensures RowUnder(t, b) == t[id].record && RowUnder(t', b) == t'[id].record
  {
    RowUnderIsTheRow(t, id, b);
    RowUnderIsTheRow(t', id, b);
  }

  /** The row under a key is the same row for good. */
  lemma StoredReplyIsKept(h: Hasher, db: Db, db': Db, op: Op, id: string)
    requires Extends(db, db') && UniqueKeys(db) && UniqueKeys(db') && HoldsKeyAs(h, db, op, id)
    ensures HoldsKeyAs(h, db', op, id) && HoldsKey(h, db, op) && HoldsKey(h, db', op)
    ensures ReplyKept(StoredReply(h, db, op), StoredReply(h, db', op))
  {
    var b := BindingOf(h, op).value;
    match op
    case CreateExperiment(_, _) => HeldAsStays(db.experiments, db'.experiments, id, b);
    case CreateRun(_, _) =>
      assert RunKept(db.runs[id], db'.runs[id]);
      HeldAsStays(db.runs, db'.runs, id, b);
    case AppendEvidence(_) => HeldAsStays(db.evidence, db'.evidence, id, b);
    case RegisterArtifact(_, _, _) =>
      assert ArtifactKept(db.artifacts[id], db'.artifacts[id]);
      HeldAsStays(db.artifacts, db'.artifacts, id, b);
    case RecordPromotion(_, _) => HeldAsStays(db.promotions, db'.promotions, id, b);
    case RecordHealth(_, _) => HeldAsStays(db.health, db'.health, id, b);
    case _ =>
  }

  lemma SameSubmissionSameReply(h: Hasher, db: Db, a: Op, b: Op)
    requires SameSubmission(a, b) && HoldsKey(h, db, a)
    ensures HoldsKey(h, db, b) && StoredReply(h, db, a) == StoredReply(h, db, b)
  {
    SameSubmissionSameBinding(h, a, b);
  }

  /** What the submission was told is what the key still answers later. */
  lemma AnswerIsKept(h: Hasher, db: Db, op: Op, later: Db)
    requires Valid(h, db) && BoundItsKey(h, db, op) && Valid(h, later) && Extends(Apply(h, db, op).0, later)
    ensures HoldsKey(h, later, op) && HoldsKeyAs(h, later, op, ReplyId(Apply(h, db, op).1))
    ensures ReplyKept(Apply(h, db, op).1, StoredReply(h, later, op))
  {
    AnswerIsUnderItsKey(h, db, op);
    ApplyKeepsValid(h, db, op);
    StoredReplyIsKept(h, Apply(h, db, op).0, later, op, ReplyId(Apply(h, db, op).1));
  }

  /** A retry, any time after the submission it repeats bound its key, changes no table.  It is
      answered with the record the submission was answered with, under the same id, exactly when
      its own references resolve, which for everything but an artifact is always. */
  lemma RetryCollapses(h: Hasher, db: Db, op: Op, later: Db, retry: Op)
    requires Valid(h, db) && BoundItsKey(h, db, op)
    requires Valid(h, later) && Extends(Apply(h, db, op).0, later) && SameSubmission(op, retry)
    ensures Apply(h, later, retry).0 == later
    ensures if GuardsPass(later, retry) then AnsweredAlike(h, db, op, later, retry)
      else Apply(h, later, retry).1 == Raised(NotFound)
    ensures !op.RegisterArtifact? ==> GuardsPass(later, retry)
  {
    AnswerIsKept(h, db, op, later);
    SameSubmissionSameReply(h, later, op, retry);
    assert Scoped(retry);
    ReplayIsANoOp(h, later, retry);
    ReplyKeptKeepsId(Apply(h, db, op).1, StoredReply(h, later, op));
    if !op.RegisterArtifact? { LaterGuardsPass(h, db, op, later, retry); }
  }

  /** The same record, and so the same id; and it is the one the key is bound to. */
  ghost predicate AnsweredAlike(h: Hasher, db: Db, op: Op, later: Db, retry: Op) {
    var first, again := Apply(h, db, op).1, Apply(h, later, retry).1;
    ReplyKept(first, again) && ReplyId(first) == ReplyId(again) && HoldsKey(h, later, retry)
      && again == StoredReply(h, later, retry)
  }

  lemma LaterGuardsPass(h: Hasher, db: Db, op: Op, later: Db, retry: Op)
    requires Valid(h, db) && Accepted(h, db, op) && Extends(Apply(h, db, op).0, later) && SameSubmission(op, retry)
    requires !op.RegisterArtifact?
    ensures GuardsPass(later, retry)
  {
    ApplyExtends(h, db, op);
    ExtendsTransitive(db, Apply(h, db, op).0, later);
    GuardsStillPass(db, later, op, retry);
  }

  // ---------------------------------------------------------------------------
  // At-least-once delivery
  // ---------------------------------------------------------------------------

  ghost function StateAt(h: Hasher, db: Db, ops: seq<Op>, i: nat): Db
    requires i <= |ops|
  {
    Exec(h, db, ops[..i])
  }

  /** `ops[i]` redelivers `ops[j]`, which had bound its key when it was delivered. */
  ghost predicate Redelivers(h: Hasher, db: Db, ops: seq<Op>, j: nat, i: nat) {
    && j < i < |ops|
    && SameSubmission(ops[j], ops[i])
    && BoundItsKey(h, StateAt(h, db, ops, j), ops[j])
  }

  /** The trace without the positions marked as redeliveries. */
  function Originals(ops: seq<Op>, again: seq<bool>): seq<Op>
    requires |ops| == |again|
  {
    if ops == [] then []
    else
      var n := |ops| - 1;
      Originals(ops[..n], again[..n]) + (if again[n] then [] else [ops[n]])
  }

  /** What the originals of the trace returned, in order. */
  ghost function OriginalReplies(replies: seq<Reply>, again: seq<bool>): seq<Reply>
    requires |replies| == |again|
  {
    if replies == [] then []
    else
      var n := |replies| - 1;
      OriginalReplies(replies[..n], again[..n]) + (if again[n] then [] else [replies[n]])
  }

  lemma ExecSnoc(h: Hasher, db: Db, ops: seq<Op>, i: nat)
    requires i < |ops|
    ensures StateAt(h, db, ops, i + 1) == Apply(h, StateAt(h, db, ops, i), ops[i]).0
    ensures Replies(h, db, ops[..i + 1]) == Replies(h, db, ops[..i]) + [Apply(h, StateAt(h, db, ops, i), ops[i]).1]
  {
    assert ops[..i + 1] == ops[..i] + [ops[i]];
    ExecConcat(h, db, ops[..i], [ops[i]]);
    assert [ops[i]][1..] == [];
  }

  lemma StateIsValid(h: Hasher, db: Db, ops: seq<Op>, i: nat)
    requires Valid(h, db) && i <= |ops|
    ensures Valid(h, StateAt(h, db, ops, i))
  {
    EveryTraceIsValid(h, db, ops[..i]);
  }

  lemma StatesExtend(h: Hasher, db: Db, ops: seq<Op>, j: nat, i: nat)
    requires j <= i <= |ops| && Valid(h, db)
    ensures Extends(StateAt(h, db, ops, j), StateAt(h, db, ops, i))
  {
    EveryTraceIsValid(h, db, ops[..j]);
    var mid := ops[j..i];
    assert ops[..i] == ops[..j] + mid;
    ExecConcat(h, db, ops[..j], mid);
    HistoryIsAppendOnly(h, StateAt(h, db, ops, j), mid);
  }

  lemma LaterStateExtends(h: Hasher, db: Db, ops: seq<Op>, j: nat, i: nat)
    requires Valid(h, db) && j < i <= |ops|
    ensures Extends(Apply(h, StateAt(h, db, ops, j), ops[j]).0, StateAt(h, db, ops, i))
  {
    StatesExtend(h, db, ops, j + 1, i);
    ExecSnoc(h, db, ops, j);
  }

  /** What the `i`th write of the trace returned. */
  ghost function ReplyAt(h: Hasher, db: Db, ops: seq<Op>, i: nat): Reply
    requires i < |ops|
  {
    Apply(h, StateAt(h, db, ops, i), ops[i]).1
  }

  /** How a redelivery is answered: as the original was, or, for an artifact whose links do not
      resolve, with NotFoundError. */
  ghost predicate AnsweredAgain(h: Hasher, db: Db, ops: seq<Op>, j: nat, i: nat)
    requires j < |ops| && i < |ops|
  {
    if GuardsPass(StateAt(h, db, ops, i), ops[i])
    then ReplyKept(ReplyAt(h, db, ops, j), ReplyAt(h, db, ops, i))
      && ReplyId(ReplyAt(h, db, ops, j)) == ReplyId(ReplyAt(h, db, ops, i))
    else ops[i].RegisterArtifact? && ReplyAt(h, db, ops, i) == Raised(NotFound)
  }

  lemma RedeliveryIsANoOp(h: Hasher, db: Db, ops: seq<Op>, j: nat, i: nat)
    requires Valid(h, db) && Redelivers(h, db, ops, j, i)
    ensures StateAt(h, db, ops, i + 1) == StateAt(h, db, ops, i)
    ensures AnsweredAgain(h, db, ops, j, i)
  {
    StateIsValid(h, db, ops, j);
    StateIsValid(h, db, ops, i);
    LaterStateExtends(h, db, ops, j, i);
    RetryCollapses(h, StateAt(h, db, ops, j), ops[j], StateAt(h, db, ops, i), ops[i]);
    ExecSnoc(h, db, ops, i);
  }

  lemma ReplyAtIsReply(h: Hasher, db: Db, ops: seq<Op>, i: nat)
    requires i < |ops|
    ensures Replies(h, db, ops)[i] == ReplyAt(h, db, ops, i)
  {
    ExecSnoc(h, db, ops, i);
    assert ops == ops[..i + 1] + ops[i + 1..];
    ExecConcat(h, db, ops[..i + 1], ops[i + 1..]);
  }

  lemma RedeliversInPrefix(h: Hasher, db: Db, ops: seq<Op>, n: nat, j: nat, i: nat)
    requires i < n <= |ops| && Redelivers(h, db, ops, j, i)
    ensures Redelivers(h, db, ops[..n], j, i)
  {
    assert ops[..n][..j] == ops[..j] && ops[..n][..i] == ops[..i];
  }

  lemma RepliesButLast(h: Hasher, db: Db, ops: seq<Op>)
    requires ops != []
    ensures var n := |ops| - 1;
      && Replies(h, db, ops)[..n] == Replies(h, db, ops[..n])
      && Replies(h, db, ops)[n] == Apply(h, Exec(h, db, ops[..n]), ops[n]).1
      && Exec(h, db, ops) == Apply(h, Exec(h, db, ops[..n]), ops[n]).0
  {
    ExecSnoc(h, db, ops, |ops| - 1);
    assert ops[..|ops|] == ops;
  }

  /** An original is answered after the originals before it as it was after the whole trace. */
  lemma OriginalLast(h: Hasher, db: Db, ops: seq<Op>, again: seq<bool>)
    requires |ops| == |again| > 0 && !again[|ops| - 1]
    requires var n := |ops| - 1; Exec(h, db, ops[..n]) == Exec(h, db, Originals(ops[..n], again[..n]))
    requires var n := |ops| - 1;
      Replies(h, db, Originals(ops[..n], again[..n])) == OriginalReplies(Replies(h, db, ops[..n]), again[..n])
    ensures Exec(h, db, ops) == Exec(h, db, Originals(ops, again))
    ensures Replies(h, db, Originals(ops, again)) == OriginalReplies(Replies(h, db, ops), again)
  {
    var n := |ops| - 1;
    RepliesButLast(h, db, ops);
    ExecConcat(h, db, Originals(ops[..n], again[..n]), [ops[n]]);
    assert [ops[n]][1..] == [];
  }

  /** A redelivery leaves the database as it was, and is dropped. */
  lemma RedeliveryLast(h: Hasher, db: Db, ops: seq<Op>, again: seq<bool>)
    requires |ops| == |again| > 0 && again[|ops| - 1]
    requires StateAt(h, db, ops, |ops|) == StateAt(h, db, ops, |ops| - 1)
    ensures var n := |ops| - 1;
      && Exec(h, db, ops) == Exec(h, db, ops[..n]) && Originals(ops, again) == Originals(ops[..n], again[..n])
      && OriginalReplies(Replies(h, db, ops), again) == OriginalReplies(Replies(h, db, ops[..n]), again[..n])
  {
    RepliesButLast(h, db, ops);
    assert ops[..|ops|] == ops;
  }

  ghost predicate AllRedelivered(h: Hasher, db: Db, ops: seq<Op>, again: seq<bool>)
    requires |ops| == |again|
  {
    forall i :: 0 <= i < |ops| && again[i] ==> IsRedelivery(h, db, ops, i)
  }

  ghost predicate IsRedelivery(h: Hasher, db: Db, ops: seq<Op>, i: nat) { exists j :: Redelivers(h, db, ops, j, i) }

  lemma AllRedeliveredInPrefix(h: Hasher, db: Db, ops: seq<Op>, again: seq<bool>, n: nat)
    requires |ops| == |again| && n <= |ops| && AllRedelivered(h, db, ops, again)
    ensures AllRedelivered(h, db, ops[..n], again[..n])
  {
    forall i | 0 <= i < n && again[..n][i] ensures IsRedelivery(h, db, ops[..n], i) {
      assert again[i] && IsRedelivery(h, db, ops, i);
      var j :| Redelivers(h, db, ops, j, i);
      RedeliversInPrefix(h, db, ops, n, j, i);
    }
  }

  lemma LastIsANoOp(h: Hasher, db: Db, ops: seq<Op>)
    requires Valid(h, db) && ops != [] && IsRedelivery(h, db, ops, |ops| - 1)
    ensures StateAt(h, db, ops, |ops|) == StateAt(h, db, ops, |ops| - 1)
  {
    var n := |ops| - 1;
    var j :| Redelivers(h, db, ops, j, n);
    RedeliveryIsANoOp(h, db, ops, j, n);
    assert n + 1 == |ops|;
  }

  lemma {:induction false} RedeliveriesDropOut(h: Hasher, db: Db, ops: seq<Op>, again: seq<bool>)
    requires Valid(h, db) && |ops| == |again| && AllRedelivered(h, db, ops, again)
    ensures Exec(h, db, ops) == Exec(h, db, Originals(ops, again))
    ensures Replies(h, db, Originals(ops, again)) == OriginalReplies(Replies(h, db, ops), again)
    decreases |ops|
  {
    if ops != [] {
      var n := |ops| - 1;
      AllRedeliveredInPrefix(h, db, ops, again, n);
      RedeliveriesDropOut(h, db, ops[..n], again[..n]);
      if again[n] {
        LastIsANoOp(h, db, ops);
        RedeliveryLast(h, db, ops, again);
      } else {
        OriginalLast(h, db, ops, again);
      }
    }
  }

  /** At-least-once delivery yields the exactly-once state: dropping every redelivery from the
      trace changes neither the final database nor what any original was told; and a redelivery is
      told what its original was told, unless it is an artifact whose links do not resolve. */
  lemma AtLeastOnceIsExactlyOnce(h: Hasher, db: Db, ops: seq<Op>, again: seq<bool>)
    requires Valid(h, db) && |ops| == |again| && AllRedelivered(h, db, ops, again)
    ensures Exec(h, db, ops) == Exec(h, db, Originals(ops, again))
    ensures Replies(h, db, Originals(ops, again)) == OriginalReplies(Replies(h, db, ops), again)
    ensures forall i :: 0 <= i < |ops| ==> Replies(h, db, ops)[i] == ReplyAt(h, db, ops, i)
    ensures forall i, j :: Redelivers(h, db, ops, j, i) ==> AnsweredAgain(h, db, ops, j, i)
  {
    RedeliveriesDropOut(h, db, ops, again);
    forall i | 0 <= i < |ops|
      ensures Replies(h, db, ops)[i] == ReplyAt(h, db, ops, i)
    {
      ReplyAtIsReply(h, db, ops, i);
    }
    forall i, j | Redelivers(h, db, ops, j, i)
      ensures AnsweredAgain(h, db, ops, j, i)
    {
      RedeliveryIsANoOp(h, db, ops, j, i);
    }
  }
}
