/** Producer non-interference: what one producer sees of its experiments, promotions and health
    records does not depend on what any other producer does, not even on its choice of keys. */
module NonInterference {
  import opened Wrappers
  import opened Contract
  import opened Tables
  import opened Metadata
  import opened History
  import opened Identity

  // ---------------------------------------------------------------------------
  // One table
  // ---------------------------------------------------------------------------

  /** The rows of one producer. */
  ghost function Keep<R(!new)>(t: Table<R>, owner: R -> string, p: string): Table<R> {
    map id | id in t && owner(t[id].record) == p :: t[id]
  }

  /** Bound rows are bound under their own producer. */
  ghost predicate OwnScopes<R(!new)>(t: Table<R>, owner: R -> string) {
    forall id, s :: Binds(t, id, s) ==> s.producer == owner(t[id].record)
  }

  lemma FindIsLocal<R(!new)>(t: Table<R>, owner: R -> string, scope: Scope)
    requires OneRowPerScope(t) && OwnScopes(t, owner)
    ensures FindByScope(t, scope) == FindByScope(Keep(t, owner, scope.producer), scope)
  {
    var k := Keep(t, owner, scope.producer);
    assert forall id :: Binds(t, id, scope) <==> Binds(k, id, scope);
  }

  /** A submission whose id is free or already its own producer's is judged on that producer's
      rows alone. */
  lemma JudgementIsLocal<R(!new)>(t: Table<R>, sub: Submission<R>, owner: R -> string, p: string)
    requires OneRowPerScope(t) && OwnScopes(t, owner)
    requires sub.row.binding.Some? ==> sub.row.binding.value.scope.producer == p
    requires sub.id in t ==> owner(t[sub.id].record) == p
    ensures Judge(t, sub) == Judge(Keep(t, owner, p), sub)
  {
    if sub.row.binding.Some? { FindIsLocal(t, owner, sub.row.binding.value.scope); }
  }

  lemma KeepAfterInsert<R(!new)>(t: Table<R>, id: string, row: Row<R>, owner: R -> string, p: string)
    requires id !in t
    ensures Keep(t[id := row], owner, p) == if owner(row.record) == p then Keep(t, owner, p)[id := row]
      else Keep(t, owner, p)
  {
  }

  // ---------------------------------------------------------------------------
  // The three tables
  // ---------------------------------------------------------------------------

  function ExperimentOwner(): Experiment -> string { (e: Experiment) => e.producer }

  function PromotionOwner(): Promotion -> string { (r: Promotion) => r.producer }

  function HealthOwner(): Health -> string { (r: Health) => r.producer }

  /** The database as producer `p` knows it. */
  ghost function View(db: Db, p: string): Db {
    db.(experiments := Keep(db.experiments, ExperimentOwner(), p),
        promotions := Keep(db.promotions, PromotionOwner(), p),
        health := Keep(db.health, HealthOwner(), p))
  }

  predicate OwnRecord(op: Op) { op.CreateExperiment? || op.RecordPromotion? || op.RecordHealth? }

  /** A database filled through the API, with the random tokens drawn so far. */
  ghost predicate ApiDb(u5: Uuid5, h: Hasher, db: Db, used: set<string>) {
    Valid(h, db) && ApiIds(u5, db, used)
  }

  lemma ScopesAreOwn(h: Hasher, db: Db)
    requires RowsBound(h, db)
    ensures OwnScopes(db.experiments, ExperimentOwner())
    ensures OwnScopes(db.promotions, PromotionOwner())
    ensures OwnScopes(db.health, HealthOwner())
  {
  }

  /** A generated id already in use belongs to the caller. */
  lemma TakenIdIsOwn(u5: Uuid5, h: Hasher, db: Db, used: set<string>, op: Op, token: string)
    requires NoCollisions(u5) && RowsBound(h, db) && ApiIds(u5, db, used) && FreshToken(u5, used, token)
    requires OwnRecord(op) && Generated(u5, op, token) && ColonFree(ProducerOf(op))
    ensures op.CreateExperiment? && op.experiment.experimentId in db.experiments ==>
      db.experiments[op.experiment.experimentId].record.producer == ProducerOf(op)
    ensures op.RecordPromotion? && op.promotion.transitionId in db.promotions ==>
      db.promotions[op.promotion.transitionId].record.producer == ProducerOf(op)
    ensures op.RecordHealth? && op.health.healthId in db.health ==>
      db.health[op.health.healthId].record.producer == ProducerOf(op)
  {
    match op
    case CreateExperiment(e, key) =>
      if e.experimentId in db.experiments {
        TakenIdIsOwnScope(u5, "exp_", "experiment", db.experiments, used, e.experimentId, key, e.producer, token);
        assert BoundTo(db.experiments[e.experimentId], e.experimentId, db.experiments[e.experimentId].record.producer,
                       e.experimentId);
      }
    case RecordPromotion(r, key) =>
      if r.transitionId in db.promotions {
        TakenIdIsOwnScope(u5, "trn_", "promotion", db.promotions, used, r.transitionId, key, r.producer, token);
        assert BoundTo(db.promotions[r.transitionId], r.transitionId, db.promotions[r.transitionId].record.producer,
                       r.transitionId);
      }
    case RecordHealth(r, key) =>
      if r.healthId in db.health {
        TakenIdIsOwnScope(u5, "hlt_", "health", db.health, used, r.healthId, key, r.producer, token);
        assert BoundTo(db.health[r.healthId], r.healthId, db.health[r.healthId].record.producer, r.healthId);
      }
  }

  lemma ExperimentDecisionIsLocal(h: Hasher, db: Db, e: Experiment, key: Option<string>)
    requires OneRowPerScope(db.experiments) && OwnScopes(db.experiments, ExperimentOwner())
    requires e.experimentId in db.experiments ==> db.experiments[e.experimentId].record.producer == e.producer
    ensures Decide(h, View(db, e.producer), CreateExperiment(e, key)) == Decide(h, db, CreateExperiment(e, key))
  {
    JudgementIsLocal(db.experiments, ExperimentSubmission(h, db, e, key), ExperimentOwner(), e.producer);
  }

  lemma PromotionDecisionIsLocal(h: Hasher, db: Db, r: Promotion, key: Option<string>)
    requires OneRowPerScope(db.promotions) && OwnScopes(db.promotions, PromotionOwner())
    requires r.transitionId in db.promotions ==> db.promotions[r.transitionId].record.producer == r.producer
    ensures Decide(h, View(db, r.producer), RecordPromotion(r, key)) == Decide(h, db, RecordPromotion(r, key))
  {
    JudgementIsLocal(db.promotions, PromotionSubmission(h, db, r, key), PromotionOwner(), r.producer);
  }

  lemma HealthDecisionIsLocal(h: Hasher, db: Db, r: Health, key: Option<string>)
    requires OneRowPerScope(db.health) && OwnScopes(db.health, HealthOwner())
    requires r.healthId in db.health ==> db.health[r.healthId].record.producer == r.producer
    ensures Decide(h, View(db, r.producer), RecordHealth(r, key)) == Decide(h, db, RecordHealth(r, key))
  {
    JudgementIsLocal(db.health, HealthSubmission(h, db, r, key), HealthOwner(), r.producer);
  }

  lemma DecisionIsLocal(u5: Uuid5, h: Hasher, db: Db, used: set<string>, op: Op, token: string)
    requires NoCollisions(u5) && ApiDb(u5, h, db, used) && FreshToken(u5, used, token)
    requires OwnRecord(op) && Generated(u5, op, token) && ColonFree(ProducerOf(op))
    ensures Decide(h, View(db, ProducerOf(op)), op) == Decide(h, db, op)
  {
    TakenIdIsOwn(u5, h, db, used, op, token);
    ScopesAreOwn(h, db);
    match op
    case CreateExperiment(e, key) => ExperimentDecisionIsLocal(h, db, e, key);
    case RecordPromotion(r, key) => PromotionDecisionIsLocal(h, db, r, key);
    case RecordHealth(r, key) => HealthDecisionIsLocal(h, db, r, key);
  }

  /** An insert under a free id by a given producer, or nothing. */
  ghost predicate OwnWrite(db: Db, w: Write, producer: string) {
    match w
    case NoWrite => true
    case InsertExperiment(row) => row.record.experimentId !in db.experiments && row.record.producer == producer
    case InsertPromotion(row) => row.record.transitionId !in db.promotions && row.record.producer == producer
    case InsertHealth(row) => row.record.healthId !in db.health && row.record.producer == producer
    case _ => false
  }

  lemma DecidesOwnWrite(h: Hasher, db: Db, op: Op)
    requires OwnRecord(op)
    ensures OwnWrite(db, Decide(h, db, op).write, ProducerOf(op))
  {
  }

  lemma ViewOfWrite(db: Db, w: Write, producer: string, p: string)
    requires OwnWrite(db, w, producer)
    ensures View(Perform(db, w), p) == if producer == p then Perform(View(db, p), w) else View(db, p)
  {
    match w
    case InsertExperiment(row) => KeepAfterInsert(db.experiments, row.record.experimentId, row, ExperimentOwner(), p);
    case InsertPromotion(row) => KeepAfterInsert(db.promotions, row.record.transitionId, row, PromotionOwner(), p);
    case InsertHealth(row) => KeepAfterInsert(db.health, row.record.healthId, row, HealthOwner(), p);
    case _ =>
  }

  lemma WriteIsOwn(h: Hasher, db: Db, op: Op, p: string)
    requires OwnRecord(op)
    ensures View(Apply(h, db, op).0, p) ==
      if ProducerOf(op) == p then Perform(View(db, p), Decide(h, db, op).write) else View(db, p)
  {
    DecidesOwnWrite(h, db, op);
    ViewOfWrite(db, Decide(h, db, op).write, ProducerOf(op), p);
  }

  // ---------------------------------------------------------------------------
  // Whole traces
  // ---------------------------------------------------------------------------

  ghost predicate ApiTrace(u5: Uuid5, ops: seq<Op>, tokens: seq<string>, used: set<string>) {
    && |tokens| == |ops|
    && (forall i :: 0 <= i < |ops| ==>
          OwnRecord(ops[i]) && Generated(u5, ops[i], tokens[i]) && ColonFree(ProducerOf(ops[i]))
            && FreshToken(u5, used, tokens[i]))
    && (forall i, j :: 0 <= i < j < |ops| ==> tokens[i] != tokens[j])
  }

  function OwnOps(ops: seq<Op>, p: string): seq<Op>
    requires forall op :: op in ops ==> OwnRecord(op)
  {
    if ops == [] then [] else (if ProducerOf(ops[0]) == p then [ops[0]] else []) + OwnOps(ops[1..], p)
  }

  /** The answers given to `p`, picked out of all the answers. */
  function OwnReplies(ops: seq<Op>, replies: seq<Reply>, p: string): seq<Reply>
    requires |ops| == |replies| && forall op :: op in ops ==> OwnRecord(op)
  {
    if ops == [] then []
    else (if ProducerOf(ops[0]) == p then [replies[0]] else []) + OwnReplies(ops[1..], replies[1..], p)
  }

  /** Running everybody's calls and looking only at `p`'s rows and `p`'s answers is the same as
      running only `p`'s calls. */
  lemma {:induction false} OthersDoNotInterfere(u5: Uuid5, h: Hasher, db: Db, used: set<string>, ops: seq<Op>,
                                                tokens: seq<string>, p: string)
    requires NoCollisions(u5) && ApiDb(u5, h, db, used) && ApiTrace(u5, ops, tokens, used)
    ensures View(Exec(h, db, ops), p) == Exec(h, View(db, p), OwnOps(ops, p))
    ensures OwnReplies(ops, Replies(h, db, ops), p) == Replies(h, View(db, p), OwnOps(ops, p))
    decreases |ops|
  {
    if ops != [] {
      var op, rest, db1 := ops[0], ops[1..], Apply(h, db, ops[0]).0;
      ApplyKeepsValid(h, db, op);
      ApiKeepsIds(u5, h, db, used, op, tokens[0]);
      OthersDoNotInterfere(u5, h, db1, used + {tokens[0]}, rest, tokens[1..], p);
      WriteIsOwn(h, db, op, p);
      if ProducerOf(op) == p {
        DecisionIsLocal(u5, h, db, used, op, tokens[0]);
        assert OwnOps(ops, p)[1..] == OwnOps(rest, p);
      } else {
        assert OwnOps(ops, p) == OwnOps(rest, p);
      }
    }
  }
}
