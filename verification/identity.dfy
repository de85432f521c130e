/** How the API derives record ids from idempotency keys, and what that buys: an id match
    without a key match cannot happen, so an accepted keyed call binds its key for good. */
module Identity {
  import opened Wrappers
  import opened Contract
  import opened Tables
  import opened Metadata
  import opened History
  import opened Retries

  predicate ColonFree(s: string) { ':' !in s }

  /** The string the deterministic id is derived from. */
  function Name(kind: string, producer: string, key: string): string {
    kind + ":" + producer + ":" + key
  }

  // ---------------------------------------------------------------------------
  // When two names coincide
  // ---------------------------------------------------------------------------

  lemma SplitAtFirstColon(a: string, b: string, x: string, y: string)
    requires ColonFree(a) && ColonFree(b) && a + ":" + x == b + ":" + y
    ensures a == b && x == y
  {
    var s := a + ":" + x;
    assert s[|a|] == ':' && s[|b|] == ':';
    assert |a| == |b|;
    assert a == s[..|a|] && b == s[..|b|];
    assert x == s[|a| + 1..] && y == s[|b| + 1..];
  }

  lemma SameKindPeels(kind: string, p: string, k: string, q: string, l: string)
    ensures Name(kind, p, k) == Name(kind, q, l) <==> p + ":" + k == q + ":" + l
  {
    var n, m := Name(kind, p, k), Name(kind, q, l);
    assert n == (kind + ":") + (p + ":" + k) && m == (kind + ":") + (q + ":" + l);
    assert n[|kind| + 1..] == p + ":" + k && m[|kind| + 1..] == q + ":" + l;
  }

  /** The name is injective over colon-free kinds and producers; keys may be anything. */
  lemma NameIsInjective(kind: string, p: string, k: string, kind': string, q: string, l: string)
    requires ColonFree(kind) && ColonFree(kind') && ColonFree(p) && ColonFree(q)
    requires Name(kind, p, k) == Name(kind', q, l)
    ensures kind == kind' && p == q && k == l
  {
    assert Name(kind, p, k) == kind + ":" + (p + ":" + k);
    assert Name(kind', q, l) == kind' + ":" + (q + ":" + l);
    SplitAtFirstColon(kind, kind', p + ":" + k, q + ":" + l);
    SplitAtFirstColon(p, q, k, l);
  }

  /** `p` read as `q` followed by a colon and the front part of the other key. */
  predicate Shifts(p: string, k: string, q: string, l: string) {
    |q| < |p| && p[..|q|] == q && p[|q|] == ':' && l == p[|q| + 1..] + ":" + k
  }

  /** In general two submissions of one kind share a name exactly when they are the same
      submission or a colon has moved from the key into the producer. */
  lemma NamesCoincideExactly(kind: string, p: string, k: string, q: string, l: string)
    ensures Name(kind, p, k) == Name(kind, q, l)
       <==> (p == q && k == l) || Shifts(p, k, q, l) || Shifts(q, l, p, k)
  {
    SameKindPeels(kind, p, k, q, l);
    var s, t := p + ":" + k, q + ":" + l;
    if s == t {
      if |p| == |q| {
        assert p == s[..|p|] && q == t[..|q|] && k == s[|p| + 1..] && l == t[|q| + 1..];
      } else if |q| < |p| {
        ShiftFromEqual(p, k, q, l);
      } else {
        ShiftFromEqual(q, l, p, k);
      }
    }
    if Shifts(p, k, q, l) { EqualFromShift(p, k, q, l); }
    if Shifts(q, l, p, k) { EqualFromShift(q, l, p, k); }
  }

  lemma ShiftFromEqual(p: string, k: string, q: string, l: string)
    requires p + ":" + k == q + ":" + l && |q| < |p|
    ensures Shifts(p, k, q, l)
  {
    var s := p + ":" + k;
    assert p == s[..|p|] && q == s[..|q|] && s[|q|] == ':';
    assert l == s[|q| + 1..] == p[|q| + 1..] + ":" + k;
  }

  lemma EqualFromShift(p: string, k: string, q: string, l: string)
    requires Shifts(p, k, q, l)
    ensures p + ":" + k == q + ":" + l
  {
    assert p == q + ":" + p[|q| + 1..];
  }

  /** Two different producers can derive one id when a producer name contains a colon. */
  lemma ColonInProducerCollides()
    ensures Name("experiment", "a:b", "c") == Name("experiment", "a", "b:c")
  {
    NamesCoincideExactly("experiment", "a:b", "c", "a", "b:c");
  }

  // ---------------------------------------------------------------------------
  // Generated ids
  // ---------------------------------------------------------------------------

  predicate Truthy(s: Option<string>) { s.Some? && s.value != "" }

  /** Header and body key must agree when both are given.  An empty body key survives as a key:
      the store sees it, although no id is derived from it. */
  function ResolveKey(header: Option<string>, body: Option<string>): Result<Option<string>> {
    if Truthy(header) && Truthy(body) && header != body then Err(ContractViolation)
    else if Truthy(header) then Ok(header)
    else Ok(body)
  }

  lemma ResolvedKeyIsTheCallers(header: Option<string>, body: Option<string>)
    ensures ResolveKey(header, body).Err? <==> Truthy(header) && Truthy(body) && header != body
    ensures ResolveKey(header, body).Err? ==> ResolveKey(header, body).error == ContractViolation
    ensures !Truthy(header) ==> ResolveKey(header, body) == Ok(body)
    ensures ResolveKey(header, body).Ok? && Truthy(ResolveKey(header, body).value) ==>
      (Truthy(header) ==> ResolveKey(header, body).value == header)
        && (Truthy(body) ==> ResolveKey(header, body).value == body)
    ensures ResolveKey(header, body).Ok? && !Truthy(ResolveKey(header, body).value) ==> !Truthy(header) && !Truthy(body)
  {
  }

  /** UUIDv5 of a name (section 5.5 of RFC 9562) as hexadecimal text. */
  type Uuid5 = string -> string

  ghost predicate NoCollisions(u5: Uuid5) { forall a, b :: u5(a) == u5(b) ==> a == b }

  /** `token` is the random UUIDv4 drawn for the call; it is used only without a key. */
  function GenerateId(u5: Uuid5, prefix: string, kind: string, key: Option<string>, producer: string,
                      token: string): string {
    prefix + (if Truthy(key) then u5(Name(kind, producer, key.value)) else token)
  }

  /** The operation carries the id the API would have given it. */
  predicate Generated(u5: Uuid5, op: Op, token: string) {
    match op
    case CreateExperiment(e, key) => e.experimentId == GenerateId(u5, "exp_", "experiment", key, e.producer, token)
    case CreateRun(r, key) => r.runId == GenerateId(u5, "run_", "run", key, r.producer, token)
    case AppendEvidence(e) =>
      e.evidenceId == GenerateId(u5, "ev_", "evidence", Some(e.idempotencyKey), e.producer, token)
    case RecordPromotion(p, key) => p.transitionId == GenerateId(u5, "trn_", "promotion", key, p.producer, token)
    case RecordHealth(r, key) => r.healthId == GenerateId(u5, "hlt_", "health", key, r.producer, token)
    case _ => true
  }

  function ProducerOf(op: Op): string {
    match op
    case CreateExperiment(e, _) => e.producer
    case CreateRun(r, _) => r.producer
    case AppendEvidence(e) => e.producer
    case RecordPromotion(p, _) => p.producer
    case RecordHealth(r, _) => r.producer
    case _ => ""
  }

  predicate ColonFreeProducer(op: Op) { ColonFree(ProducerOf(op)) }

  /** A random token is new and is not the image of any name: the version digits of a UUIDv4
      and a UUIDv5 differ. */
  ghost predicate FreshToken(u5: Uuid5, used: set<string>, token: string) {
    token !in used && forall name :: u5(name) != token
  }

  // ---------------------------------------------------------------------------
  // What ids look like in a database filled through the API
  // ---------------------------------------------------------------------------

  /** A row bound under a key carries the id derived from its scope; any other, a random id. */
  ghost predicate IdOf<R(!new)>(u5: Uuid5, prefix: string, kind: string, id: string, row: Row<R>, used: set<string>) {
    if row.binding.Some? && row.binding.value.scope.key != "" then
      ColonFree(row.binding.value.scope.producer)
      && id == prefix + u5(Name(kind, row.binding.value.scope.producer, row.binding.value.scope.key))
    else exists token :: token in used && id == prefix + token
  }

  ghost predicate IdsIn<R(!new)>(u5: Uuid5, prefix: string, kind: string, t: Table<R>, used: set<string>) {
    forall id :: id in t ==> IdOf(u5, prefix, kind, id, t[id], used)
  }

  /** `used` holds the tokens drawn so far, none of them a derived id. */
  ghost predicate ApiIds(u5: Uuid5, db: Db, used: set<string>) {
    && (forall token, name :: token in used ==> u5(name) != token)
    && IdsIn(u5, "exp_", "experiment", db.experiments, used)
    && IdsIn(u5, "run_", "run", db.runs, used)
    && IdsIn(u5, "ev_", "evidence", db.evidence, used)
    && IdsIn(u5, "trn_", "promotion", db.promotions, used)
    && IdsIn(u5, "hlt_", "health", db.health, used)
  }

  lemma SamePrefix(prefix: string, a: string, b: string)
    requires prefix + a == prefix + b
    ensures a == b
  {
    assert a == (prefix + a)[|prefix|..] && b == (prefix + b)[|prefix|..];
  }

  /** The heart of the matter: a generated id that is already taken is taken by the row bound
      to the very same scope. */
  lemma TakenIdIsOwnScope<R(!new)>(u5: Uuid5, prefix: string, kind: string, t: Table<R>, used: set<string>,
                                   id: string, key: Option<string>, producer: string, token: string)
    requires NoCollisions(u5) && ColonFree(kind) && ColonFree(producer)
    requires forall x, name :: x in used ==> u5(name) != x
    requires IdsIn(u5, prefix, kind, t, used) && FreshToken(u5, used, token)
    requires id == GenerateId(u5, prefix, kind, key, producer, token) && id in t
    ensures Truthy(key) && Binds(t, id, Scope(producer, key.value))
  {
    assert IdOf(u5, prefix, kind, id, t[id], used);
    var row := t[id];
    var own := if Truthy(key) then u5(Name(kind, producer, key.value)) else token;
    if x :| x in used && id == prefix + x {
      SamePrefix(prefix, own, x);
      assert false;
    } else {
      var s := row.binding.value.scope;
      SamePrefix(prefix, own, u5(Name(kind, s.producer, s.key)));
      assert Truthy(key);
      NameIsInjective(kind, producer, key.value, kind, s.producer, s.key);
    }
  }

  /** At the API an id match with a key miss is unreachable. */
  lemma IdPathNeverAnswers(u5: Uuid5, h: Hasher, db: Db, used: set<string>, op: Op, token: string)
    requires NoCollisions(u5) && ApiIds(u5, db, used) && FreshToken(u5, used, token)
    requires Generated(u5, op, token) && ColonFreeProducer(op) && !op.RegisterArtifact?
    ensures !IdPathAnswers(h, db, op)
  {
    if IdPathAnswers(h, db, op) {
      match op
      case CreateExperiment(e, key) =>
        TakenIdIsOwnScope(u5, "exp_", "experiment", db.experiments, used, e.experimentId, key, e.producer, token);
      case CreateRun(r, key) => TakenIdIsOwnScope(u5, "run_", "run", db.runs, used, r.runId, key, r.producer, token);
      case AppendEvidence(e) =>
        TakenIdIsOwnScope(u5, "ev_", "evidence", db.evidence, used, e.evidenceId, Some(e.idempotencyKey), e.producer,
                          token);
      case RecordPromotion(p, key) =>
        TakenIdIsOwnScope(u5, "trn_", "promotion", db.promotions, used, p.transitionId, key, p.producer, token);
      case RecordHealth(r, key) =>
        TakenIdIsOwnScope(u5, "hlt_", "health", db.health, used, r.healthId, key, r.producer, token);
    }
  }

  lemma InsertKeepsIds<R(!new)>(u5: Uuid5, prefix: string, kind: string, t: Table<R>, used: set<string>, row: Row<R>,
                                key: Option<string>, producer: string, fp: Fingerprint, token: string)
    requires IdsIn(u5, prefix, kind, t, used) && ColonFree(producer)
    requires row.binding == BindingFor(producer, key, fp)
    ensures IdsIn(u5, prefix, kind, t[GenerateId(u5, prefix, kind, key, producer, token) := row], used + {token})
  {
    var id := GenerateId(u5, prefix, kind, key, producer, token);
    var t' := t[id := row];
    forall i | i in t' ensures IdOf(u5, prefix, kind, i, t'[i], used + {token}) {
      if i == id {
        assert token in used + {token};
      } else {
        assert IdOf(u5, prefix, kind, i, t[i], used);
        if x :| x in used && i == prefix + x { assert x in used + {token}; }
      }
    }
  }

  lemma MoreTokens<R(!new)>(u5: Uuid5, prefix: string, kind: string, t: Table<R>, t': Table<R>,
                               used: set<string>, token: string)
    requires IdsIn(u5, prefix, kind, t, used)
    requires t'.Keys == t.Keys && forall id :: id in t ==> t'[id].binding == t[id].binding
    ensures IdsIn(u5, prefix, kind, t', used + {token})
  {
    forall i | i in t' ensures IdOf(u5, prefix, kind, i, t'[i], used + {token}) {
      assert IdOf(u5, prefix, kind, i, t[i], used);
      if x :| x in used && i == prefix + x { assert x in used + {token}; }
    }
  }

  /** A row about to be inserted sits under an id generated for the scope it is bound to. */
  predicate Fresh<R(!new)>(u5: Uuid5, prefix: string, kind: string, row: Row<R>, id: string,
                           key: Option<string>, producer: string, token: string)
  {
    ColonFree(producer) && row.binding == BindingFor(producer, key, row.fp)
      && id == GenerateId(u5, prefix, kind, key, producer, token)
  }

  function KeyOf(op: Op): Option<string> {
    match op
    case CreateExperiment(_, key) => key
    case CreateRun(_, key) => key
    case AppendEvidence(e) => Some(e.idempotencyKey)
    case RecordPromotion(_, key) => key
    case RecordHealth(_, key) => key
    case _ => None
  }

  predicate FreshWrite(u5: Uuid5, w: Write, key: Option<string>, producer: string, token: string) {
    match w
    case InsertExperiment(row) => Fresh(u5, "exp_", "experiment", row, row.record.experimentId, key, producer, token)
    case InsertRun(row) => Fresh(u5, "run_", "run", row, row.record.runId, key, producer, token)
    case InsertEvidence(row) => Fresh(u5, "ev_", "evidence", row, row.record.evidenceId, key, producer, token)
    case InsertPromotion(row) => Fresh(u5, "trn_", "promotion", row, row.record.transitionId, key, producer, token)
    case InsertHealth(row) => Fresh(u5, "hlt_", "health", row, row.record.healthId, key, producer, token)
    case _ => true
  }

  lemma GeneratedCallInsertsFresh(u5: Uuid5, h: Hasher, db: Db, op: Op, token: string)
    requires Generated(u5, op, token) && ColonFreeProducer(op)
    ensures FreshWrite(u5, Decide(h, db, op).write, KeyOf(op), ProducerOf(op), token)
  {
  }

  lemma PerformKeepsExperimentIds(u5: Uuid5, db: Db, w: Write, used: set<string>, key: Option<string>, producer: string,
                                  token: string)
    requires IdsIn(u5, "exp_", "experiment", db.experiments, used)
    requires w.InsertExperiment? ==>
      Fresh(u5, "exp_", "experiment", w.experiment, w.experiment.record.experimentId, key, producer, token)
    ensures IdsIn(u5, "exp_", "experiment", Perform(db, w).experiments, used + {token})
  {
    if w.InsertExperiment? {
      InsertKeepsIds(u5, "exp_", "experiment", db.experiments, used, w.experiment, key, producer, w.experiment.fp,
                     token);
    } else {
      MoreTokens(u5, "exp_", "experiment", db.experiments, Perform(db, w).experiments, used, token);
    }
  }

  lemma RunsStayBound(db: Db, w: Write)
    requires !w.InsertRun?
    ensures Perform(db, w).runs.Keys == db.runs.Keys
    ensures forall id :: id in db.runs ==> Perform(db, w).runs[id].binding == db.runs[id].binding
  {
    if w.UpdateRun? && w.runId in db.runs {
      assert Perform(db, w).runs.Keys == db.runs.Keys + {w.runId};
    } else {
      assert Perform(db, w).runs == db.runs;
    }
  }

  lemma PerformKeepsRunIds(u5: Uuid5, db: Db, w: Write, used: set<string>, key: Option<string>, producer: string,
                           token: string)
    requires IdsIn(u5, "run_", "run", db.runs, used)
    requires w.InsertRun? ==> Fresh(u5, "run_", "run", w.run, w.run.record.runId, key, producer, token)
    ensures IdsIn(u5, "run_", "run", Perform(db, w).runs, used + {token})
  {
    if w.InsertRun? {
      InsertKeepsIds(u5, "run_", "run", db.runs, used, w.run, key, producer, w.run.fp, token);
    } else {
      RunsStayBound(db, w);
      MoreTokens(u5, "run_", "run", db.runs, Perform(db, w).runs, used, token);
    }
  }

  lemma PerformKeepsEvidenceIds(u5: Uuid5, db: Db, w: Write, used: set<string>, key: Option<string>, producer: string,
                                token: string)
    requires IdsIn(u5, "ev_", "evidence", db.evidence, used)
    requires w.InsertEvidence? ==>
      Fresh(u5, "ev_", "evidence", w.evidence, w.evidence.record.evidenceId, key, producer, token)
    ensures IdsIn(u5, "ev_", "evidence", Perform(db, w).evidence, used + {token})
  {
    if w.InsertEvidence? {
      InsertKeepsIds(u5, "ev_", "evidence", db.evidence, used, w.evidence, key, producer, w.evidence.fp, token);
    } else {
      MoreTokens(u5, "ev_", "evidence", db.evidence, Perform(db, w).evidence, used, token);
    }
  }

  lemma PerformKeepsPromotionIds(u5: Uuid5, db: Db, w: Write, used: set<string>, key: Option<string>, producer: string,
                                 token: string)
    requires IdsIn(u5, "trn_", "promotion", db.promotions, used)
    requires w.InsertPromotion? ==>
      Fresh(u5, "trn_", "promotion", w.promotion, w.promotion.record.transitionId, key, producer, token)
    ensures IdsIn(u5, "trn_", "promotion", Perform(db, w).promotions, used + {token})
  {
    if w.InsertPromotion? {
      InsertKeepsIds(u5, "trn_", "promotion", db.promotions, used, w.promotion, key, producer, w.promotion.fp, token);
    } else {
      MoreTokens(u5, "trn_", "promotion", db.promotions, Perform(db, w).promotions, used, token);
    }
  }

  lemma PerformKeepsHealthIds(u5: Uuid5, db: Db, w: Write, used: set<string>, key: Option<string>, producer: string,
                              token: string)
    requires IdsIn(u5, "hlt_", "health", db.health, used)
    requires w.InsertHealth? ==> Fresh(u5, "hlt_", "health", w.health, w.health.record.healthId, key, producer, token)
    ensures IdsIn(u5, "hlt_", "health", Perform(db, w).health, used + {token})
  {
    if w.InsertHealth? {
      InsertKeepsIds(u5, "hlt_", "health", db.health, used, w.health, key, producer, w.health.fp, token);
    } else {
      MoreTokens(u5, "hlt_", "health", db.health, Perform(db, w).health, used, token);
    }
  }

  lemma ApiKeepsIds(u5: Uuid5, h: Hasher, db: Db, used: set<string>, op: Op, token: string)
    requires ApiIds(u5, db, used) && FreshToken(u5, used, token)
    requires Generated(u5, op, token) && ColonFreeProducer(op)
    ensures ApiIds(u5, Apply(h, db, op).0, used + {token})
  {
    var w := Decide(h, db, op).write;
    GeneratedCallInsertsFresh(u5, h, db, op, token);
    PerformKeepsExperimentIds(u5, db, w, used, KeyOf(op), ProducerOf(op), token);
    PerformKeepsRunIds(u5, db, w, used, KeyOf(op), ProducerOf(op), token);
    PerformKeepsEvidenceIds(u5, db, w, used, KeyOf(op), ProducerOf(op), token);
    PerformKeepsPromotionIds(u5, db, w, used, KeyOf(op), ProducerOf(op), token);
    PerformKeepsHealthIds(u5, db, w, used, KeyOf(op), ProducerOf(op), token);
  }

  /** The id that the API derives from a key is the id of the row the key is bound to. */
  lemma BoundIdIsDerived<R(!new)>(u5: Uuid5, prefix: string, kind: string, t: Table<R>, used: set<string>,
                                     id: string, scope: Scope)
    requires IdsIn(u5, prefix, kind, t, used) && Binds(t, id, scope) && scope.key != ""
    ensures id == prefix + u5(Name(kind, scope.producer, scope.key))
  {
    assert IdOf(u5, prefix, kind, id, t[id], used);
  }

  lemma HeldIdIsOwn(u5: Uuid5, h: Hasher, db: Db, used: set<string>, op: Op, token: string, id: string)
    requires ApiIds(u5, db, used) && Generated(u5, op, token) && Truthy(KeyOf(op))
    requires HoldsKeyAs(h, db, op, id)
    ensures id == ReplyId(OwnReply(op))
  {
    var scope := Scope(ProducerOf(op), KeyOf(op).value);
    match op
    case CreateExperiment(_, _) => BoundIdIsDerived(u5, "exp_", "experiment", db.experiments, used, id, scope);
    case CreateRun(_, _) => BoundIdIsDerived(u5, "run_", "run", db.runs, used, id, scope);
    case AppendEvidence(_) => BoundIdIsDerived(u5, "ev_", "evidence", db.evidence, used, id, scope);
    case RecordPromotion(_, _) => BoundIdIsDerived(u5, "trn_", "promotion", db.promotions, used, id, scope);
    case RecordHealth(_, _) => BoundIdIsDerived(u5, "hlt_", "health", db.health, used, id, scope);
    case _ =>
  }

  /** Binding for good: an accepted keyed call made through the API ties its key to the record it
      was answered with, in every later database and whatever is written in between; and the id of
      that record is the call's own, so every retry derives the id it will be answered with. */
  lemma AcceptedCallBindsForGood(u5: Uuid5, h: Hasher, db: Db, used: set<string>, op: Op, token: string, later: seq<Op>)
    requires NoCollisions(u5) && Valid(h, db) && ApiIds(u5, db, used) && FreshToken(u5, used, token)
    requires Generated(u5, op, token) && ColonFreeProducer(op)
    requires BindingOf(h, op).Some? && Accepted(h, db, op) && !op.RegisterArtifact?
    ensures var (after, reply) := Apply(h, db, op);
      var db' := Exec(h, after, later);
      && HoldsKey(h, db', op) && HoldsKeyAs(h, db', op, ReplyId(reply)) && ReplyKept(reply, StoredReply(h, db', op))
      && (Truthy(KeyOf(op)) ==> ReplyId(reply) == ReplyId(OwnReply(op)))
  {
    var (after, reply) := Apply(h, db, op);
    IdPathNeverAnswers(u5, h, db, used, op, token);
    AnswerIsUnderItsKey(h, db, op);
    ApplyKeepsValid(h, db, op);
    EveryTraceIsValid(h, after, later);
    HistoryIsAppendOnly(h, after, later);
    AnswerIsKept(h, db, op, Exec(h, after, later));
    ApiKeepsIds(u5, h, db, used, op, token);
    if Truthy(KeyOf(op)) { HeldIdIsOwn(u5, h, after, used + {token}, op, token, ReplyId(reply)); }
  }
}
