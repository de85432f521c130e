/** The four schema scripts, statement by statement. */
module SchemaScripts {
  import opened Migrations
  import opened MigrationProgress

  /** The first of the next two lists' entries is the globally unique index on the key alone. */
  const RUN_INDEXES: seq<Instr> := [
    CreateIndex(UxRunsKey), CreateIndex(IxRunsExperimentId), CreateIndex(IxRunsStartedAt)
  ]

  const EVIDENCE_INDEXES: seq<Instr> := [
    CreateIndex(UxEvidenceKey),
    CreateIndex(IxEvidenceStrategyId), CreateIndex(IxEvidenceStrategyIdVersion), CreateIndex(IxEvidenceRunId),
    CreateIndex(IxEvidenceExperimentId), CreateIndex(IxEvidenceType), CreateIndex(IxEvidenceCreatedAtUtc)
  ]

  const ARTIFACT_INDEXES: seq<Instr> := [
    CreateIndex(IxArtifactsRunId), CreateIndex(IxArtifactsEvidenceId), CreateIndex(IxArtifactsRegisteredAt)
  ]

  const PROMOTION_INDEXES: seq<Instr> := [
    CreateIndex(IxPromotionsStrategyId), CreateIndex(IxPromotionsStrategyIdVersion), CreateIndex(IxPromotionsAtUtc)
  ]

  const HEALTH_INDEXES: seq<Instr> := [
    CreateIndex(IxHealthStrategyId), CreateIndex(IxHealthStrategyIdVersion), CreateIndex(IxHealthObservedAtUtc)
  ]

  function WithTable(p: seq<Instr>, t: TableName, indexes: seq<Instr>): seq<Instr> { p + [CreateTable(t)] + indexes }

  const UP_TO_RUNS: seq<Instr> :=
    WithTable(WithTable(WithTable(WithTable([], Strategies, []), StrategyVersions, []), Experiments, []), Runs,
              RUN_INDEXES)

  const UP_TO_ARTIFACTS: seq<Instr> :=
    WithTable(WithTable(UP_TO_RUNS, EvidenceRecords, EVIDENCE_INDEXES), Artifacts, ARTIFACT_INDEXES)

  const INITIAL: seq<Instr> :=
    WithTable(WithTable(UP_TO_ARTIFACTS, Promotions, PROMOTION_INDEXES), HealthRecords, HEALTH_INDEXES)

  const GLOBAL_DROPS: seq<Instr> := [DropIndex(UxEvidenceKey), DropIndex(UxRunsKey)]

  const SCOPED_INDEXES: seq<Instr> := [CreateIndex(UxEvidenceProducerKey), CreateIndex(UxRunsProducerKey)]

  const PRODUCER_SCOPED_IDEMPOTENCY: seq<Instr> := GLOBAL_DROPS + SCOPED_INDEXES

  const OPTIONAL_COLUMNS: seq<Instr> := [
    AddColumn(Experiments, IdempotencyKey), AddColumn(Experiments, ContentFingerprint),
    AddColumn(Promotions, IdempotencyKey), AddColumn(Promotions, ContentFingerprint),
    AddColumn(HealthRecords, IdempotencyKey), AddColumn(HealthRecords, ContentFingerprint)
  ]

  const OPTIONAL_INDEXES: seq<Instr> := [
    CreateIndex(UxExperimentsProducerKey), CreateIndex(UxPromotionsProducerKey), CreateIndex(UxHealthProducerKey)
  ]

  const OPTIONAL_IDEMPOTENCY_KEYS: seq<Instr> := OPTIONAL_COLUMNS + OPTIONAL_INDEXES

  const ARTIFACT_COLUMNS: seq<Instr> := [
    AddColumn(Artifacts, Producer), AddColumn(Artifacts, IdempotencyKey), AddColumn(Artifacts, IdempotencyFingerprint)
  ]

  const ARTIFACT_IDEMPOTENCY_KEYS: seq<Instr> := ARTIFACT_COLUMNS + [CreateIndex(UxArtifactsProducerKey)]

  /** The checksums are those of the files' bytes. */
  function CerMigrations(sums: (string, string, string, string)): seq<Migration> {
    [Migration(1, sums.0, INITIAL), Migration(2, sums.1, PRODUCER_SCOPED_IDEMPOTENCY),
     Migration(3, sums.2, OPTIONAL_IDEMPOTENCY_KEYS), Migration(4, sums.3, ARTIFACT_IDEMPOTENCY_KEYS)]
  }

  lemma FullOfOne(m: Migration, rest: seq<Migration>)
    ensures Full([m] + rest) == Block(m) + Full(rest)
  {
    assert ([m] + rest)[1..] == rest;
  }

  lemma FullOfFour(a: Migration, b: Migration, c: Migration, d: Migration)
    ensures Full([a, b, c, d]) == Block(a) + Block(b) + Block(c) + Block(d)
  {
    assert [a, b, c, d] == [a] + ([b] + ([c] + ([d] + [])));
    FullOfOne(a, [b] + ([c] + ([d] + [])));
    FullOfOne(b, [c] + ([d] + []));
    FullOfOne(c, [d] + []);
    FullOfOne(d, []);
  }

  // ---------------------------------------------------------------------------
  // The scripts are disciplined
  // ---------------------------------------------------------------------------

  /** What a statement needs of the statements above it. */
  ghost predicate Fits(p: seq<Instr>, x: Instr) {
    match x
    case CreateTable(_) => true
    case CreateIndex(ix) =>
      && CreateTable(DefinitionOf(ix).table) in p && DropIndex(ix) !in p
      && forall column :: column in DefinitionOf(ix).columns ==>
           column in InitialColumns(DefinitionOf(ix).table) || AddColumn(DefinitionOf(ix).table, column) in p
    case DropIndex(_) => forall t, column :: AddColumn(t, column) !in p
    case AddColumn(t, column) => CreateTable(t) in p && column !in InitialColumns(t) && x !in p
    case RecordVersion(v, _) => forall checksum :: RecordVersion(v, checksum) !in p
    case RefuseEdited(_) => false
  }

  lemma HappenedIsAbove(p: seq<Instr>, k: nat, x: Instr)
    requires k <= |p|
    ensures Happened(p, k, x) <==> x in p[..k]
  {
    if x in p[..k] {
      var j :| 0 <= j < k && p[..k][j] == x;
      assert p[j] == x;
    }
  }

  lemma FitsIsStatementOk(p: seq<Instr>, k: nat)
    requires k < |p|
    ensures Fits(p[..k], p[k]) ==> StatementOk(p, k)
  {
    forall x ensures Happened(p, k, x) <==> x in p[..k] { HappenedIsAbove(p, k, x); }
    if Fits(p[..k], p[k]) {
      forall j | 0 <= j < k
        ensures p[k].DropIndex? ==> !p[j].AddColumn?
        ensures p[k].RecordVersion? && p[j].RecordVersion? ==> p[j].version != p[k].version
      {
        assert p[..k][j] == p[j];
      }
    }
  }

  lemma StatementOkGrows(p: seq<Instr>, more: seq<Instr>, k: nat)
    requires k < |p|
    ensures StatementOk(p + more, k) <==> StatementOk(p, k)
  {
    forall x ensures Happened(p + more, k, x) <==> Happened(p, k, x) {
      HappenedIsAbove(p, k, x);
      HappenedIsAbove(p + more, k, x);
      assert (p + more)[..k] == p[..k];
    }
    assert forall j :: 0 <= j <= k ==> (p + more)[j] == p[j];
  }

  lemma One(p: seq<Instr>, x: Instr)
    requires Disciplined(p) && Fits(p, x)
    ensures Disciplined(p + [x])
  {
    forall k | 0 <= k < |p + [x]| ensures StatementOk(p + [x], k) {
      if k < |p| {
        StatementOkGrows(p, [x], k);
      } else {
        assert (p + [x])[..k] == p;
        FitsIsStatementOk(p + [x], k);
      }
    }
  }

  // What is above a statement, as far as the next ones can tell.

  /** A disciplined script that so far only creates. */
  ghost predicate OnlyCreates(p: seq<Instr>) {
    Disciplined(p) && forall k :: 0 <= k < |p| ==> p[k].CreateTable? || p[k].CreateIndex?
  }

  predicate IndexesOf(t: TableName, indexes: seq<Instr>) {
    forall x :: x in indexes ==> IndexOn(t, x)
  }

  /** A table followed by indexes on columns it was created with. */
  lemma {:induction false} TableWithIndexes(p: seq<Instr>, t: TableName, indexes: seq<Instr>)
    requires OnlyCreates(p) && IndexesOf(t, indexes)
    ensures OnlyCreates(WithTable(p, t, indexes))
    decreases |indexes|
  {
    if indexes == [] {
      One(p, CreateTable(t));
      assert WithTable(p, t, indexes) == p + [CreateTable(t)];
    } else {
      var init, last := indexes[..|indexes| - 1], indexes[|indexes| - 1];
      assert forall x :: x in init ==> x in indexes;
      TableWithIndexes(p, t, init);
      var q := WithTable(p, t, init);
      assert last in indexes && CreateTable(t) in q;
      One(q, last);
      assert WithTable(p, t, indexes) == q + [last];
    }
  }

  predicate IndexOn(t: TableName, x: Instr) {
    x.CreateIndex? && DefinitionOf(x.index).table == t && DefinitionOf(x.index).columns <= InitialColumns(t)
  }

  lemma EvidenceIndexesFit()
    ensures IndexesOf(EvidenceRecords, EVIDENCE_INDEXES)
  {
    assert forall x :: x in EVIDENCE_INDEXES ==> IndexOn(EvidenceRecords, x);
  }

  lemma RunAndArtifactIndexesFit()
    ensures IndexesOf(Runs, RUN_INDEXES) && IndexesOf(Artifacts, ARTIFACT_INDEXES)
  {
    assert forall x :: x in RUN_INDEXES ==> IndexOn(Runs, x);
    assert forall x :: x in ARTIFACT_INDEXES ==> IndexOn(Artifacts, x);
  }

  lemma PromotionAndHealthIndexesFit()
    ensures IndexesOf(Promotions, PROMOTION_INDEXES) && IndexesOf(HealthRecords, HEALTH_INDEXES)
  {
    assert forall x :: x in PROMOTION_INDEXES ==> IndexOn(Promotions, x);
    assert forall x :: x in HEALTH_INDEXES ==> IndexOn(HealthRecords, x);
  }

  lemma TwoTables(p: seq<Instr>, t: TableName, indexes: seq<Instr>, t': TableName, indexes': seq<Instr>)
    requires OnlyCreates(p) && IndexesOf(t, indexes) && IndexesOf(t', indexes')
    ensures OnlyCreates(WithTable(WithTable(p, t, indexes), t', indexes'))
  {
    TableWithIndexes(p, t, indexes);
    TableWithIndexes(WithTable(p, t, indexes), t', indexes');
  }

  lemma InitialOnlyCreates()
    ensures OnlyCreates(INITIAL)
  {
    EvidenceIndexesFit();
    RunAndArtifactIndexesFit();
    PromotionAndHealthIndexesFit();
    TwoTables([], Strategies, [], StrategyVersions, []);
    TwoTables(WithTable(WithTable([], Strategies, []), StrategyVersions, []), Experiments, [], Runs, RUN_INDEXES);
    TwoTables(UP_TO_RUNS, EvidenceRecords, EVIDENCE_INDEXES, Artifacts, ARTIFACT_INDEXES);
    TwoTables(UP_TO_ARTIFACTS, Promotions, PROMOTION_INDEXES, HealthRecords, HEALTH_INDEXES);
  }

  datatype Above = Above(drops: set<IndexName>, adds: set<(TableName, Column)>, versions: set<nat>)

  /** All tables have been created, and these are the drops, added columns and recorded versions. */
  ghost predicate Sums(p: seq<Instr>, a: Above) {
    && (forall t :: CreateTable(t) in p)
    && (forall ix :: DropIndex(ix) in p <==> ix in a.drops)
    && (forall t, column :: AddColumn(t, column) in p <==> (t, column) in a.adds)
    && (forall v, checksum :: RecordVersion(v, checksum) in p ==> v in a.versions)
  }

  predicate FitsAbove(a: Above, x: Instr) {
    match x
    case CreateTable(_) => true
    case CreateIndex(ix) =>
      var d := DefinitionOf(ix);
      ix !in a.drops && forall column :: column in d.columns ==>
        column in InitialColumns(d.table) || (d.table, column) in a.adds
    case DropIndex(_) => a.adds == {}
    case AddColumn(t, column) => column !in InitialColumns(t) && (t, column) !in a.adds
    case RecordVersion(v, _) => v !in a.versions
    case RefuseEdited(_) => false
  }

  function Adding(a: Above, x: Instr): Above {
    match x
    case DropIndex(ix) => a.(drops := a.drops + {ix})
    case AddColumn(t, column) => a.(adds := a.adds + {(t, column)})
    case RecordVersion(v, _) => a.(versions := a.versions + {v})
    case _ => a
  }

  lemma Next(p: seq<Instr>, a: Above, x: Instr)
    requires Disciplined(p) && Sums(p, a) && FitsAbove(a, x)
    ensures Disciplined(p + [x]) && Sums(p + [x], Adding(a, x))
  {
    assert x.DropIndex? ==> forall t, column :: (t, column) !in a.adds;
    One(p, x);
  }

  lemma Indexes(p: seq<Instr>, a: Above, indexes: seq<Instr>)
    requires Disciplined(p) && Sums(p, a) && forall x :: x in indexes ==> x.CreateIndex? && FitsAbove(a, x)
    ensures Disciplined(p + indexes) && Sums(p + indexes, a)
  {
    if indexes == [] {
      assert p + indexes == p;
    } else {
      var init, last := indexes[..|indexes| - 1], indexes[|indexes| - 1];
      assert forall x :: x in init ==> x in indexes;
      Indexes(p, a, init);
      assert last in indexes;
      Next(p + init, a, last);
      assert p + indexes == (p + init) + [last];
    }
  }

  lemma {:induction false} Columns(p: seq<Instr>, a: Above, columns: seq<Instr>) returns (a': Above)
    requires Disciplined(p) && Sums(p, a)
    requires forall i :: 0 <= i < |columns| ==> columns[i].AddColumn? && FitsAbove(a, columns[i])
    requires forall i, j :: 0 <= i < j < |columns| ==> columns[i] != columns[j]
    ensures Disciplined(p + columns) && Sums(p + columns, a')
    ensures a'.drops == a.drops && a'.versions == a.versions
    ensures forall t, column :: (t, column) in a'.adds <==> (t, column) in a.adds || AddColumn(t, column) in columns
    decreases |columns|
  {
    if columns == [] {
      assert p + columns == p;
      a' := a;
    } else {
      var init, last := columns[..|columns| - 1], columns[|columns| - 1];
      var b := Columns(p, a, init);
      assert last !in init;
      Next(p + init, b, last);
      a' := Adding(b, last);
      assert p + columns == (p + init) + [last];
    }
  }

  lemma InitialSums()
    ensures Sums(INITIAL, Above({}, {}, {}))
  {
    InitialOnlyCreates();
    forall t ensures CreateTable(t) in INITIAL {
      match t
      case Strategies => case StrategyVersions => case Experiments => case Runs =>
      case EvidenceRecords => case Artifacts => case Promotions => case HealthRecords =>
    }
  }

  /** The second script: the drops, while no column has been added yet, and the scoped indexes. */
  lemma SecondScript(p: seq<Instr>, versions: set<nat>)
    requires Disciplined(p) && Sums(p, Above({}, {}, versions))
    ensures Disciplined(p + PRODUCER_SCOPED_IDEMPOTENCY)
    ensures Sums(p + PRODUCER_SCOPED_IDEMPOTENCY, Above({UxEvidenceKey, UxRunsKey}, {}, versions))
  {
    var a := Above({}, {}, versions);
    var b := Adding(a, DropIndex(UxEvidenceKey));
    Next(p, a, DropIndex(UxEvidenceKey));
    Next(p + [DropIndex(UxEvidenceKey)], b, DropIndex(UxRunsKey));
    assert p + GLOBAL_DROPS == p + [DropIndex(UxEvidenceKey)] + [DropIndex(UxRunsKey)];
    assert {UxEvidenceKey} + {UxRunsKey} == {UxEvidenceKey, UxRunsKey};
    Indexes(p + GLOBAL_DROPS, Above({UxEvidenceKey, UxRunsKey}, {}, versions), SCOPED_INDEXES);
    assert p + PRODUCER_SCOPED_IDEMPOTENCY == p + GLOBAL_DROPS + SCOPED_INDEXES;
  }

  predicate NewColumn(x: Instr) { x.AddColumn? && x.column !in InitialColumns(x.table) && x.table != Artifacts }

  lemma OptionalColumnsAreNew()
    ensures forall i :: 0 <= i < |OPTIONAL_COLUMNS| ==> NewColumn(OPTIONAL_COLUMNS[i])
    ensures forall i, j :: 0 <= i < j < |OPTIONAL_COLUMNS| ==> OPTIONAL_COLUMNS[i] != OPTIONAL_COLUMNS[j]
    ensures AddColumn(Experiments, IdempotencyKey) in OPTIONAL_COLUMNS
      && AddColumn(Promotions, IdempotencyKey) in OPTIONAL_COLUMNS
    ensures AddColumn(HealthRecords, IdempotencyKey) in OPTIONAL_COLUMNS
  {
  }

  lemma OptionalIndexesFit(a: Above)
    requires a.drops == {UxEvidenceKey, UxRunsKey}
    requires forall t :: t == Experiments || t == Promotions || t == HealthRecords ==> (t, IdempotencyKey) in a.adds
    ensures forall x :: x in OPTIONAL_INDEXES ==> x.CreateIndex? && FitsAbove(a, x)
  {
  }

  /** The third script: columns on three tables, then the indexes that need them. */
  lemma ThirdScript(p: seq<Instr>, a: Above) returns (a': Above)
    requires Disciplined(p) && Sums(p, a) && a.adds == {} && a.drops == {UxEvidenceKey, UxRunsKey}
    ensures Disciplined(p + OPTIONAL_IDEMPOTENCY_KEYS) && Sums(p + OPTIONAL_IDEMPOTENCY_KEYS, a')
    ensures a'.drops == a.drops && a'.versions == a.versions
    ensures forall column :: (Artifacts, column) !in a'.adds
    ensures forall t, column :: (t, column) in a'.adds <==> AddColumn(t, column) in OPTIONAL_COLUMNS
  {
    OptionalColumnsAreNew();
    assert forall i :: 0 <= i < |OPTIONAL_COLUMNS| ==> NewColumn(OPTIONAL_COLUMNS[i]);
    a' := AddNewColumns(p, a, OPTIONAL_COLUMNS);
    OptionalIndexesFit(a');
    Indexes(p + OPTIONAL_COLUMNS, a', OPTIONAL_INDEXES);
    assert p + OPTIONAL_IDEMPOTENCY_KEYS == p + OPTIONAL_COLUMNS + OPTIONAL_INDEXES;
  }

  lemma AddNewColumns(p: seq<Instr>, a: Above, columns: seq<Instr>) returns (a': Above)
    requires Disciplined(p) && Sums(p, a) && a.adds == {}
    requires forall i :: 0 <= i < |columns| ==> NewColumn(columns[i])
    requires forall i, j :: 0 <= i < j < |columns| ==> columns[i] != columns[j]
    ensures Disciplined(p + columns) && Sums(p + columns, a')
    ensures a'.drops == a.drops && a'.versions == a.versions
    ensures forall t, column :: (t, column) in a'.adds <==> AddColumn(t, column) in columns
    ensures forall column :: (Artifacts, column) !in a'.adds
  {
    assert forall i :: 0 <= i < |columns| ==> NewColumn(columns[i]) ==> FitsAbove(a, columns[i]);
    a' := Columns(p, a, columns);
    assert forall x :: x in columns ==> NewColumn(x);
  }

  lemma FourthScript(p: seq<Instr>, a: Above) returns (a': Above)
    requires Disciplined(p) && Sums(p, a) && a.drops == {UxEvidenceKey, UxRunsKey}
    requires forall column :: (Artifacts, column) !in a.adds
    ensures Disciplined(p + ARTIFACT_IDEMPOTENCY_KEYS) && Sums(p + ARTIFACT_IDEMPOTENCY_KEYS, a')
    ensures a'.versions == a.versions && a'.drops == a.drops
    ensures forall t, column :: (t, column) in a'.adds <==>
      (t, column) in a.adds || AddColumn(t, column) in ARTIFACT_COLUMNS
  {
    a' := Columns(p, a, ARTIFACT_COLUMNS);
    assert AddColumn(Artifacts, Producer) in ARTIFACT_COLUMNS
      && AddColumn(Artifacts, IdempotencyKey) in ARTIFACT_COLUMNS;
    Next(p + ARTIFACT_COLUMNS, a', CreateIndex(UxArtifactsProducerKey));
    assert p + ARTIFACT_IDEMPOTENCY_KEYS == p + ARTIFACT_COLUMNS + [CreateIndex(UxArtifactsProducerKey)];
  }

  lemma Recording(p: seq<Instr>, a: Above, script: seq<Instr>, v: nat, sum: string)
    requires Disciplined(p + script) && Sums(p + script, a) && v !in a.versions
    ensures Disciplined(p + (script + [RecordVersion(v, sum)]))
    ensures Sums(p + (script + [RecordVersion(v, sum)]), a.(versions := a.versions + {v}))
  {
    Next(p + script, a, RecordVersion(v, sum));
    assert p + (script + [RecordVersion(v, sum)]) == (p + script) + [RecordVersion(v, sum)];
  }

  lemma FirstBlock(sum: string)
    ensures Disciplined(INITIAL + [RecordVersion(1, sum)])
      && Sums(INITIAL + [RecordVersion(1, sum)], Above({}, {}, {1}))
  {
    InitialOnlyCreates();
    InitialSums();
    assert [] + INITIAL == INITIAL;
    Recording([], Above({}, {}, {}), INITIAL, 1, sum);
    assert [] + (INITIAL + [RecordVersion(1, sum)]) == INITIAL + [RecordVersion(1, sum)];
    assert {} + {1} == {1};
  }

  lemma SecondBlock(p: seq<Instr>, sum: string)
    requires Disciplined(p) && Sums(p, Above({}, {}, {1}))
    ensures Disciplined(p + (PRODUCER_SCOPED_IDEMPOTENCY + [RecordVersion(2, sum)]))
    ensures Sums(p + (PRODUCER_SCOPED_IDEMPOTENCY + [RecordVersion(2, sum)]),
                 Above({UxEvidenceKey, UxRunsKey}, {}, {1} + {2}))
  {
    SecondScript(p, {1});
    Recording(p, Above({UxEvidenceKey, UxRunsKey}, {}, {1}), PRODUCER_SCOPED_IDEMPOTENCY, 2, sum);
  }

  function LastTwo(p: seq<Instr>, sum3: string, sum4: string): seq<Instr> {
    p + (OPTIONAL_IDEMPOTENCY_KEYS + [RecordVersion(3, sum3)]) + (ARTIFACT_IDEMPOTENCY_KEYS + [RecordVersion(4, sum4)])
  }

  lemma LastBlocks(p: seq<Instr>, a: Above, sum3: string, sum4: string) returns (a': Above)
    requires Disciplined(p) && Sums(p, a) && a.adds == {} && a.drops == {UxEvidenceKey, UxRunsKey}
    requires 3 !in a.versions && 4 !in a.versions
    ensures Disciplined(LastTwo(p, sum3, sum4)) && Sums(LastTwo(p, sum3, sum4), a') && a'.drops == a.drops
    ensures forall t, column :: (t, column) in a'.adds <==>
      AddColumn(t, column) in OPTIONAL_COLUMNS || AddColumn(t, column) in ARTIFACT_COLUMNS
  {
    var a3 := ThirdScript(p, a);
    Recording(p, a3, OPTIONAL_IDEMPOTENCY_KEYS, 3, sum3);
    var p3 := p + (OPTIONAL_IDEMPOTENCY_KEYS + [RecordVersion(3, sum3)]);
    var a4 := FourthScript(p3, a3.(versions := a3.versions + {3}));
    Recording(p3, a4, ARTIFACT_IDEMPOTENCY_KEYS, 4, sum4);
    a' := a4.(versions := a4.versions + {4});
  }

  /** A script holds DDL only, and drops no index that it creates itself. */
  predicate ScriptOk(script: seq<Instr>) {
    && (forall k :: 0 <= k < |script| ==> IsDdl(script[k]))
    && (forall j, k :: 0 <= j < |script| && 0 <= k < |script| && script[j].CreateIndex? && script[k].DropIndex? ==>
          script[j].index != script[k].index)
  }

  predicate Tidy(ms: seq<Migration>) { forall m :: 0 <= m < |ms| ==> ScriptOk(ms[m].script) }

  lemma CreatingOrAddingIsOk(script: seq<Instr>)
    requires forall k :: 0 <= k < |script| ==> script[k].CreateTable? || script[k].CreateIndex? || script[k].AddColumn?
    ensures ScriptOk(script)
  {
  }

  lemma CerIsTidy(sums: (string, string, string, string))
    ensures Tidy(CerMigrations(sums)) && VersionsAscend(CerMigrations(sums))
  {
    InitialOnlyCreates();
    CreatingOrAddingIsOk(INITIAL);
    CreatingOrAddingIsOk(OPTIONAL_IDEMPOTENCY_KEYS);
    CreatingOrAddingIsOk(ARTIFACT_IDEMPOTENCY_KEYS);
    assert ScriptOk(PRODUCER_SCOPED_IDEMPOTENCY);
  }

  /** Together the files create every table, drop the two global indexes, and add nine columns. */
  lemma CerSums(sums: (string, string, string, string)) returns (a: Above)
    ensures Disciplined(Full(CerMigrations(sums))) && Sums(Full(CerMigrations(sums)), a)
    ensures a.drops == {UxEvidenceKey, UxRunsKey}
    ensures forall t, column :: (t, column) in a.adds <==>
      AddColumn(t, column) in OPTIONAL_COLUMNS || AddColumn(t, column) in ARTIFACT_COLUMNS
  {
    FirstBlock(sums.0);
    var ms := CerMigrations(sums);
    SecondBlock(Block(ms[0]), sums.1);
    a := LastBlocks(Block(ms[0]) + Block(ms[1]), Above({UxEvidenceKey, UxRunsKey}, {}, {1} + {2}), sums.2, sums.3);
    FullOfFour(ms[0], ms[1], ms[2], ms[3]);
  }

  /** The schema files keep the discipline that the laws of racing and crashing runners ask for. */
  lemma CerIsDisciplined(sums: (string, string, string, string))
    ensures Disciplined(Full(CerMigrations(sums)))
  {
    var a := CerSums(sums);
  }

  /** Every index name is created by one of the files. */
  lemma EveryIndexIsCreated(ix: IndexName)
    ensures CreateIndex(ix) in INITIAL || CreateIndex(ix) in PRODUCER_SCOPED_IDEMPOTENCY
         || CreateIndex(ix) in OPTIONAL_IDEMPOTENCY_KEYS || CreateIndex(ix) in ARTIFACT_IDEMPOTENCY_KEYS
  {
    if DefinitionOf(ix).table == EvidenceRecords {
      assert CreateIndex(ix) in EVIDENCE_INDEXES || ix == UxEvidenceProducerKey;
    } else {
      assert CreateIndex(ix) in RUN_INDEXES + ARTIFACT_INDEXES + PROMOTION_INDEXES + HEALTH_INDEXES
          || ix in {UxRunsProducerKey, UxExperimentsProducerKey, UxPromotionsProducerKey, UxHealthProducerKey,
                    UxArtifactsProducerKey};
    }
  }
}
