/** The migration runner: forward-only scripts over a schema, a tracking table of the versions
    applied, and checksums that must never change. */
module Migrations {
  import opened Wrappers
  import Timestamps

  // ---------------------------------------------------------------------------
  // The schema
  // ---------------------------------------------------------------------------

  datatype TableName =
    Strategies | StrategyVersions | Experiments | Runs | EvidenceRecords | Artifacts | Promotions | HealthRecords

  /** The columns that an index or an ALTER TABLE mentions. */
  datatype Column = StrategyId | StrategyVersionCol | ExperimentId | RunId | EvidenceId | Producer | IdempotencyKey
    | ContentFingerprint | IdempotencyFingerprint | StartedAt | EvidenceType | CreatedAtUtc | ObservedAtUtc
    | RegisteredAt | AtUtc

  datatype IndexName =
    | UxRunsKey | IxRunsExperimentId | IxRunsStartedAt
    | UxEvidenceKey | IxEvidenceStrategyId | IxEvidenceStrategyIdVersion | IxEvidenceRunId | IxEvidenceExperimentId
    | IxEvidenceType | IxEvidenceCreatedAtUtc
    | IxArtifactsRunId | IxArtifactsEvidenceId | IxArtifactsRegisteredAt
    | IxPromotionsStrategyId | IxPromotionsStrategyIdVersion | IxPromotionsAtUtc
    | IxHealthStrategyId | IxHealthStrategyIdVersion | IxHealthObservedAtUtc
    | UxEvidenceProducerKey | UxRunsProducerKey
    | UxExperimentsProducerKey | UxPromotionsProducerKey | UxHealthProducerKey | UxArtifactsProducerKey

  /** The columns CREATE TABLE gives a table. */
  function InitialColumns(t: TableName): set<Column> {
    match t
    case Strategies => {StrategyId}
    case StrategyVersions => {StrategyId, StrategyVersionCol}
    case Experiments => {ExperimentId, StrategyId, StrategyVersionCol, Producer}
    case Runs => {RunId, ExperimentId, StartedAt, Producer, IdempotencyKey, ContentFingerprint}
    case EvidenceRecords =>
      {EvidenceId, IdempotencyKey, EvidenceType, StrategyId, StrategyVersionCol, ExperimentId, RunId, Producer,
       CreatedAtUtc, ObservedAtUtc, ContentFingerprint}
    case Artifacts => {RegisteredAt, RunId, EvidenceId, ContentFingerprint}
    case Promotions => {StrategyId, StrategyVersionCol, AtUtc, Producer}
    case HealthRecords => {StrategyId, StrategyVersionCol, ObservedAtUtc, Producer}
  }

  datatype IndexDef = IndexDef(table: TableName, columns: set<Column>)

  /** What CREATE INDEX puts an index on. */
  function DefinitionOf(i: IndexName): IndexDef {
    match i
    case UxRunsKey => IndexDef(Runs, {IdempotencyKey})
    case IxRunsExperimentId => IndexDef(Runs, {ExperimentId})
    case IxRunsStartedAt => IndexDef(Runs, {StartedAt})
    case UxEvidenceKey => IndexDef(EvidenceRecords, {IdempotencyKey})
    case IxEvidenceStrategyId => IndexDef(EvidenceRecords, {StrategyId})
    case IxEvidenceStrategyIdVersion => IndexDef(EvidenceRecords, {StrategyId, StrategyVersionCol})
    case IxEvidenceRunId => IndexDef(EvidenceRecords, {RunId})
    case IxEvidenceExperimentId => IndexDef(EvidenceRecords, {ExperimentId})
    case IxEvidenceType => IndexDef(EvidenceRecords, {EvidenceType})
    case IxEvidenceCreatedAtUtc => IndexDef(EvidenceRecords, {CreatedAtUtc})
    case IxArtifactsRunId => IndexDef(Artifacts, {RunId})
    case IxArtifactsEvidenceId => IndexDef(Artifacts, {EvidenceId})
    case IxArtifactsRegisteredAt => IndexDef(Artifacts, {RegisteredAt})
    case IxPromotionsStrategyId => IndexDef(Promotions, {StrategyId})
    case IxPromotionsStrategyIdVersion => IndexDef(Promotions, {StrategyId, StrategyVersionCol})
    case IxPromotionsAtUtc => IndexDef(Promotions, {AtUtc})
    case IxHealthStrategyId => IndexDef(HealthRecords, {StrategyId})
    case IxHealthStrategyIdVersion => IndexDef(HealthRecords, {StrategyId, StrategyVersionCol})
    case IxHealthObservedAtUtc => IndexDef(HealthRecords, {ObservedAtUtc})
    case UxEvidenceProducerKey => IndexDef(EvidenceRecords, {Producer, IdempotencyKey})
    case UxRunsProducerKey => IndexDef(Runs, {Producer, IdempotencyKey})
    case UxExperimentsProducerKey => IndexDef(Experiments, {Producer, IdempotencyKey})
    case UxPromotionsProducerKey => IndexDef(Promotions, {Producer, IdempotencyKey})
    case UxHealthProducerKey => IndexDef(HealthRecords, {Producer, IdempotencyKey})
    case UxArtifactsProducerKey => IndexDef(Artifacts, {Producer, IdempotencyKey})
  }

  /** Tables with their columns, indexes, and the tracking table: version to checksum. */
  datatype Catalog = Catalog(tables: map<TableName, set<Column>>, indexes: set<IndexName>, recorded: map<nat, string>)

  const EMPTY_CATALOG: Catalog := Catalog(map[], {}, map[])

  // ---------------------------------------------------------------------------
  // Statements
  // ---------------------------------------------------------------------------

  /** `CREATE ... IF NOT EXISTS`, `DROP INDEX IF EXISTS`, `ALTER TABLE ... ADD COLUMN`,
      `INSERT OR IGNORE` into the tracking table, and the refusal of an edited file. */
  datatype Instr =
    | CreateTable(table: TableName)
    | CreateIndex(index: IndexName)
    | DropIndex(index: IndexName)
    | AddColumn(table: TableName, column: Column)
    | RecordVersion(version: nat, checksum: string)
    | RefuseEdited(version: nat)

  /** One autocommitted statement; `None` is an error, which changes nothing. */
  function Step(c: Catalog, i: Instr): Option<Catalog> {
    match i
    case CreateTable(t) => Some(if t in c.tables then c else c.(tables := c.tables[t := InitialColumns(t)]))
    case CreateIndex(ix) =>
      var d := DefinitionOf(ix);
      if d.table !in c.tables then None
      else if ix in c.indexes then Some(c)
      else if !(d.columns <= c.tables[d.table]) then None
      else Some(c.(indexes := c.indexes + {ix}))
    case DropIndex(ix) => Some(c.(indexes := c.indexes - {ix}))
    case AddColumn(t, column) =>
      if t !in c.tables || column in c.tables[t] then None
      else Some(c.(tables := c.tables[t := c.tables[t] + {column}]))
    case RecordVersion(v, checksum) => Some(if v in c.recorded then c else c.(recorded := c.recorded[v := checksum]))
    case RefuseEdited(_) => None
  }

  /** Statements up to the first error, if there is one. */
  function Execute(c: Catalog, p: seq<Instr>): (Catalog, Result<()>)
    decreases |p|
  {
    if p == [] then (c, Ok(()))
    else
      var next := Step(c, p[0]);
      if next.None? then (c, Err(MetadataStoreError)) else Execute(next.value, p[1..])
  }

  // ---------------------------------------------------------------------------
  // Migrations
  // ---------------------------------------------------------------------------

  datatype Migration = Migration(version: nat, checksum: string, script: seq<Instr>)

  predicate IsDdl(i: Instr) { !i.RecordVersion? && !i.RefuseEdited? }

  predicate ScriptsAreDdl(ms: seq<Migration>) {
    forall m, k :: 0 <= m < |ms| && 0 <= k < |ms[m].script| ==> IsDdl(ms[m].script[k])
  }

  predicate VersionsAscend(ms: seq<Migration>) { forall i, j :: 0 <= i < j < |ms| ==> ms[i].version < ms[j].version }

  /** Everything one migration executes: its script, then its tracking row. */
  function Block(m: Migration): seq<Instr> { m.script + [RecordVersion(m.version, m.checksum)] }

  /** What the runner does about one migration, given the tracking rows it read when it started. */
  function PlanOne(m: Migration, applied: map<nat, string>): seq<Instr> {
    if m.version !in applied then Block(m)
    else if applied[m.version] != m.checksum then [RefuseEdited(m.version)]
    else []
  }

  function Plan(ms: seq<Migration>, applied: map<nat, string>): seq<Instr> {
    if ms == [] then [] else PlanOne(ms[0], applied) + Plan(ms[1..], applied)
  }

  function Full(ms: seq<Migration>): seq<Instr> { Plan(ms, map[]) }

  lemma {:induction false} ExecuteConcat(c: Catalog, a: seq<Instr>, b: seq<Instr>)
    ensures Execute(c, a).1.Err? ==> Execute(c, a + b) == Execute(c, a)
    ensures Execute(c, a).1.Ok? ==> Execute(c, a + b) == Execute(Execute(c, a).0, b)
    decreases |a|
  {
    if a == [] {
      assert a + b == b;
    } else {
      assert (a + b)[1..] == a[1..] + b;
      var next := Step(c, a[0]);
      if next.Some? { ExecuteConcat(next.value, a[1..], b); }
    }
  }

  lemma {:induction false} PlanConcat(a: seq<Migration>, b: seq<Migration>, applied: map<nat, string>)
    ensures Plan(a + b, applied) == Plan(a, applied) + Plan(b, applied)
  {
    if a == [] {
      assert a + b == b;
    } else {
      assert (a + b)[1..] == a[1..] + b;
      PlanConcat(a[1..], b, applied);
    }
  }

  // ---------------------------------------------------------------------------
  // The files
  // ---------------------------------------------------------------------------

  datatype File = File(name: string, script: seq<Instr>, checksum: string)

  predicate IsNameChar(c: char) { Timestamps.IsDigit(c) || 'A' <= c <= 'Z' || 'a' <= c <= 'z' || c == '_' }

  function DigitsPrefix(s: string): (n: nat)
    ensures n <= |s| && (forall i :: 0 <= i < n ==> Timestamps.IsDigit(s[i])) && (n < |s| ==> !Timestamps.IsDigit(s[n]))
  {
    if s == "" || !Timestamps.IsDigit(s[0]) then 0 else 1 + DigitsPrefix(s[1..])
  }

  /** `<version>_<description>.sql`: digits, an underscore, a description, the suffix. */
  function ParseVersion(name: string): Option<nat> {
    var n := DigitsPrefix(name);
    if n == 0 || |name| < n + 6 || name[n] != '_' || name[|name| - 4..] != ".sql" then None
    else if forall i :: n < i < |name| - 4 ==> IsNameChar(name[i]) then Some(Timestamps.Value(name[..n]))
    else None
  }

  predicate IsDescription(s: string) { s != "" && forall i :: 0 <= i < |s| ==> IsNameChar(s[i]) }

  predicate IsNumeral(s: string) { s != "" && Timestamps.AllDigits(s) }

  lemma {:induction false} DigitsOf(digits: string, rest: string)
    requires Timestamps.AllDigits(digits) && (rest != "" ==> !Timestamps.IsDigit(rest[0]))
    ensures DigitsPrefix(digits + rest) == |digits|
  {
    if digits == "" {
      assert digits + rest == rest;
    } else {
      assert (digits + rest)[1..] == digits[1..] + rest;
      DigitsOf(digits[1..], rest);
    }
  }

  /** A name that has the form is read as its version. */
  lemma NameIsRead(digits: string, description: string)
    requires IsNumeral(digits) && IsDescription(description)
    ensures ParseVersion(digits + "_" + description + ".sql") == Some(Timestamps.Value(digits))
  {
    var name := digits + "_" + description + ".sql";
    assert name == digits + ("_" + description + ".sql");
    DigitsOf(digits, "_" + description + ".sql");
    PartsOfName(digits, description, ".sql");
  }

  lemma PartsOfName(digits: string, description: string, suffix: string)
    requires IsDescription(description) && |suffix| == 4
    ensures var name := digits + "_" + description + suffix;
      && name[..|digits|] == digits && name[|digits|] == '_' && name[|name| - 4..] == suffix
      && |name| >= |digits| + 6 && forall i :: |digits| < i < |name| - 4 ==> IsNameChar(name[i])
  {
    var name := digits + "_" + description + suffix;
    forall i | |digits| < i < |name| - 4 ensures IsNameChar(name[i]) {
      assert name[i] == description[i - |digits| - 1];
    }
  }

  /** And nothing else is read. */
  lemma ReadNameHasForm(name: string) returns (digits: string, description: string)
    requires ParseVersion(name).Some?
    ensures IsNumeral(digits) && IsDescription(description) && name == digits + "_" + description + ".sql"
  {
    var n := DigitsPrefix(name);
    digits, description := name[..n], name[n + 1..|name| - 4];
    assert name == name[..n] + [name[n]] + name[n + 1..|name| - 4] + name[|name| - 4..];
  }

  function InsertByVersion(m: Migration, ms: seq<Migration>): seq<Migration> {
    if ms == [] || m.version < ms[0].version then [m] + ms else [ms[0]] + InsertByVersion(m, ms[1..])
  }

  /** `list.sort(key=version)`. */
  function SortByVersion(ms: seq<Migration>): seq<Migration> {
    if ms == [] then [] else InsertByVersion(ms[0], SortByVersion(ms[1..]))
  }

  lemma {:induction false} InsertIsPermutation(m: Migration, ms: seq<Migration>)
    ensures multiset(InsertByVersion(m, ms)) == multiset(ms) + multiset{m}
    ensures |InsertByVersion(m, ms)| == |ms| + 1
  {
    if ms != [] && m.version >= ms[0].version {
      assert ms == [ms[0]] + ms[1..];
      InsertIsPermutation(m, ms[1..]);
    }
  }

  lemma {:induction false} InsertKeepsAscending(m: Migration, ms: seq<Migration>)
    requires VersionsAscend(ms) && forall i :: 0 <= i < |ms| ==> ms[i].version != m.version
    ensures VersionsAscend(InsertByVersion(m, ms))
  {
    if ms != [] && m.version >= ms[0].version {
      InsertKeepsAscending(m, ms[1..]);
      InsertIsPermutation(m, ms[1..]);
      var rest := InsertByVersion(m, ms[1..]);
      forall k | 0 <= k < |rest| ensures ms[0].version < rest[k].version {
        assert rest[k] in multiset(rest);
        assert rest[k] in multiset(ms[1..]) || rest[k] == m;
      }
    }
  }

  predicate VersionsDistinct(ms: seq<Migration>) { forall i, j :: 0 <= i < j < |ms| ==> ms[i].version != ms[j].version }

  /** Sorting loses and invents nothing, and with distinct versions the order is strict. */
  lemma {:induction false} SortIsSorted(ms: seq<Migration>)
    ensures multiset(SortByVersion(ms)) == multiset(ms)
    ensures VersionsDistinct(ms) ==> VersionsAscend(SortByVersion(ms))
  {
    if ms != [] {
      assert ms == [ms[0]] + ms[1..];
      SortIsSorted(ms[1..]);
      var rest := SortByVersion(ms[1..]);
      InsertIsPermutation(ms[0], rest);
      if VersionsDistinct(ms) {
        forall i | 0 <= i < |rest| ensures rest[i].version != ms[0].version {
          assert rest[i] in multiset(rest);
          assert rest[i] in ms[1..];
        }
        InsertKeepsAscending(ms[0], rest);
      }
    }
  }

  function Read(f: File): Migration
    requires ParseVersion(f.name).Some?
  {
    Migration(ParseVersion(f.name).value, f.checksum, f.script)
  }

  predicate AllNamed(files: seq<File>) { forall i :: 0 <= i < |files| ==> ParseVersion(files[i].name).Some? }

  function ReadAll(files: seq<File>): (ms: seq<Migration>)
    requires AllNamed(files)
    ensures |ms| == |files| && forall i :: 0 <= i < |files| ==> ms[i] == Read(files[i])
  {
    seq(|files|, i requires 0 <= i < |files| => Read(files[i]))
  }

  /** Every file is named as it must be, and no two carry the same version number. */
  predicate Loadable(files: seq<File>) { AllNamed(files) && VersionsDistinct(ReadAll(files)) }

  function Loaded(files: seq<File>): seq<Migration>
    requires Loadable(files)
  {
    SortByVersion(ReadAll(files))
  }

  /** Loading fails exactly when a file is misnamed or a version is there twice; otherwise the
      migrations come back in strict version order, one per file. */
  method LoadMigrations(files: seq<File>) returns (r: Result<seq<Migration>>)
    ensures r.Ok? <==> Loadable(files)
    ensures r.Err? ==> r.error == MetadataStoreError
    ensures r.Ok? ==>
      r.value == Loaded(files) && VersionsAscend(r.value) && multiset(r.value) == multiset(ReadAll(files))
  {
    var migrations: seq<Migration> := [];
    for n := 0 to |files|
      invariant AllNamed(files[..n])
      invariant migrations == ReadAll(files[..n])
    {
      if ParseVersion(files[n].name).None? { return Err(MetadataStoreError); }
      migrations := migrations + [Read(files[n])];
    }
    assert files[..|files|] == files;
    if DuplicateVersions(migrations) { return Err(MetadataStoreError); }
    SortIsSorted(migrations);
    return Ok(SortByVersion(migrations));
  }

  /** `len(versions) != len(set(versions))` */
  predicate DuplicateVersions(ms: seq<Migration>)
    ensures DuplicateVersions(ms) <==> !VersionsDistinct(ms)
  {
    DistinctMeansFullSize(ms);
    |ms| != |VersionSet(ms)|
  }

  function VersionSet(ms: seq<Migration>): set<nat> { set i | 0 <= i < |ms| :: ms[i].version }

  lemma {:induction false} DistinctMeansFullSize(ms: seq<Migration>)
    ensures |VersionSet(ms)| <= |ms|
    ensures |VersionSet(ms)| == |ms| <==> VersionsDistinct(ms)
  {
    if ms != [] {
      var last, rest := ms[|ms| - 1], ms[..|ms| - 1];
      DistinctMeansFullSize(rest);
      assert VersionSet(ms) == VersionSet(rest) + {last.version};
      if last.version in VersionSet(rest) {
        assert VersionSet(ms) == VersionSet(rest);
        var i :| 0 <= i < |rest| && rest[i].version == last.version;
        assert ms[i].version == ms[|ms| - 1].version;
      }
    }
  }

  // ---------------------------------------------------------------------------
  // The runner
  // ---------------------------------------------------------------------------

  lemma NextMigration(c: Catalog, ms: seq<Migration>, n: nat, applied: map<nat, string>)
    requires n < |ms|
    ensures var (c', r) := Execute(c, PlanOne(ms[n], applied));
      Execute(c, Plan(ms[n..], applied)) == if r.Err? then (c', r) else Execute(c', Plan(ms[n + 1..], applied))
  {
    assert ms[n..][1..] == ms[n + 1..];
    ExecuteConcat(c, PlanOne(ms[n], applied), Plan(ms[n + 1..], applied));
  }

  class Connection {
    var catalog: Catalog

    constructor (catalog: Catalog)
      ensures this.catalog == catalog
    {
      this.catalog := catalog;
    }

    /** `executescript`: each statement commits as it is met. */
    method ExecuteScript(p: seq<Instr>) returns (r: Result<()>)
      modifies this
      ensures (catalog, r) == Execute(old(catalog), p)
      ensures r.Err? ==> r.error == MetadataStoreError
    {
      var k := 0;
      while k < |p|
        invariant 0 <= k <= |p|
        invariant Execute(catalog, p[k..]) == Execute(old(catalog), p)
      {
        var next := Step(catalog, p[k]);
        if next.None? { return Err(MetadataStoreError); }
        assert p[k..][1..] == p[k + 1..];
        catalog := next.value;
        k := k + 1;
      }
      return Ok(());
    }

    /** One migration, given the tracking rows read when the run started. */
    method ApplyOne(m: Migration, applied: map<nat, string>) returns (r: Result<()>)
      modifies this
      ensures (catalog, r) == Execute(old(catalog), PlanOne(m, applied))
      ensures r.Err? ==> r.error == MetadataStoreError
    {
      if m.version in applied {
        return if applied[m.version] != m.checksum then Err(MetadataStoreError) else Ok(());
      }
      ExecuteConcat(catalog, m.script, [RecordVersion(m.version, m.checksum)]);
      var done := ExecuteScript(m.script);
      if done.Err? { return done; }
      if m.version !in catalog.recorded {
        catalog := catalog.(recorded := catalog.recorded[m.version := m.checksum]);
      }
      return Ok(());
    }

    /** One uninterrupted run: the plan made from the tracking rows read at the start, up to the
        first error; the answer is the highest version there is a file for. */
    method ApplyMigrations(files: seq<File>) returns (r: Result<Option<nat>>)
      modifies this
      ensures !Loadable(files) ==> r.Err? && catalog == old(catalog)
      ensures Loadable(files) ==>
        && catalog == Execute(old(catalog), Plan(Loaded(files), old(catalog).recorded)).0
        && (r.Err? <==> Execute(old(catalog), Plan(Loaded(files), old(catalog).recorded)).1.Err?)
      ensures r.Ok? ==> r.value == HighestVersion(Loaded(files))
      ensures r.Err? ==> r.error == MetadataStoreError
    {
      var loaded := LoadMigrations(files);
      if loaded.Err? { return Err(loaded.error); }
      var ms := loaded.value;
      var applied := catalog.recorded;
      ghost var plan := Plan(ms, applied);
      var n := 0;
      while n < |ms|
        invariant 0 <= n <= |ms|
        invariant Execute(catalog, Plan(ms[n..], applied)) == Execute(old(catalog), plan)
      {
        NextMigration(catalog, ms, n, applied);
        var done := ApplyOne(ms[n], applied);
        if done.Err? { return Err(done.error); }
        n := n + 1;
      }
      return Ok(HighestVersion(ms));
    }
  }

  /** The last of the sorted list; no version is higher. */
  function HighestVersion(ms: seq<Migration>): (v: Option<nat>)
    ensures ms == [] <==> v.None?
    ensures VersionsAscend(ms) && ms != [] ==> forall i :: 0 <= i < |ms| ==> ms[i].version <= v.value
  {
    if ms != [] then Some(ms[|ms| - 1].version) else None
  }

  /** It is the version of one of them. */
  lemma HighestIsThere(ms: seq<Migration>)
    requires ms != []
    ensures exists i :: 0 <= i < |ms| && Some(ms[i].version) == HighestVersion(ms)
  {
    assert Some(ms[|ms| - 1].version) == HighestVersion(ms);
  }

  // ---------------------------------------------------------------------------
  // Edited files
  // ---------------------------------------------------------------------------

  predicate Edited(m: Migration, applied: map<nat, string>) {
    m.version in applied && applied[m.version] != m.checksum
  }

  /** A file edited after it was applied stops the run before it, whatever comes after it in
      version order: nothing of it and nothing behind it is executed. */
  lemma EditedMigrationIsRefused(c: Catalog, before: seq<Migration>, m: Migration, after: seq<Migration>)
    requires Edited(m, c.recorded)
    ensures Execute(c, Plan(before + [m] + after, c.recorded)).1.Err?
    ensures Execute(c, Plan(before + [m] + after, c.recorded)).0 == Execute(c, Plan(before, c.recorded)).0
  {
    var rest := [m] + after;
    assert before + [m] + after == before + rest;
    PlanConcat(before, rest, c.recorded);
    ExecuteConcat(c, Plan(before, c.recorded), Plan(rest, c.recorded));
    assert rest[1..] == after;
    assert Plan(rest, c.recorded)[0] == RefuseEdited(m.version);
  }

  predicate UpToDate(ms: seq<Migration>, applied: map<nat, string>) {
    forall i :: 0 <= i < |ms| ==> ms[i].version in applied && applied[ms[i].version] == ms[i].checksum
  }

  /** A run executes nothing exactly when every version is recorded with the checksum of its file. */
  lemma {:induction false} NothingToDo(ms: seq<Migration>, applied: map<nat, string>)
    ensures Plan(ms, applied) == [] <==> UpToDate(ms, applied)
  {
    if ms != [] {
      NothingToDo(ms[1..], applied);
      if Plan(ms, applied) == [] {
        assert PlanOne(ms[0], applied) == [];
        forall i | 0 <= i < |ms| ensures ms[i].version in applied && applied[ms[i].version] == ms[i].checksum {
          if i > 0 { assert ms[i] == ms[1..][i - 1]; }
        }
      }
    }
  }
}
