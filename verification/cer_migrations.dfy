/** The laws of the migration runner, for the four schema files of the store. */
module CerMigrationLaws {
  import opened Wrappers
  import opened Migrations
  import opened MigrationProgress
  import opened MigrationRace
  import opened MigrationCrash
  import opened MigrationWinners
  import opened SchemaScripts

  lemma CerIsWellKept(sums: (string, string, string, string))
    ensures WellKept(CerMigrations(sums))
  {
    CerIsTidy(sums);
    CerIsDisciplined(sums);
  }

  // ---------------------------------------------------------------------------
  // Racing runners
  // ---------------------------------------------------------------------------

  /** Any number of runners, interleaved statement by statement over the four files on an empty
      database: once all have stopped the schema is exactly that of a clean run, at least one
      runner completed, and every other one stopped loudly at an ADD COLUMN. */
  lemma CerRaceEndsClean(sums: (string, string, string, string), n: nat, schedule: seq<nat>)
    requires n > 0 && Turns(schedule, n)
    requires AllStopped(RunRace(CerMigrations(sums), StartOf(n), schedule).runners)
    ensures var s := RunRace(CerMigrations(sums), StartOf(n), schedule);
      && s.catalog == CleanRun(CerMigrations(sums))
      && (exists i :: 0 <= i < |s.runners| && Finished(s.runners[i]))
      && (forall i :: 0 <= i < |s.runners| ==> CompletedOrLoud(s.runners[i]))
  {
    CerIsWellKept(sums);
    TidyScriptsAreDdl(CerMigrations(sums));
    RaceEndsClean(CerMigrations(sums), n, schedule);
  }

  lemma CerEndsByAdding(sums: (string, string, string, string))
    ensures EndsByAdding(CerMigrations(sums))
  {
    assert ARTIFACT_COLUMNS[0] == AddColumn(Artifacts, Producer);
    assert ARTIFACT_IDEMPOTENCY_KEYS[0] == ARTIFACT_COLUMNS[0];
  }

  /** Who completes.  Of the runners that read the tracking table before version 4 was recorded
      exactly one completes; so all runners complete if and only if there was only that one. */
  lemma CerAllCompleteIffOneEarly(sums: (string, string, string, string), n: nat, schedule: seq<nat>)
    requires n > 0 && Turns(schedule, n)
    requires AllStopped(RunRace(CerMigrations(sums), StartOf(n), schedule).runners)
    ensures var runners := RunRace(CerMigrations(sums), StartOf(n), schedule).runners;
      ExactlyOneEarlyFinished(runners) && (AllFinished(runners) <==> AtMostOneEarly(runners))
  {
    CerIsWellKept(sums);
    TidyScriptsAreDdl(CerMigrations(sums));
    CerEndsByAdding(sums);
    OneEarlyRunnerCompletes(CerMigrations(sums), n, schedule);
  }

  /** At every moment of a race, a runner that starts then is an early one iff version 4 is not
      recorded yet. */
  lemma CerEarlyMeansBeforeFour(sums: (string, string, string, string), n: nat, schedule: seq<nat>)
    requires Turns(schedule, n)
    ensures var c := RunRace(CerMigrations(sums), StartOf(n), schedule).catalog;
      Early(Move(CerMigrations(sums), c, Waiting).1) <==> 4 !in c.recorded
  {
    var ms := CerMigrations(sums);
    CerIsWellKept(sums);
    TidyScriptsAreDdl(ms);
    StartIsOk(ms, n);
    var high := RaceKeepsOk(ms, StartOf(n), schedule, 0);
    EarlyMeansUnrecorded(ms, RunRace(ms, StartOf(n), schedule).catalog, high);
  }

  /** A race that somebody loses: two runners read the empty tracking table, one runs to its end, then
      the other.  One of them completes and the other fails. */
  lemma CerTwoRacersFail(sums: (string, string, string, string))
    ensures Turns(BothThenOneThenTheOther(CerMigrations(sums)), 2)
    ensures var runners := RunRace(CerMigrations(sums), StartOf(2),
                                   BothThenOneThenTheOther(CerMigrations(sums))).runners;
      |runners| == 2 && ((Finished(runners[0]) && runners[1].Failed?) || (runners[0].Failed? && Finished(runners[1])))
  {
    CerIsWellKept(sums);
    TidyScriptsAreDdl(CerMigrations(sums));
    CerEndsByAdding(sums);
    TwoRacersCanFail(CerMigrations(sums));
  }

  /** What some script drops is not in the clean schema, and a race that has it has someone to drop it. */
  lemma DroppedIndexGoes(ms: seq<Migration>, m: nat, j: nat, n: nat, schedule: seq<nat>, ix: IndexName)
    requires WellKept(ms) && m < |ms| && j < |ms[m].script| && ms[m].script[j] == DropIndex(ix) && Turns(schedule, n)
    ensures ix !in CleanRun(ms).indexes
    ensures var s := RunRace(ms, StartOf(n), schedule); ix in s.catalog.indexes ==> SomeoneDrops(s.runners, ix)
  {
    TidyScriptsAreDdl(ms);
    CleanRunSucceeds(ms);
    ScriptPosition(ms, m, j);
    assert Happened(Full(ms), |Full(ms)|, DropIndex(ix));
    if ix in RunRace(ms, StartOf(n), schedule).catalog.indexes { LateIndexIsDropped(ms, n, schedule, ix); }
  }

  /** The two globally unique indexes are not in the clean schema; and whenever a late runner of
      the first file has brought one back, some runner is still going to drop it. */
  lemma CerGlobalIndexesGo(sums: (string, string, string, string), n: nat, schedule: seq<nat>, ix: IndexName)
    requires Turns(schedule, n) && (ix == UxRunsKey || ix == UxEvidenceKey)
    ensures ix !in CleanRun(CerMigrations(sums)).indexes
    ensures var s := RunRace(CerMigrations(sums), StartOf(n), schedule); ix in s.catalog.indexes ==>
      SomeoneDrops(s.runners, ix)
  {
    CerIsWellKept(sums);
    var j := if ix == UxEvidenceKey then 0 else 1;
    assert GLOBAL_DROPS[j] == DropIndex(ix);
    assert PRODUCER_SCOPED_IDEMPOTENCY[j] == DropIndex(ix);
    DroppedIndexGoes(CerMigrations(sums), 1, j, n, schedule, ix);
  }

  // ---------------------------------------------------------------------------
  // Crashing runners
  // ---------------------------------------------------------------------------

  /** The first column the third or the fourth file adds is there, and the file is not recorded. */
  predicate FirstColumnUnrecorded(c: Catalog) {
    || (3 !in c.recorded && ColumnIsThere(c, AddColumn(Experiments, IdempotencyKey)))
    || (4 !in c.recorded && ColumnIsThere(c, AddColumn(Artifacts, Producer)))
  }

  lemma CerStuckAtFirstColumn(sums: (string, string, string, string), crashes: seq<nat>)
    ensures var ms := CerMigrations(sums);
      var c := CrashAll(ms, EMPTY_CATALOG, crashes);
      Stuck(ms, c) <==> FirstColumnUnrecorded(c)
  {
    var ms := CerMigrations(sums);
    var c := CrashAll(ms, EMPTY_CATALOG, crashes);
    CerIsWellKept(sums);
    var k := CrashesKeepExactly(ms, EMPTY_CATALOG, 0, crashes);
    assert ms[2].script[0] == AddColumn(Experiments, IdempotencyKey)
      && ms[3].script[0] == AddColumn(Artifacts, Producer);
    if Stuck(ms, c) {
      var m, j :| 0 <= m < |ms| && 0 <= j < |ms[m].script| && ms[m].version !in c.recorded
        && ColumnIsThere(c, ms[m].script[j]);
      CerColumnsAreInTheLastTwo(sums, m, j);
      StuckAtFirstColumn(ms, c, k, m, j);
    }
  }

  lemma CerColumnsAreInTheLastTwo(sums: (string, string, string, string), m: nat, j: nat)
    requires m < 4 && j < |CerMigrations(sums)[m].script| && CerMigrations(sums)[m].script[j].AddColumn?
    ensures m == 2 || m == 3
  {
    InitialOnlyCreates();
    forall x | x in PRODUCER_SCOPED_IDEMPOTENCY ensures !x.AddColumn? {}
  }

  /** For the four schema files: a crash heals unless it fell between the first ADD COLUMN of the
      third or fourth script and the recording of that script; in the first two it always does. */
  lemma CerCrashHealsUnlessColumnsAreUnrecorded(sums: (string, string, string, string), crashes: seq<nat>)
    ensures var ms := CerMigrations(sums);
      var c := CrashAll(ms, EMPTY_CATALOG, crashes);
      if FirstColumnUnrecorded(c) then Rerun(ms, c) == (c, Err(MetadataStoreError))
      else Rerun(ms, c).0 == CleanRun(ms) && Rerun(ms, c).1.Ok?
  {
    var ms := CerMigrations(sums);
    CerIsWellKept(sums);
    RerunHealsExactly(ms, crashes);
    CerStuckAtFirstColumn(sums, crashes);
  }

  lemma CerLengths(sums: (string, string, string, string))
    ensures var ms := CerMigrations(sums);
      |Block(ms[0])| == 28 && |Block(ms[1])| == 5 && |Block(ms[2])| == 10 && |Block(ms[3])| == 5
  {
    assert |UP_TO_RUNS| == 7 && |UP_TO_ARTIFACTS| == 19;
  }

  lemma OffsetsOfFour(ms: seq<Migration>)
    requires |ms| == 4
    ensures Offset(ms, 1) == |Block(ms[0])| && Offset(ms, 2) == Offset(ms, 1) + |Block(ms[1])|
    ensures Offset(ms, 3) == Offset(ms, 2) + |Block(ms[2])| && Offset(ms, 4) == Offset(ms, 3) + |Block(ms[3])|
    ensures |Full(ms)| == Offset(ms, 4)
  {
    assert ms[1..][1..] == ms[2..] && ms[2..][1..] == ms[3..] && ms[1..][2..] == ms[3..];
    assert Offset(ms[1..], 1) == |Block(ms[1])| && Offset(ms[2..], 1) == |Block(ms[2])|
      && Offset(ms[3..], 1) == |Block(ms[3])|;
    assert Offset(ms[1..], 2) == |Block(ms[1])| + Offset(ms[2..], 1);
    assert Offset(ms[2..], 2) == |Block(ms[2])| + Offset(ms[3..], 1);
    assert Offset(ms[1..], 3) == |Block(ms[1])| + Offset(ms[2..], 2);
    FullOfFour(ms[0], ms[1], ms[2], ms[3]);
    assert ms == [ms[0], ms[1], ms[2], ms[3]];
  }

  lemma CerAddsFirstOrNone(sums: (string, string, string, string))
    ensures var ms := CerMigrations(sums);
      AddsNone(ms[0]) && AddsNone(ms[1]) && AddsFirst(ms[2]) && AddsFirst(ms[3])
  {
    InitialOnlyCreates();
    assert OPTIONAL_IDEMPOTENCY_KEYS[0] == OPTIONAL_COLUMNS[0];
    CerEndsByAdding(sums);
  }

  /** Between which statements a crash is fatal, for four scripts of which the last two add columns. */
  lemma CutsByNumber(ms: seq<Migration>, m: nat)
    requires |ms| == 4 && m <= |Full(ms)|
    requires AddsNone(ms[0]) && AddsNone(ms[1]) && AddsFirst(ms[2]) && AddsFirst(ms[3])
    ensures CutsAdditions(ms, m) <==> (Offset(ms, 2) < m < Offset(ms, 3)) || (Offset(ms, 3) < m < Offset(ms, 4))
  {
    var n := Completed(ms, m);
    OffsetsOfFour(ms);
    CompletedIsBehind(ms, m);
    CompletedIsMaximal(ms, m);
  }

  /** The crash point, for the four files: they are 48 statements, of which the first 33 are the first
      two files with their tracking rows.  A first run stopped after any of these heals by itself.  One
      stopped after the first ADD COLUMN of the third file and before its tracking row, the 43rd
      statement, or likewise in the fourth, leaves a database that every later run fails on. */
  lemma CerFirstCrashPoint(sums: (string, string, string, string), m: nat)
    requires m <= 48
    ensures var ms := CerMigrations(sums);
      var c := CrashAfter(ms, EMPTY_CATALOG, m);
      && |Full(ms)| == 48
      && if 33 < m < 43 || 43 < m < 48 then Rerun(ms, c) == (c, Err(MetadataStoreError))
         else Rerun(ms, c).0 == CleanRun(ms) && Rerun(ms, c).1.Ok?
  {
    var ms := CerMigrations(sums);
    CerIsWellKept(sums);
    CerLengths(sums);
    OffsetsOfFour(ms);
    CerAddsFirstOrNone(sums);
    CutsByNumber(ms, m);
    FirstCrashHealsByPosition(ms, m);
  }

  /** Opening the store again after a successful run executes no migration SQL. */
  lemma CerRerunIsEmpty(sums: (string, string, string, string))
    ensures Plan(CerMigrations(sums), CleanRun(CerMigrations(sums)).recorded) == []
  {
    CerIsWellKept(sums);
    RerunAfterSuccessIsEmpty(CerMigrations(sums));
  }

  // ---------------------------------------------------------------------------
  // The schema they leave
  // ---------------------------------------------------------------------------

  /** The columns the third and fourth files add. */
  predicate Added(t: TableName, column: Column) {
    || ((t == Experiments || t == Promotions || t == HealthRecords)
      && (column == IdempotencyKey || column == ContentFingerprint))
    || (t == Artifacts && (column == Producer || column == IdempotencyKey || column == IdempotencyFingerprint))
  }

  lemma AddedIsWhatTheFilesAdd(t: TableName, column: Column)
    ensures Added(t, column) <==> AddColumn(t, column) in OPTIONAL_COLUMNS || AddColumn(t, column) in ARTIFACT_COLUMNS
  {
  }

  lemma HappenedInFull(p: seq<Instr>, x: Instr)
    ensures Happened(p, |p|, x) <==> x in p
  {
    if x in p {
      var j :| 0 <= j < |p| && p[j] == x;
      assert Happened(p, |p|, x);
    }
  }

  lemma CerCreatesIndex(sums: (string, string, string, string), ix: IndexName)
    ensures CreateIndex(ix) in Full(CerMigrations(sums))
  {
    var ms := CerMigrations(sums);
    EveryIndexIsCreated(ix);
    FullOfFour(ms[0], ms[1], ms[2], ms[3]);
    assert forall m, x :: 0 <= m < 4 && x in ms[m].script ==> x in Block(ms[m]);
  }

  lemma CatalogOfSums(c: Catalog, p: seq<Instr>, a: Above)
    requires At(c, p, |p|) && NoLeftovers(c, p, |p|) && Sums(p, a)
    ensures forall t :: t in c.tables
    ensures forall t, column :: t in c.tables ==>
      (column in c.tables[t] <==> column in InitialColumns(t) || (t, column) in a.adds)
    ensures forall ix :: CreateIndex(ix) in p ==> (ix in c.indexes <==> ix !in a.drops)
  {
    forall x ensures Happened(p, |p|, x) <==> x in p { HappenedInFull(p, x); }
  }

  ghost predicate HasTables(c: Catalog) {
    && (forall t :: t in c.tables)
    && (forall t, column :: t in c.tables ==>
        (column in c.tables[t] <==> column in InitialColumns(t) || Added(t, column)))
  }

  ghost predicate HasIndexes(c: Catalog) { forall ix :: ix in c.indexes <==> ix != UxRunsKey && ix != UxEvidenceKey }

  lemma SchemaOfSums(c: Catalog, p: seq<Instr>, a: Above)
    requires At(c, p, |p|) && NoLeftovers(c, p, |p|) && Sums(p, a) && a.drops == {UxEvidenceKey, UxRunsKey}
    requires forall t, column :: (t, column) in a.adds <==> Added(t, column)
    requires forall ix :: CreateIndex(ix) in p
    ensures HasTables(c) && HasIndexes(c)
  {
    CatalogOfSums(c, p, a);
  }

  /** The clean schema: all eight tables, the nine added columns and no other, and every index but
      the two global ones; and the four versions recorded with their checksums. */
  lemma CerCleanSchema(sums: (string, string, string, string))
    ensures HasTables(CleanRun(CerMigrations(sums))) && HasIndexes(CleanRun(CerMigrations(sums)))
    ensures UpToDate(CerMigrations(sums), CleanRun(CerMigrations(sums)).recorded)
  {
    var ms := CerMigrations(sums);
    CerIsWellKept(sums);
    var a := CerSums(sums);
    CleanRunSucceeds(ms);
    forall t, column ensures Added(t, column) <==> (t, column) in a.adds { AddedIsWhatTheFilesAdd(t, column); }
    forall ix ensures CreateIndex(ix) in Full(ms) { CerCreatesIndex(sums, ix); }
    SchemaOfSums(CleanRun(ms), Full(ms), a);
    RerunAfterSuccessIsEmpty(ms);
    NothingToDo(ms, CleanRun(ms).recorded);
  }
}
