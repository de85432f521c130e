/** One migration runner at a time, stopped anywhere, any number of times, and run again: which
    crashes heal by themselves, and which make every later run fail without touching the schema. */
module MigrationCrash {
  import opened Wrappers
  import opened Migrations
  import opened MigrationProgress
  import opened SchemaScripts

  /** Exactly `k` statements have happened: nothing is left behind. */
  ghost predicate Exactly(c: Catalog, p: seq<Instr>, k: nat)
    requires k <= |p|
  {
    At(c, p, k) && NoLeftovers(c, p, k)
  }

  predicate WellKept(ms: seq<Migration>) { Tidy(ms) && VersionsAscend(ms) && Disciplined(Full(ms)) }

  lemma TidyScriptsAreDdl(ms: seq<Migration>)
    requires Tidy(ms)
    ensures ScriptsAreDdl(ms)
  {
    forall m, k | 0 <= m < |ms| && 0 <= k < |ms[m].script|
      ensures IsDdl(ms[m].script[k])
    {
      assert ScriptOk(ms[m].script);
    }
  }

  function Start(ms: seq<Migration>, k: nat): nat { Offset(ms, Completed(ms, k)) }

  /** A run that is stopped after at most `m` statements. */
  function CrashAfter(ms: seq<Migration>, c: Catalog, m: nat): Catalog {
    var plan := Plan(ms, c.recorded);
    Execute(c, if m <= |plan| then plan[..m] else plan).0
  }

  function CrashAll(ms: seq<Migration>, c: Catalog, crashes: seq<nat>): Catalog
    decreases |crashes|
  {
    if crashes == [] then c else CrashAll(ms, CrashAfter(ms, c, crashes[0]), crashes[1..])
  }

  /** A full run. */
  function Rerun(ms: seq<Migration>, c: Catalog): (Catalog, Result<()>) { Execute(c, Plan(ms, c.recorded)) }

  /** Some version is not recorded although a column it adds is there. */
  ghost predicate Stuck(ms: seq<Migration>, c: Catalog) {
    exists m, j :: 0 <= m < |ms| && 0 <= j < |ms[m].script| && ms[m].version !in c.recorded
      && ColumnIsThere(c, ms[m].script[j])
  }

  predicate ColumnIsThere(c: Catalog, x: Instr) { x.AddColumn? && x.table in c.tables && x.column in c.tables[x.table] }

  // ---------------------------------------------------------------------------
  // Where statements are
  // ---------------------------------------------------------------------------

  /** The statements between a run's start and how far it once got belong to one script. */
  lemma {:induction false} PendingIsOneScript(ms: seq<Migration>, k: nat, j: nat)
    requires Start(ms, k) <= j < k <= |Full(ms)|
    ensures Completed(ms, k) < |ms| && j - Start(ms, k) < |ms[Completed(ms, k)].script|
    ensures Full(ms)[j] == ms[Completed(ms, k)].script[j - Start(ms, k)]
  {
    if ms != [] {
      var block := Block(ms[0]);
      assert Full(ms) == block + Full(ms[1..]);
      if k >= |block| { PendingIsOneScript(ms[1..], k - |block|, j - |block|); }
    }
  }

  /** A script's statements lie in its own block. */
  lemma {:induction false} ScriptPosition(ms: seq<Migration>, m: nat, j: nat)
    requires m < |ms| && j < |ms[m].script|
    ensures Offset(ms, m) + j < |Full(ms)| && Full(ms)[Offset(ms, m) + j] == ms[m].script[j]
  {
    FullFrom(ms, m);
    assert Full(ms[m..]) == Block(ms[m]) + Full(ms[m..][1..]);
    assert Full(ms)[Offset(ms, m)..][j] == ms[m].script[j];
  }

  // ---------------------------------------------------------------------------
  // Running again
  // ---------------------------------------------------------------------------

  /** Executing again what the current script has executed already changes nothing. */
  lemma RedoIsNoOp(ms: seq<Migration>, c: Catalog, k: nat, j: nat)
    requires WellKept(ms) && k <= |Full(ms)| && Exactly(c, Full(ms), k) && Start(ms, k) <= j < k
    ensures if Full(ms)[j].AddColumn? then Step(c, Full(ms)[j]).None? else Step(c, Full(ms)[j]) == Some(c)
  {
    var p := Full(ms);
    OnlyRepeatedAddColumnFails(c, p, k, j);
    if !p[j].AddColumn? {
      RepeatIsHarmless(c, p, k, j);
      assert Happened(p, k, p[j]);
      if p[j].CreateIndex? { CreatedIndexIsStillThere(ms, k, j); }
      assert Step(c, p[j]).value.indexes == c.indexes;
    }
  }

  lemma CreatedIndexIsStillThere(ms: seq<Migration>, k: nat, j: nat)
    requires WellKept(ms) && k <= |Full(ms)| && Start(ms, k) <= j < k && Full(ms)[j].CreateIndex?
    ensures !Happened(Full(ms), k, DropIndex(Full(ms)[j].index))
  {
    var p := Full(ms);
    PendingIsOneScript(ms, k, j);
    assert ScriptOk(ms[Completed(ms, k)].script);
    assert StatementOk(p, j);
    forall i | 0 <= i < k ensures p[i] != DropIndex(p[j].index) {
      if i >= j {
        PendingIsOneScript(ms, k, i);
      } else {
        assert p[i] == DropIndex(p[j].index) ==> Happened(p, j, DropIndex(p[j].index));
      }
    }
  }

  predicate AddsColumn(p: seq<Instr>, from: nat, upTo: nat)
    requires from <= upTo <= |p|
  {
    exists i :: from <= i < upTo && p[i].AddColumn?
  }

  /** Up to where the last run got: nothing changes, and an ADD COLUMN on the way stops the run. */
  lemma {:induction false} RedoTo(ms: seq<Migration>, c: Catalog, k: nat, j: nat, upTo: nat)
    requires WellKept(ms) && k <= |Full(ms)| && Exactly(c, Full(ms), k) && Start(ms, k) <= j <= upTo <= k
    ensures Execute(c, Full(ms)[j..upTo]).0 == c
    ensures Execute(c, Full(ms)[j..upTo]).1.Err? <==> AddsColumn(Full(ms), j, upTo)
    decreases upTo - j
  {
    var p := Full(ms);
    if j < upTo {
      RedoIsNoOp(ms, c, k, j);
      assert p[j..upTo][1..] == p[j + 1..upTo];
      if !p[j].AddColumn? { RedoTo(ms, c, k, j + 1, upTo); }
    } else {
      assert p[j..upTo] == [];
    }
  }

  /** Past it: new statements, none of which fails. */
  lemma {:induction false} AdvanceTo(p: seq<Instr>, c: Catalog, k: nat, upTo: nat)
    requires Disciplined(p) && k <= upTo <= |p| && Exactly(c, p, k)
    ensures Execute(c, p[k..upTo]).1.Ok? && Exactly(Execute(c, p[k..upTo]).0, p, upTo)
    decreases upTo - k
  {
    if k < upTo {
      OnlyRepeatedAddColumnFails(c, p, k, k);
      StatementKeepsAt(c, p, k, k);
      assert StatementOk(p, k);
      var next := Step(c, p[k]).value;
      forall ix | ix in next.indexes ensures !Happened(p, k + 1, DropIndex(ix)) { HappenedNext(p, k, DropIndex(ix)); }
      assert p[k..upTo][1..] == p[k + 1..upTo];
      AdvanceTo(p, next, k + 1, upTo);
    } else {
      assert p[k..upTo] == [];
    }
  }

  /** A run from `k` that is let go as far as `to`. */
  lemma RunTo(ms: seq<Migration>, c: Catalog, k: nat, upTo: nat)
    requires WellKept(ms) && k <= |Full(ms)| && Exactly(c, Full(ms), k) && Start(ms, k) <= upTo <= |Full(ms)|
      && Start(ms, k) <= k
    ensures var (c', r) := Execute(c, Full(ms)[Start(ms, k)..upTo]);
      if AddsColumn(Full(ms), Start(ms, k), if upTo < k then upTo else k) then r.Err? && c' == c
      else r.Ok? && Exactly(c', Full(ms), Max(k, upTo))
  {
    var p, j := Full(ms), Start(ms, k);
    if upTo <= k {
      RedoTo(ms, c, k, j, upTo);
    } else {
      RedoTo(ms, c, k, j, k);
      AdvanceTo(p, c, k, upTo);
      assert p[j..upTo] == p[j..k] + p[k..upTo];
      ExecuteConcat(c, p[j..k], p[k..upTo]);
    }
  }

  lemma CrashKeepsExactly(ms: seq<Migration>, c: Catalog, k: nat, m: nat) returns (k': nat)
    requires WellKept(ms) && k <= |Full(ms)| && Exactly(c, Full(ms), k)
    ensures k' <= |Full(ms)| && Exactly(CrashAfter(ms, c, m), Full(ms), k')
  {
    var p := Full(ms);
    TidyScriptsAreDdl(ms);
    PlanStartsAtBoundary(ms, c, k);
    var upTo := if Start(ms, k) + m <= |p| then Start(ms, k) + m else |p|;
    RunTo(ms, c, k, upTo);
    assert p[Start(ms, k)..upTo] == if m <= |p[Start(ms, k)..]| then p[Start(ms, k)..][..m] else p[Start(ms, k)..];
    k' := if CrashAfter(ms, c, m) == c then k else Max(k, upTo);
  }

  lemma {:induction false} CrashesKeepExactly(ms: seq<Migration>, c: Catalog, k: nat, crashes: seq<nat>)
    returns (k': nat)
    requires WellKept(ms) && k <= |Full(ms)| && Exactly(c, Full(ms), k)
    ensures k' <= |Full(ms)| && Exactly(CrashAll(ms, c, crashes), Full(ms), k')
    decreases |crashes|
  {
    k' := k;
    if crashes != [] {
      var k1 := CrashKeepsExactly(ms, c, k, crashes[0]);
      k' := CrashesKeepExactly(ms, CrashAfter(ms, c, crashes[0]), k1, crashes[1..]);
    }
  }

  /** A version that is recorded after any crashes was executed in full, whatever was interrupted and
      run again. */
  lemma RecordedSurvivesCrashes(ms: seq<Migration>, crashes: seq<nat>, m: nat, k: nat)
    requires WellKept(ms) && m < |ms| && ms[m].version in CrashAll(ms, EMPTY_CATALOG, crashes).recorded
    requires k < Offset(ms, m + 1) && k < |Full(ms)|
    ensures InForce(CrashAll(ms, EMPTY_CATALOG, crashes), Full(ms), Full(ms)[k])
  {
    var p, c := Full(ms), CrashAll(ms, EMPTY_CATALOG, crashes);
    TidyScriptsAreDdl(ms);
    var high := CrashesKeepExactly(ms, EMPTY_CATALOG, 0, crashes);
    RecordedHappened(c, p, high, ms[m].version);
    RecordPosition(ms, high, m);
    OffsetsAscend(ms, m + 1, Completed(ms, high));
    CompletedIsBehind(ms, high);
    ExecutedIsInForce(c, p, high, k);
  }

  // ---------------------------------------------------------------------------
  // Which crashes heal
  // ---------------------------------------------------------------------------

  /** What can be seen in the catalog tells whether an ADD COLUMN has to be repeated. */
  lemma StuckMeansRepeating(ms: seq<Migration>, c: Catalog, k: nat)
    requires WellKept(ms) && k <= |Full(ms)| && Exactly(c, Full(ms), k) && Start(ms, k) <= k
    ensures Stuck(ms, c) <==> AddsColumn(Full(ms), Start(ms, k), k)
  {
    var p, n := Full(ms), Completed(ms, k);
    if AddsColumn(p, Start(ms, k), k) {
      var i :| Start(ms, k) <= i < k && p[i].AddColumn?;
      PendingIsOneScript(ms, k, i);
      PendingIsNotRecorded(ms, c, k, n);
      assert StatementOk(p, i);
      assert Happened(p, k, p[i]);
      ColumnsNeedTheirTable(p, k, p[i].table, p[i].column);
      assert ColumnIsThere(c, ms[n].script[i - Start(ms, k)]);
    }
    if Stuck(ms, c) {
      var m, j :| 0 <= m < |ms| && 0 <= j < |ms[m].script| && ms[m].version !in c.recorded
        && ColumnIsThere(c, ms[m].script[j]);
      RepeatedColumnHappened(ms, c, k, m, j);
    }
  }

  lemma PendingIsNotRecorded(ms: seq<Migration>, c: Catalog, k: nat, m: nat)
    requires WellKept(ms) && k <= |Full(ms)| && At(c, Full(ms), k) && m < |ms|
    ensures ms[m].version in c.recorded <==> m < Completed(ms, k)
  {
    forall v | v in c.recorded ensures exists checksum :: Happened(Full(ms), k, RecordVersion(v, checksum)) {
      RecordedHappened(c, Full(ms), k, v);
    }
    TidyScriptsAreDdl(ms);
    RecordPosition(ms, k, m);
  }

  lemma RepeatedColumnHappened(ms: seq<Migration>, c: Catalog, k: nat, m: nat, j: nat)
    requires WellKept(ms) && k <= |Full(ms)| && Exactly(c, Full(ms), k) && Start(ms, k) <= k
    requires m < |ms| && j < |ms[m].script| && ms[m].version !in c.recorded && ColumnIsThere(c, ms[m].script[j])
    ensures AddsColumn(Full(ms), Start(ms, k), k)
  {
    var p, x := Full(ms), ms[m].script[j];
    ScriptPosition(ms, m, j);
    PendingIsNotRecorded(ms, c, k, m);
    OffsetsAscend(ms, Completed(ms, k), m);
    var at := Offset(ms, m) + j;
    assert StatementOk(p, at);
    assert Happened(p, k, AddColumn(x.table, x.column));
    forall i | 0 <= i < at ensures p[i] != x {}
    var i :| 0 <= i < k && p[i] == x;
    assert p[i].AddColumn?;
  }

  /** After any number of crashes, anywhere, a full run heals the database exactly when no column
      has been added by a version that is not recorded: then it ends in the clean schema.  Otherwise
      it fails loudly and leaves the database as it found it, so every later run fails the same way. */
  lemma RerunHealsExactly(ms: seq<Migration>, crashes: seq<nat>)
    requires WellKept(ms)
    ensures var c := CrashAll(ms, EMPTY_CATALOG, crashes);
      if Stuck(ms, c) then Rerun(ms, c) == (c, Err(MetadataStoreError))
      else Rerun(ms, c).0 == CleanRun(ms) && Rerun(ms, c).1.Ok?
  {
    var p := Full(ms);
    var k := CrashesKeepExactly(ms, EMPTY_CATALOG, 0, crashes);
    var c := CrashAll(ms, EMPTY_CATALOG, crashes);
    TidyScriptsAreDdl(ms);
    PlanStartsAtBoundary(ms, c, k);
    StuckMeansRepeating(ms, c, k);
    RunTo(ms, c, k, |p|);
    assert p[Start(ms, k)..|p|] == p[Start(ms, k)..];
    CleanRunSucceeds(ms);
    if !Stuck(ms, c) { CatalogIsDetermined(Rerun(ms, c).0, CleanRun(ms), p, |p|); }
    ErrorsAreLoud(c, Plan(ms, c.recorded));
  }

  lemma {:induction false} ErrorsAreLoud(c: Catalog, p: seq<Instr>)
    ensures Execute(c, p).1.Err? ==> Execute(c, p).1 == Err(MetadataStoreError)
    decreases |p|
  {
    if p != [] && Step(c, p[0]).Some? { ErrorsAreLoud(Step(c, p[0]).value, p[1..]); }
  }

  /** A run after a successful run executes nothing. */
  lemma RerunAfterSuccessIsEmpty(ms: seq<Migration>)
    requires WellKept(ms)
    ensures Plan(ms, CleanRun(ms).recorded) == []
  {
    var p := Full(ms);
    CleanRunSucceeds(ms);
    TidyScriptsAreDdl(ms);
    forall i | 0 <= i < |ms|
      ensures ms[i].version in CleanRun(ms).recorded && CleanRun(ms).recorded[ms[i].version] == ms[i].checksum
    {
      AllCompleted(ms);
      RecordPosition(ms, |p|, i);
    }
    NothingToDo(ms, CleanRun(ms).recorded);
  }

  lemma {:induction false} AllCompleted(ms: seq<Migration>)
    ensures Completed(ms, |Full(ms)|) == |ms|
  {
    if ms != [] {
      assert Full(ms) == Block(ms[0]) + Full(ms[1..]);
      AllCompleted(ms[1..]);
    }
  }

  /** Columns are added in order, so the first of a script is there whenever another one is. */
  lemma EarlierColumnIsThere(p: seq<Instr>, c: Catalog, k: nat, i: nat, j: nat)
    requires Disciplined(p) && k <= |p| && At(c, p, k) && i <= j < |p| && p[i].AddColumn? && p[j].AddColumn?
      && ColumnIsThere(c, p[j])
    ensures ColumnIsThere(c, p[i])
  {
    assert StatementOk(p, j);
    assert Happened(p, k, p[j]);
    var at :| 0 <= at < k && p[at] == p[j];
    forall x | 0 <= x < j ensures p[x] != p[j] { assert p[x] == p[j] ==> Happened(p, j, p[j]); }
    assert Happened(p, k, p[i]);
    ColumnsNeedTheirTable(p, k, p[i].table, p[i].column);
  }

  lemma StuckAtFirstColumn(ms: seq<Migration>, c: Catalog, k: nat, m: nat, j: nat)
    requires WellKept(ms) && k <= |Full(ms)| && At(c, Full(ms), k) && m < |ms| && j < |ms[m].script|
    requires ms[m].script[0].AddColumn? && ms[m].script[j].AddColumn? && ColumnIsThere(c, ms[m].script[j])
    ensures ColumnIsThere(c, ms[m].script[0])
  {
    ScriptPosition(ms, m, 0);
    ScriptPosition(ms, m, j);
    EarlierColumnIsThere(Full(ms), c, k, Offset(ms, m), Offset(ms, m) + j);
  }

  // ---------------------------------------------------------------------------
  // Where a first crash falls
  // ---------------------------------------------------------------------------

  /** A first run that is stopped after `m` statements has executed exactly those. */
  lemma FirstCrash(ms: seq<Migration>, m: nat)
    requires WellKept(ms) && m <= |Full(ms)|
    ensures Exactly(CrashAfter(ms, EMPTY_CATALOG, m), Full(ms), m) && Start(ms, m) <= m
  {
    assert Full(ms)[0..m] == Full(ms)[..m];
    AdvanceTo(Full(ms), EMPTY_CATALOG, 0, m);
    CompletedIsBehind(ms, m);
  }

  lemma {:induction false} CompletedIsMaximal(ms: seq<Migration>, k: nat)
    ensures Completed(ms, k) < |ms| ==> k < Offset(ms, Completed(ms, k) + 1)
  {
    if ms != [] && k >= |Block(ms[0])| { CompletedIsMaximal(ms[1..], k - |Block(ms[0])|); }
  }

  /** A script that adds columns adds one with its first statement. */
  predicate AddsFirst(m: Migration) { m.script != [] && m.script[0].AddColumn? }

  predicate AddsNone(m: Migration) { forall k :: 0 <= k < |m.script| ==> !m.script[k].AddColumn? }

  /** The crash falls inside a script that adds columns, after its first statement and before the
      tracking row. */
  predicate CutsAdditions(ms: seq<Migration>, m: nat) {
    var n := Completed(ms, m);
    n < |ms| && AddsFirst(ms[n]) && Offset(ms, n) < m
  }

  lemma StuckByPosition(ms: seq<Migration>, m: nat)
    requires WellKept(ms) && m <= |Full(ms)| && forall i :: 0 <= i < |ms| ==> AddsFirst(ms[i]) || AddsNone(ms[i])
    ensures Stuck(ms, CrashAfter(ms, EMPTY_CATALOG, m)) <==> CutsAdditions(ms, m)
  {
    var p, n := Full(ms), Completed(ms, m);
    FirstCrash(ms, m);
    StuckMeansRepeating(ms, CrashAfter(ms, EMPTY_CATALOG, m), m);
    forall j | Start(ms, m) <= j < m
      ensures n < |ms| && j - Start(ms, m) < |ms[n].script| && p[j] == ms[n].script[j - Start(ms, m)]
    {
      PendingIsOneScript(ms, m, j);
    }
    if CutsAdditions(ms, m) { assert p[Start(ms, m)].AddColumn?; }
  }

  /** A first crash after `m` statements heals exactly when it does not cut a script that adds columns
      between its first statement and its tracking row. */
  lemma FirstCrashHealsByPosition(ms: seq<Migration>, m: nat)
    requires WellKept(ms) && m <= |Full(ms)| && forall i :: 0 <= i < |ms| ==> AddsFirst(ms[i]) || AddsNone(ms[i])
    ensures var c := CrashAfter(ms, EMPTY_CATALOG, m);
      if CutsAdditions(ms, m) then Rerun(ms, c) == (c, Err(MetadataStoreError))
      else Rerun(ms, c).0 == CleanRun(ms) && Rerun(ms, c).1.Ok?
  {
    StuckByPosition(ms, m);
    RerunHealsExactly(ms, [m]);
    assert [m][1..] == [];
  }
}
