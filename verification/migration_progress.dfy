/** How far a set of migrations has got.  A database that has seen a prefix of the statements is
    described by what happened in that prefix, and re-executing a statement of it is either
    harmless or a loud failure. */
module MigrationProgress {
  import opened Migrations

  predicate Happened(p: seq<Instr>, k: nat, x: Instr)
    requires k <= |p|
  {
    exists j :: 0 <= j < k && p[j] == x
  }

  /** What has to be written above a statement. */
  predicate StatementOk(p: seq<Instr>, k: nat)
    requires k < |p|
  {
    match p[k]
    case CreateTable(_) => true
    case CreateIndex(ix) =>
      var d := DefinitionOf(ix);
      && Happened(p, k, CreateTable(d.table)) && !Happened(p, k, DropIndex(ix))
      && forall column :: column in d.columns ==>
           column in InitialColumns(d.table) || Happened(p, k, AddColumn(d.table, column))
    case DropIndex(_) => forall j :: 0 <= j < k ==> !p[j].AddColumn?
    case AddColumn(t, column) =>
      Happened(p, k, CreateTable(t)) && column !in InitialColumns(t) && !Happened(p, k, AddColumn(t, column))
    case RecordVersion(v, _) => forall j :: 0 <= j < k && p[j].RecordVersion? ==> p[j].version != v
    case RefuseEdited(_) => false
  }

  /** The discipline of the schema files: an index comes after its table and columns; an index
      that is dropped is not created again, and all drops precede the first ADD COLUMN; no column
      is added twice; no version recorded twice. */
  predicate Disciplined(p: seq<Instr>) { forall k :: 0 <= k < |p| ==> StatementOk(p, k) }

  // ---------------------------------------------------------------------------
  // The catalog after a prefix
  // ---------------------------------------------------------------------------

  ghost predicate TablesAt(c: Catalog, p: seq<Instr>, k: nat)
    requires k <= |p|
  {
    && (forall t :: t in c.tables <==> Happened(p, k, CreateTable(t)))
    && (forall t, column :: t in c.tables ==>
          (column in c.tables[t] <==> column in InitialColumns(t) || Happened(p, k, AddColumn(t, column))))
  }

  ghost predicate RecordedAt(c: Catalog, p: seq<Instr>, k: nat)
    requires k <= |p|
  {
    forall v, checksum :: (v in c.recorded && c.recorded[v] == checksum) <==> Happened(p, k, RecordVersion(v, checksum))
  }

  /** An index that was created and never dropped is there; one that was dropped may have been
      re-created by a runner that is behind. */
  ghost predicate IndexesAt(c: Catalog, p: seq<Instr>, k: nat)
    requires k <= |p|
  {
    forall ix ::
      && (ix in c.indexes ==> Happened(p, k, CreateIndex(ix)))
      && (Happened(p, k, CreateIndex(ix)) && !Happened(p, k, DropIndex(ix)) ==> ix in c.indexes)
  }

  ghost predicate At(c: Catalog, p: seq<Instr>, k: nat)
    requires k <= |p|
  {
    TablesAt(c, p, k) && RecordedAt(c, p, k) && IndexesAt(c, p, k)
  }

  /** No dropped index is there. */
  ghost predicate NoLeftovers(c: Catalog, p: seq<Instr>, k: nat)
    requires k <= |p|
  {
    forall ix :: ix in c.indexes ==> !Happened(p, k, DropIndex(ix))
  }

  lemma HappenedNext(p: seq<Instr>, k: nat, x: Instr)
    requires k < |p|
    ensures Happened(p, k + 1, x) <==> Happened(p, k, x) || p[k] == x
  {
    if p[k] == x { assert 0 <= k < k + 1 && p[k] == x; }
  }

  function Max(a: nat, b: nat): nat { if a < b then b else a }

  /** A statement fails only when it is an ADD COLUMN that has been executed before, and then it
      always does. */
  lemma OnlyRepeatedAddColumnFails(c: Catalog, p: seq<Instr>, k: nat, pc: nat)
    requires Disciplined(p) && k <= |p| && At(c, p, k) && pc <= k && pc < |p|
    ensures Step(c, p[pc]).None? <==> pc < k && p[pc].AddColumn?
  {
    assert StatementOk(p, pc);
  }

  lemma RepeatIsHarmless(c: Catalog, p: seq<Instr>, k: nat, pc: nat)
    requires Disciplined(p) && k <= |p| && At(c, p, k) && pc < k && !p[pc].AddColumn?
    ensures Step(c, p[pc]).Some? && At(Step(c, p[pc]).value, p, k)
    ensures forall ix :: ix in Step(c, p[pc]).value.indexes ==> ix in c.indexes || p[pc] == CreateIndex(ix)
    ensures p[pc].DropIndex? ==> p[pc].index !in Step(c, p[pc]).value.indexes
    ensures !p[pc].CreateIndex? && !p[pc].DropIndex? ==> Step(c, p[pc]).value == c
  {
    assert StatementOk(p, pc);
  }

  /** No column is added to a table that does not exist yet. */
  lemma ColumnsNeedTheirTable(p: seq<Instr>, k: nat, t: TableName, column: Column)
    requires Disciplined(p) && k <= |p| && Happened(p, k, AddColumn(t, column))
    ensures Happened(p, k, CreateTable(t))
  {
    var j :| 0 <= j < k && p[j] == AddColumn(t, column);
    assert StatementOk(p, j);
  }

  /** What an executed statement leaves in the catalog, and what no later statement takes away. */
  predicate InForce(c: Catalog, p: seq<Instr>, x: Instr) {
    && (x.CreateTable? ==> x.table in c.tables && InitialColumns(x.table) <= c.tables[x.table])
    && (x.AddColumn? ==> x.table in c.tables && x.column in c.tables[x.table])
    && (x.CreateIndex? && DropIndex(x.index) !in p ==> x.index in c.indexes)
    && (x.RecordVersion? ==> x.version in c.recorded && c.recorded[x.version] == x.checksum)
  }

  lemma ExecutedIsInForce(c: Catalog, p: seq<Instr>, high: nat, k: nat)
    requires Disciplined(p) && k < high <= |p| && At(c, p, high)
    ensures InForce(c, p, p[k])
  {
    assert Happened(p, high, p[k]);
    if p[k].AddColumn? { ColumnsNeedTheirTable(p, high, p[k].table, p[k].column); }
  }

  lemma RecordedHappened(c: Catalog, p: seq<Instr>, k: nat, v: nat)
    requires k <= |p| && RecordedAt(c, p, k) && v in c.recorded
    ensures exists checksum :: Happened(p, k, RecordVersion(v, checksum))
  {
    assert Happened(p, k, RecordVersion(v, c.recorded[v]));
  }

  lemma AdvanceTables(c: Catalog, p: seq<Instr>, k: nat)
    requires Disciplined(p) && k < |p| && At(c, p, k)
    ensures Step(c, p[k]).Some? && TablesAt(Step(c, p[k]).value, p, k + 1)
  {
    assert StatementOk(p, k);
    forall x ensures Happened(p, k + 1, x) <==> Happened(p, k, x) || p[k] == x { HappenedNext(p, k, x); }
    forall t, column | Happened(p, k, AddColumn(t, column)) ensures Happened(p, k, CreateTable(t)) {
      ColumnsNeedTheirTable(p, k, t, column);
    }
  }

  lemma AdvanceRecorded(c: Catalog, p: seq<Instr>, k: nat)
    requires Disciplined(p) && k < |p| && At(c, p, k) && Step(c, p[k]).Some?
    ensures RecordedAt(Step(c, p[k]).value, p, k + 1)
  {
    assert StatementOk(p, k);
    forall x ensures Happened(p, k + 1, x) <==> Happened(p, k, x) || p[k] == x { HappenedNext(p, k, x); }
    forall v | v in c.recorded ensures exists checksum :: Happened(p, k, RecordVersion(v, checksum)) {
      RecordedHappened(c, p, k, v);
    }
  }

  lemma AdvanceIndexes(c: Catalog, p: seq<Instr>, k: nat)
    requires Disciplined(p) && k < |p| && At(c, p, k) && Step(c, p[k]).Some?
    ensures IndexesAt(Step(c, p[k]).value, p, k + 1)
    ensures forall ix :: ix in Step(c, p[k]).value.indexes ==> ix in c.indexes || p[k] == CreateIndex(ix)
    ensures p[k].DropIndex? ==> p[k].index !in Step(c, p[k]).value.indexes
  {
    assert StatementOk(p, k);
    forall x ensures Happened(p, k + 1, x) <==> Happened(p, k, x) || p[k] == x { HappenedNext(p, k, x); }
  }

  /** Executing the statement at `pc`, first time or not, without an error. */
  lemma StatementKeepsAt(c: Catalog, p: seq<Instr>, k: nat, pc: nat)
    requires Disciplined(p) && k <= |p| && At(c, p, k) && pc <= k && pc < |p| && Step(c, p[pc]).Some?
    ensures At(Step(c, p[pc]).value, p, Max(k, pc + 1))
    ensures forall ix :: ix in Step(c, p[pc]).value.indexes ==> ix in c.indexes || p[pc] == CreateIndex(ix)
    ensures p[pc].DropIndex? ==> p[pc].index !in Step(c, p[pc]).value.indexes
  {
    OnlyRepeatedAddColumnFails(c, p, k, pc);
    if pc < k {
      RepeatIsHarmless(c, p, k, pc);
    } else {
      AdvanceTables(c, p, k);
      AdvanceRecorded(c, p, k);
      AdvanceIndexes(c, p, k);
    }
  }

  // ---------------------------------------------------------------------------
  // The clean run
  // ---------------------------------------------------------------------------

  /** One runner, alone, on an empty database. */
  function CleanRun(ms: seq<Migration>): Catalog { Execute(EMPTY_CATALOG, Full(ms)).0 }

  lemma {:induction false} CleanFrom(c: Catalog, p: seq<Instr>, k: nat)
    requires Disciplined(p) && k <= |p| && At(c, p, k) && NoLeftovers(c, p, k)
    ensures Execute(c, p[k..]).1.Ok? && At(Execute(c, p[k..]).0, p, |p|) && NoLeftovers(Execute(c, p[k..]).0, p, |p|)
    decreases |p| - k
  {
    if k < |p| {
      OnlyRepeatedAddColumnFails(c, p, k, k);
      StatementKeepsAt(c, p, k, k);
      assert StatementOk(p, k);
      var next := Step(c, p[k]).value;
      forall ix | ix in next.indexes ensures !Happened(p, k + 1, DropIndex(ix)) { HappenedNext(p, k, DropIndex(ix)); }
      assert p[k..][1..] == p[k + 1..];
      CleanFrom(next, p, k + 1);
    } else {
      assert p[k..] == [];
    }
  }

  lemma CleanRunSucceeds(ms: seq<Migration>)
    requires Disciplined(Full(ms))
    ensures Execute(EMPTY_CATALOG, Full(ms)).1.Ok?
    ensures At(CleanRun(ms), Full(ms), |Full(ms)|) && NoLeftovers(CleanRun(ms), Full(ms), |Full(ms)|)
  {
    assert Full(ms)[0..] == Full(ms);
    CleanFrom(EMPTY_CATALOG, Full(ms), 0);
  }

  /** What happened determines the catalog. */
  lemma CatalogIsDetermined(a: Catalog, b: Catalog, p: seq<Instr>, k: nat)
    requires k <= |p| && At(a, p, k) && At(b, p, k) && NoLeftovers(a, p, k) && NoLeftovers(b, p, k)
    ensures a == b
  {
    forall t | t in a.tables ensures t in b.tables && a.tables[t] == b.tables[t] {
      assert forall column :: column in a.tables[t] <==> column in b.tables[t];
    }
    forall v | v in a.recorded ensures v in b.recorded && a.recorded[v] == b.recorded[v] {
      assert Happened(p, k, RecordVersion(v, a.recorded[v]));
    }
    forall v | v in b.recorded ensures v in a.recorded {
      assert Happened(p, k, RecordVersion(v, b.recorded[v]));
    }
    assert a.recorded == b.recorded;
    assert a.tables == b.tables;
    assert a.indexes == b.indexes;
  }

  // ---------------------------------------------------------------------------
  // Where a run starts
  // ---------------------------------------------------------------------------

  /** How many whole migrations lie in the first `k` statements. */
  function Completed(ms: seq<Migration>, k: nat): (n: nat)
    ensures n <= |ms|
  {
    if ms == [] || k < |Block(ms[0])| then 0 else 1 + Completed(ms[1..], k - |Block(ms[0])|)
  }

  /** Where the migrations from the `n`th on begin. */
  function Offset(ms: seq<Migration>, n: nat): nat
    requires n <= |ms|
  {
    if n == 0 then 0 else |Block(ms[0])| + Offset(ms[1..], n - 1)
  }

  lemma {:induction false} OffsetsAscend(ms: seq<Migration>, a: nat, b: nat)
    requires a <= b <= |ms|
    ensures Offset(ms, a) <= Offset(ms, b)
  {
    if a > 0 { OffsetsAscend(ms[1..], a - 1, b - 1); }
  }

  /** The plan against an empty tracking table is everything. */
  lemma {:induction false} FullFrom(ms: seq<Migration>, n: nat)
    requires n <= |ms|
    ensures Offset(ms, n) <= |Full(ms)| && Full(ms)[Offset(ms, n)..] == Full(ms[n..])
  {
    if n > 0 {
      FullFrom(ms[1..], n - 1);
      assert ms[1..][n - 1..] == ms[n..];
      assert Full(ms) == Block(ms[0]) + Full(ms[1..]);
      assert Full(ms)[Offset(ms, n)..] == Full(ms[1..])[Offset(ms[1..], n - 1)..];
    } else {
      assert ms[0..] == ms;
    }
  }

  lemma {:induction false} CompletedIsBehind(ms: seq<Migration>, k: nat)
    ensures Offset(ms, Completed(ms, k)) <= k
  {
    if ms != [] && k >= |Block(ms[0])| { CompletedIsBehind(ms[1..], k - |Block(ms[0])|); }
  }

  predicate RecordedFirst(ms: seq<Migration>, applied: map<nat, string>, n: nat)
    requires n <= |ms|
  {
    && (forall i :: 0 <= i < n ==> ms[i].version in applied && applied[ms[i].version] == ms[i].checksum)
    && (forall i :: n <= i < |ms| ==> ms[i].version !in applied)
  }

  lemma {:induction false} PlanSkipsRecorded(ms: seq<Migration>, applied: map<nat, string>, n: nat)
    requires n <= |ms| && RecordedFirst(ms, applied, n)
    ensures Plan(ms, applied) == Full(ms[n..])
  {
    if ms == [] {
      assert ms[n..] == ms;
    } else if n > 0 {
      assert forall i :: 0 <= i < |ms[1..]| ==> ms[1..][i] == ms[i + 1];
      PlanSkipsRecorded(ms[1..], applied, n - 1);
      assert ms[1..][n - 1..] == ms[n..];
    } else {
      assert forall i :: 0 <= i < |ms[1..]| ==> ms[1..][i] == ms[i + 1];
      PlanSkipsRecorded(ms[1..], applied, 0);
      assert ms[0..] == ms && ms[1..][0..] == ms[1..];
    }
  }

  /** The tracking row of a migration is its block's last statement, and nothing else is. */
  lemma {:induction false} RecordPosition(ms: seq<Migration>, k: nat, i: nat)
    requires ScriptsAreDdl(ms) && VersionsAscend(ms) && k <= |Full(ms)| && i < |ms|
    ensures i < Completed(ms, k) ==> Happened(Full(ms), k, RecordVersion(ms[i].version, ms[i].checksum))
    ensures i >= Completed(ms, k) ==> forall checksum :: !Happened(Full(ms), k, RecordVersion(ms[i].version, checksum))
  {
    var block, rest := Block(ms[0]), Full(ms[1..]);
    assert Full(ms) == block + rest;
    assert forall m :: 0 <= m < |ms[1..]| ==> ms[1..][m] == ms[m + 1];
    if k < |block| {
      assert forall j :: 0 <= j < k ==> Full(ms)[j] == ms[0].script[j];
    } else {
      assert Full(ms)[|block| - 1] == RecordVersion(ms[0].version, ms[0].checksum);
      assert forall j :: 0 <= j < |block| - 1 ==> Full(ms)[j] == ms[0].script[j];
      if i > 0 {
        RecordPosition(ms[1..], k - |block|, i - 1);
        ShiftHappened(block, rest, k);
      }
    }
  }

  lemma ShiftHappened(block: seq<Instr>, rest: seq<Instr>, k: nat)
    requires |block| <= k <= |block| + |rest|
    ensures forall x :: Happened(block + rest, k, x) <==> x in block || Happened(rest, k - |block|, x)
  {
    forall x ensures Happened(block + rest, k, x) <==> x in block || Happened(rest, k - |block|, x) {
      if Happened(rest, k - |block|, x) {
        var j :| 0 <= j < k - |block| && rest[j] == x;
        assert (block + rest)[j + |block|] == x;
      }
      if x in block {
        var j :| 0 <= j < |block| && block[j] == x;
        assert (block + rest)[j] == x;
      }
    }
  }

  /** A run that starts when `k` statements have happened resumes at the first migration that is
      not recorded: at or before `k`, and at a migration's beginning. */
  lemma PlanStartsAtBoundary(ms: seq<Migration>, c: Catalog, k: nat)
    requires ScriptsAreDdl(ms) && VersionsAscend(ms) && k <= |Full(ms)| && RecordedAt(c, Full(ms), k)
    ensures Offset(ms, Completed(ms, k)) <= k
    ensures Plan(ms, c.recorded) == Full(ms)[Offset(ms, Completed(ms, k))..]
  {
    var n := Completed(ms, k);
    forall v | v in c.recorded ensures exists checksum :: Happened(Full(ms), k, RecordVersion(v, checksum)) {
      RecordedHappened(c, Full(ms), k, v);
    }
    forall i | 0 <= i < |ms|
      ensures i < n ==> ms[i].version in c.recorded && c.recorded[ms[i].version] == ms[i].checksum
      ensures i >= n ==> ms[i].version !in c.recorded
    {
      RecordPosition(ms, k, i);
    }
    PlanSkipsRecorded(ms, c.recorded, n);
    FullFrom(ms, n);
    CompletedIsBehind(ms, k);
  }
}
