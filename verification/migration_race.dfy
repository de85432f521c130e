/** Any number of migration runners on one empty database, interleaved statement by statement:
    one of them completes, the others complete or stop loudly, and the schema they leave is that
    of a single clean run. */
module MigrationRace {
  import opened Migrations
  import opened MigrationProgress

  /** A runner reads the tracking table once, when it starts: `plan` is what it then found to do, and
      `rest` what it has left of it, from the statement that failed if one did. */
  datatype Runner = Waiting | Running(plan: seq<Instr>, rest: seq<Instr>) | Failed(plan: seq<Instr>, rest: seq<Instr>)

  datatype Race = Race(catalog: Catalog, runners: seq<Runner>)

  predicate Finished(r: Runner) { r.Running? && r.rest == [] }

  predicate Stopped(r: Runner) { r.Failed? || Finished(r) }

  /** The runner's next statement. */
  function Move(ms: seq<Migration>, c: Catalog, r: Runner): (Catalog, Runner) {
    match r
    case Waiting => (c, Running(Plan(ms, c.recorded), Plan(ms, c.recorded)))
    case Failed(_, _) => (c, r)
    case Running(plan, rest) =>
      if rest == [] then (c, r)
      else
        var next := Step(c, rest[0]);
        if next.None? then (c, Failed(plan, rest)) else (next.value, Running(plan, rest[1..]))
  }

  function Turn(ms: seq<Migration>, s: Race, i: nat): Race
    requires i < |s.runners|
  {
    var (c, r) := Move(ms, s.catalog, s.runners[i]);
    Race(c, s.runners[i := r])
  }

  predicate Turns(schedule: seq<nat>, n: nat) { forall k :: 0 <= k < |schedule| ==> schedule[k] < n }

  function RunRace(ms: seq<Migration>, s: Race, schedule: seq<nat>): Race
    requires Turns(schedule, |s.runners|)
    decreases |schedule|
  {
    if schedule == [] then s else RunRace(ms, Turn(ms, s, schedule[0]), schedule[1..])
  }

  function StartOf(n: nat): Race { Race(EMPTY_CATALOG, seq(n, _ => Waiting)) }

  // ---------------------------------------------------------------------------
  // The invariant: `high` statements have happened, in the order of the files
  // ---------------------------------------------------------------------------

  predicate RunnerOk(p: seq<Instr>, high: nat, r: Runner) {
    match r
    case Waiting => true
    case Running(_, rest) => |rest| <= |p| && |p| - |rest| <= high && rest == p[|p| - |rest|..]
    case Failed(_, rest) =>
      0 < |rest| <= |p| && |p| - |rest| <= high && rest == p[|p| - |rest|..] && rest[0].AddColumn?
  }

  predicate Leads(p: seq<Instr>, high: nat, r: Runner) { r.Running? && |r.rest| + high == |p| }

  /** A runner that is still going will drop the index. */
  predicate WillDrop(r: Runner, ix: IndexName) { r.Running? && DropIndex(ix) in r.rest }

  ghost predicate SomeoneDrops(runners: seq<Runner>, ix: IndexName) {
    exists i :: 0 <= i < |runners| && WillDrop(runners[i], ix)
  }

  ghost predicate HasLeader(p: seq<Instr>, high: nat, runners: seq<Runner>) {
    exists i :: 0 <= i < |runners| && Leads(p, high, runners[i])
  }

  ghost predicate LeftoversClaimed(c: Catalog, p: seq<Instr>, high: nat, runners: seq<Runner>)
    requires high <= |p|
  {
    forall ix :: ix in c.indexes && Happened(p, high, DropIndex(ix)) ==> SomeoneDrops(runners, ix)
  }

  ghost predicate RaceOk(p: seq<Instr>, s: Race, high: nat)
    requires high <= |p|
  {
    && At(s.catalog, p, high) && LeftoversClaimed(s.catalog, p, high, s.runners)
    && (forall i :: 0 <= i < |s.runners| ==> RunnerOk(p, high, s.runners[i]))
    && (HasLeader(p, high, s.runners) || (high == 0 && forall i :: 0 <= i < |s.runners| ==> s.runners[i].Waiting?))
  }

  function Position(p: seq<Instr>, r: Runner): nat
    requires r.Running? && |r.rest| <= |p|
  {
    |p| - |r.rest|
  }

  /** The statement a runner is at comes before its rest, so a drop that happened after it is still ahead of it. */
  lemma DropIsAhead(p: seq<Instr>, high: nat, pc: nat, ix: IndexName)
    requires Disciplined(p) && high <= |p| && pc < high && Happened(p, high, DropIndex(ix))
    requires p[pc] == CreateIndex(ix)
    ensures DropIndex(ix) in p[pc + 1..]
  {
    var j :| 0 <= j < high && p[j] == DropIndex(ix);
    assert StatementOk(p, pc);
    assert j > pc;
    assert p[pc + 1..][j - pc - 1] == p[j];
  }

  /** A runner that fails has no drop ahead of it. */
  lemma FailureIsPastTheDrops(p: seq<Instr>, pc: nat, ix: IndexName)
    requires Disciplined(p) && pc < |p| && p[pc].AddColumn?
    ensures DropIndex(ix) !in p[pc..]
  {
    forall j | 0 <= j < |p[pc..]| ensures p[pc..][j] != DropIndex(ix) {
      assert StatementOk(p, pc + j);
    }
  }

  lemma OthersStillDrop(s: Race, i: nat, r: Runner, ix: IndexName)
    requires i < |s.runners| && SomeoneDrops(s.runners, ix) && (WillDrop(s.runners[i], ix) ==> WillDrop(r, ix))
    ensures SomeoneDrops(s.runners[i := r], ix)
  {
    var w :| 0 <= w < |s.runners| && WillDrop(s.runners[w], ix);
    assert WillDrop(s.runners[i := r][w], ix);
  }

  lemma OthersStillLead(p: seq<Instr>, high: nat, runners: seq<Runner>, i: nat, r: Runner)
    requires i < |runners| && HasLeader(p, high, runners) && (Leads(p, high, runners[i]) ==> Leads(p, high, r))
    ensures HasLeader(p, high, runners[i := r])
  {
    var w :| 0 <= w < |runners| && Leads(p, high, runners[w]);
    assert Leads(p, high, runners[i := r][w]);
  }

  lemma StartingTurn(ms: seq<Migration>, s: Race, i: nat, high: nat)
    requires ScriptsAreDdl(ms) && VersionsAscend(ms) && i < |s.runners| && s.runners[i].Waiting?
    requires high <= |Full(ms)| && RaceOk(Full(ms), s, high)
    ensures RaceOk(Full(ms), Turn(ms, s, i), high)
  {
    var p, s' := Full(ms), Turn(ms, s, i);
    PlanStartsAtBoundary(ms, s.catalog, high);
    forall ix | ix in s'.catalog.indexes && Happened(p, high, DropIndex(ix)) ensures SomeoneDrops(s'.runners, ix) {
      OthersStillDrop(s, i, s'.runners[i], ix);
    }
    if HasLeader(p, high, s.runners) {
      OthersStillLead(p, high, s.runners, i, s'.runners[i]);
    } else {
      assert Leads(p, high, s'.runners[i]);
    }
  }

  lemma FailingTurn(ms: seq<Migration>, s: Race, i: nat, high: nat)
    requires Disciplined(Full(ms)) && i < |s.runners| && s.runners[i].Running? && s.runners[i].rest != []
    requires high <= |Full(ms)| && RaceOk(Full(ms), s, high) && Step(s.catalog, s.runners[i].rest[0]).None?
    ensures RaceOk(Full(ms), Turn(ms, s, i), high)
  {
    var p, s' := Full(ms), Turn(ms, s, i);
    assert RunnerOk(p, high, s.runners[i]);
    var pc := Position(p, s.runners[i]);
    OnlyRepeatedAddColumnFails(s.catalog, p, high, pc);
    forall ix | ix in s'.catalog.indexes && Happened(p, high, DropIndex(ix)) ensures SomeoneDrops(s'.runners, ix) {
      FailureIsPastTheDrops(p, pc, ix);
      OthersStillDrop(s, i, s'.runners[i], ix);
    }
    OthersStillLead(p, high, s.runners, i, s'.runners[i]);
  }

  lemma LeftoversStayClaimed(p: seq<Instr>, s: Race, i: nat, high: nat, pc: nat, c': Catalog)
    requires Disciplined(p) && high <= |p| && i < |s.runners| && pc <= high && pc < |p|
    requires s.runners[i].Running? && s.runners[i].rest == p[pc..] && LeftoversClaimed(s.catalog, p, high, s.runners)
    requires forall ix :: ix in c'.indexes ==> ix in s.catalog.indexes || p[pc] == CreateIndex(ix)
    requires p[pc].DropIndex? ==> p[pc].index !in c'.indexes
    ensures LeftoversClaimed(c', p, Max(high, pc + 1), s.runners[i := Running(s.runners[i].plan, p[pc + 1..])])
  {
    var r' := Running(s.runners[i].plan, p[pc + 1..]);
    assert p[pc..] == [p[pc]] + p[pc + 1..];
    forall ix | ix in c'.indexes && Happened(p, Max(high, pc + 1), DropIndex(ix))
      ensures SomeoneDrops(s.runners[i := r'], ix)
    {
      if pc == high { HappenedNext(p, high, DropIndex(ix)); assert StatementOk(p, pc); }
      if ix in s.catalog.indexes {
        OthersStillDrop(s, i, r', ix);
      } else {
        DropIsAhead(p, high, pc, ix);
        assert WillDrop(s.runners[i := r'][i], ix);
      }
    }
  }

  lemma ExecutingTurn(ms: seq<Migration>, s: Race, i: nat, high: nat) returns (high': nat)
    requires Disciplined(Full(ms)) && i < |s.runners| && s.runners[i].Running? && s.runners[i].rest != []
    requires high <= |Full(ms)| && RaceOk(Full(ms), s, high) && Step(s.catalog, s.runners[i].rest[0]).Some?
    ensures high' <= |Full(ms)| && RaceOk(Full(ms), Turn(ms, s, i), high')
    ensures RunnerOk(Full(ms), high, s.runners[i]) && high' == Max(high, Position(Full(ms), s.runners[i]) + 1)
  {
    var p, s' := Full(ms), Turn(ms, s, i);
    assert RunnerOk(p, high, s.runners[i]);
    var pc := Position(p, s.runners[i]);
    assert p[pc..][1..] == p[pc + 1..];
    high' := Max(high, pc + 1);
    StatementKeepsAt(s.catalog, p, high, pc);
    LeftoversStayClaimed(p, s, i, high, pc, s'.catalog);
    if pc == high {
      assert Leads(p, high', s'.runners[i]);
    } else {
      OthersStillLead(p, high, s.runners, i, s'.runners[i]);
    }
    forall j | 0 <= j < |s'.runners| ensures RunnerOk(p, high', s'.runners[j]) {
      assert j != i ==> RunnerOk(p, high, s.runners[j]);
    }
  }

  lemma TurnKeepsOk(ms: seq<Migration>, s: Race, i: nat, high: nat) returns (high': nat)
    requires ScriptsAreDdl(ms) && VersionsAscend(ms) && Disciplined(Full(ms)) && i < |s.runners|
    requires high <= |Full(ms)| && RaceOk(Full(ms), s, high)
    ensures high' <= |Full(ms)| && RaceOk(Full(ms), Turn(ms, s, i), high')
  {
    high' := high;
    if s.runners[i].Waiting? {
      StartingTurn(ms, s, i, high);
    } else if Stopped(s.runners[i]) {
      assert Turn(ms, s, i) == s;
    } else if Step(s.catalog, s.runners[i].rest[0]).None? {
      FailingTurn(ms, s, i, high);
    } else {
      high' := ExecutingTurn(ms, s, i, high);
    }
  }

  lemma {:induction false} RaceKeepsOk(ms: seq<Migration>, s: Race, schedule: seq<nat>, high: nat) returns (high': nat)
    requires ScriptsAreDdl(ms) && VersionsAscend(ms) && Disciplined(Full(ms)) && Turns(schedule, |s.runners|)
    requires high <= |Full(ms)| && RaceOk(Full(ms), s, high)
    ensures high' <= |Full(ms)| && RaceOk(Full(ms), RunRace(ms, s, schedule), high')
    ensures |RunRace(ms, s, schedule).runners| == |s.runners|
    decreases |schedule|
  {
    high' := high;
    if schedule != [] {
      var h := TurnKeepsOk(ms, s, schedule[0], high);
      high' := RaceKeepsOk(ms, Turn(ms, s, schedule[0]), schedule[1..], h);
    }
  }

  lemma StartIsOk(ms: seq<Migration>, n: nat)
    ensures RaceOk(Full(ms), StartOf(n), 0)
  {
  }

  // ---------------------------------------------------------------------------
  // The race is won
  // ---------------------------------------------------------------------------

  predicate AllStopped(runners: seq<Runner>) { forall i :: 0 <= i < |runners| ==> Stopped(runners[i]) }

  /** Completed, or stopped by an error at an ADD COLUMN. */
  predicate CompletedOrLoud(r: Runner) { Finished(r) || (r.Failed? && r.rest != [] && r.rest[0].AddColumn?) }

  lemma StoppedRaceIsClean(ms: seq<Migration>, s: Race, high: nat)
    requires Disciplined(Full(ms)) && high <= |Full(ms)| && RaceOk(Full(ms), s, high) && |s.runners| > 0
      && AllStopped(s.runners)
    ensures s.catalog == CleanRun(ms)
    ensures exists i :: 0 <= i < |s.runners| && Finished(s.runners[i])
    ensures high == |Full(ms)|
  {
    var p := Full(ms);
    assert Stopped(s.runners[0]);
    var w :| 0 <= w < |s.runners| && Leads(p, high, s.runners[w]);
    assert Stopped(s.runners[w]);
    forall ix | ix in s.catalog.indexes ensures !Happened(p, high, DropIndex(ix)) {
      assert forall i :: 0 <= i < |s.runners| ==> !WillDrop(s.runners[i], ix);
    }
    CleanRunSucceeds(ms);
    CatalogIsDetermined(s.catalog, CleanRun(ms), p, high);
  }

  /** However the runners are interleaved, once all have stopped the database is exactly what one
      clean run leaves, at least one runner completed, and every other one stopped at an ADD COLUMN
      that had been executed already. */
  lemma RaceEndsClean(ms: seq<Migration>, n: nat, schedule: seq<nat>)
    requires ScriptsAreDdl(ms) && VersionsAscend(ms) && Disciplined(Full(ms)) && n > 0 && Turns(schedule, n)
    requires AllStopped(RunRace(ms, StartOf(n), schedule).runners)
    ensures var s := RunRace(ms, StartOf(n), schedule);
      && s.catalog == CleanRun(ms)
      && (exists i :: 0 <= i < |s.runners| && Finished(s.runners[i]))
      && (forall i :: 0 <= i < |s.runners| ==> CompletedOrLoud(s.runners[i]))
  {
    StartIsOk(ms, n);
    var high := RaceKeepsOk(ms, StartOf(n), schedule, 0);
    var s := RunRace(ms, StartOf(n), schedule);
    StoppedRaceIsClean(ms, s, high);
    forall i | 0 <= i < |s.runners| ensures CompletedOrLoud(s.runners[i]) {
      assert Stopped(s.runners[i]) && RunnerOk(Full(ms), high, s.runners[i]);
    }
  }

  // ---------------------------------------------------------------------------
  // Every runner stops
  // ---------------------------------------------------------------------------

  lemma {:induction false} PlanIsNoLonger(ms: seq<Migration>, applied: map<nat, string>)
    ensures |Plan(ms, applied)| <= |Full(ms)|
  {
    if ms != [] { PlanIsNoLonger(ms[1..], applied); }
  }

  function TurnsLeft(ms: seq<Migration>, r: Runner): nat {
    match r
    case Waiting => 1 + |Full(ms)|
    case Running(_, rest) => |rest|
    case Failed(_, _) => 0
  }

  function TurnsOf(schedule: seq<nat>, i: nat): nat {
    if schedule == [] then 0 else (if schedule[0] == i then 1 else 0) + TurnsOf(schedule[1..], i)
  }

  /** No runner waits for another: given one turn more than there are statements, it has stopped. */
  lemma {:induction false} EnoughTurnsStop(ms: seq<Migration>, s: Race, schedule: seq<nat>, i: nat)
    requires Turns(schedule, |s.runners|) && i < |s.runners| && TurnsOf(schedule, i) >= TurnsLeft(ms, s.runners[i])
    ensures |RunRace(ms, s, schedule).runners| == |s.runners| && Stopped(RunRace(ms, s, schedule).runners[i])
    decreases |schedule|
  {
    if schedule != [] {
      var s' := Turn(ms, s, schedule[0]);
      if schedule[0] == i { PlanIsNoLonger(ms, s.catalog.recorded); }
      EnoughTurnsStop(ms, s', schedule[1..], i);
    }
  }

  lemma LeftoverHasATaker(ms: seq<Migration>, s: Race, high: nat, ix: IndexName)
    requires Disciplined(Full(ms)) && high <= |Full(ms)| && RaceOk(Full(ms), s, high)
    requires ix in s.catalog.indexes && Happened(Full(ms), |Full(ms)|, DropIndex(ix))
    ensures SomeoneDrops(s.runners, ix)
  {
    var p := Full(ms);
    if !Happened(p, high, DropIndex(ix)) {
      var j :| 0 <= j < |p| && p[j] == DropIndex(ix);
      var w :| 0 <= w < |s.runners| && Leads(p, high, s.runners[w]);
      assert RunnerOk(p, high, s.runners[w]);
      assert s.runners[w].rest[j - high] == DropIndex(ix);
      assert WillDrop(s.runners[w], ix);
    }
  }

  /** At every moment of the race, an index that a clean run ends without is there only while some
      runner is still going to drop it: a global index re-created by a late runner of the first
      script is always taken away again. */
  lemma LateIndexIsDropped(ms: seq<Migration>, n: nat, schedule: seq<nat>, ix: IndexName)
    requires ScriptsAreDdl(ms) && VersionsAscend(ms) && Disciplined(Full(ms)) && Turns(schedule, n)
    requires ix in RunRace(ms, StartOf(n), schedule).catalog.indexes && ix !in CleanRun(ms).indexes
    ensures SomeoneDrops(RunRace(ms, StartOf(n), schedule).runners, ix)
  {
    StartIsOk(ms, n);
    var high := RaceKeepsOk(ms, StartOf(n), schedule, 0);
    CleanRunSucceeds(ms);
    var x :| 0 <= x < high && Full(ms)[x] == CreateIndex(ix);
    assert Happened(Full(ms), |Full(ms)|, CreateIndex(ix));
    LeftoverHasATaker(ms, RunRace(ms, StartOf(n), schedule), high, ix);
  }

  /** A recorded version was executed in full: every table and column its script and the scripts
      before it ask for is there, and every index they create and no later script drops. */
  lemma RecordedMeansExecuted(ms: seq<Migration>, n: nat, schedule: seq<nat>, m: nat, k: nat)
    requires ScriptsAreDdl(ms) && VersionsAscend(ms) && Disciplined(Full(ms)) && Turns(schedule, n)
    requires m < |ms| && ms[m].version in RunRace(ms, StartOf(n), schedule).catalog.recorded
    requires k < Offset(ms, m + 1) && k < |Full(ms)|
    ensures InForce(RunRace(ms, StartOf(n), schedule).catalog, Full(ms), Full(ms)[k])
  {
    var p, s := Full(ms), RunRace(ms, StartOf(n), schedule);
    StartIsOk(ms, n);
    var high := RaceKeepsOk(ms, StartOf(n), schedule, 0);
    RecordedHappened(s.catalog, p, high, ms[m].version);
    RecordPosition(ms, high, m);
    OffsetsAscend(ms, m + 1, Completed(ms, high));
    CompletedIsBehind(ms, high);
    ExecutedIsInForce(s.catalog, p, high, k);
  }
}
