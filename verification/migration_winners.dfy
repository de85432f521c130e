/** Who wins the race: each ADD COLUMN is executed by exactly one runner, so all runners complete
    exactly when no two of them set out to execute the same one. */
module MigrationWinners {
  import opened Migrations
  import opened MigrationProgress
  import opened MigrationRace

  /** The runner found something to do when it read the tracking table. */
  predicate Early(r: Runner) { !r.Waiting? && r.plan != [] }

  /** The runner has executed the `k`th statement of the files. */
  predicate HasPassed(p: seq<Instr>, r: Runner, k: nat) { !r.Waiting? && |p| - |r.plan| <= k < |p| - |r.rest| }

  ghost predicate SomeonePassed(p: seq<Instr>, runners: seq<Runner>, k: nat) {
    exists i :: 0 <= i < |runners| && HasPassed(p, runners[i], k)
  }

  /** A plan is what the files hold from some migration on. */
  ghost predicate PlanOk(ms: seq<Migration>, r: Runner) {
    !r.Waiting? ==> |r.rest| <= |r.plan| && exists m :: 0 <= m <= |ms| && r.plan == Full(ms[m..])
  }

  ghost predicate AllPassed(p: seq<Instr>, runners: seq<Runner>, high: nat) {
    forall k :: 0 <= k < high ==> SomeonePassed(p, runners, k)
  }

  ghost predicate AddedOnce(p: seq<Instr>, runners: seq<Runner>) {
    forall i, j, k :: 0 <= i < |runners| && 0 <= j < |runners| && i != j && 0 <= k < |p| && p[k].AddColumn? ==>
      !(HasPassed(p, runners[i], k) && HasPassed(p, runners[j], k))
  }

  ghost predicate WinnersOk(ms: seq<Migration>, runners: seq<Runner>, high: nat) {
    && (forall i :: 0 <= i < |runners| ==> PlanOk(ms, runners[i]))
    && AllPassed(Full(ms), runners, high) && AddedOnce(Full(ms), runners)
  }

  // ---------------------------------------------------------------------------
  // One turn
  // ---------------------------------------------------------------------------

  lemma PassedStays(p: seq<Instr>, runners: seq<Runner>, i: nat, r: Runner, high: nat)
    requires i < |runners| && AllPassed(p, runners, high)
    requires forall k :: HasPassed(p, runners[i], k) ==> HasPassed(p, r, k)
    ensures AllPassed(p, runners[i := r], high)
  {
    var after := runners[i := r];
    forall k | 0 <= k < high ensures SomeonePassed(p, after, k) {
      assert SomeonePassed(p, runners, k);
      var w :| 0 <= w < |runners| && HasPassed(p, runners[w], k);
      assert HasPassed(p, after[w], k);
    }
  }

  /** A turn that executes nothing: starting or failing. */
  lemma IdleTurn(ms: seq<Migration>, runners: seq<Runner>, i: nat, r: Runner, high: nat)
    requires i < |runners| && WinnersOk(ms, runners, high) && PlanOk(ms, r)
    requires forall k :: HasPassed(Full(ms), r, k) <==> HasPassed(Full(ms), runners[i], k)
    ensures WinnersOk(ms, runners[i := r], high)
  {
    PassedStays(Full(ms), runners, i, r, high);
  }

  lemma PlanIsOk(ms: seq<Migration>, c: Catalog, k: nat)
    requires ScriptsAreDdl(ms) && VersionsAscend(ms) && k <= |Full(ms)| && RecordedAt(c, Full(ms), k)
    ensures PlanOk(ms, Running(Plan(ms, c.recorded), Plan(ms, c.recorded)))
  {
    PlanStartsAtBoundary(ms, c, k);
    FullFrom(ms, Completed(ms, k));
  }

  /** A turn that executes the statement at `pc`; an ADD COLUMN only as the first to get there. */
  lemma PassingTurn(ms: seq<Migration>, runners: seq<Runner>, i: nat, high: nat, pc: nat, r: Runner)
    requires i < |runners| && WinnersOk(ms, runners, high) && pc <= high && pc < |Full(ms)|
    requires runners[i].Running? && |runners[i].rest| == |Full(ms)| - pc
    requires r.Running? && r.plan == runners[i].plan && |r.rest| == |Full(ms)| - pc - 1
    requires Full(ms)[pc].AddColumn? ==> pc == high
    requires forall j :: 0 <= j < |runners| ==> !HasPassed(Full(ms), runners[j], high)
    ensures WinnersOk(ms, runners[i := r], Max(high, pc + 1))
  {
    var p, after := Full(ms), runners[i := r];
    PassedStays(p, runners, i, r, high);
    assert PlanOk(ms, runners[i]);
    assert HasPassed(p, after[i], pc);
    assert SomeonePassed(p, after, pc);
    forall a, b, k | 0 <= a < |after| && 0 <= b < |after| && a != b && 0 <= k < |p| && p[k].AddColumn?
      ensures !(HasPassed(p, after[a], k) && HasPassed(p, after[b], k))
    {
      assert !(HasPassed(p, runners[a], k) && HasPassed(p, runners[b], k));
    }
  }

  lemma NobodyIsPastTheLeader(p: seq<Instr>, high: nat, r: Runner)
    requires RunnerOk(p, high, r)
    ensures !HasPassed(p, r, high)
  {
  }

  lemma WorkingTurn(ms: seq<Migration>, s: Race, i: nat, high: nat) returns (high': nat)
    requires Disciplined(Full(ms)) && i < |s.runners| && s.runners[i].Running? && s.runners[i].rest != []
    requires high <= |Full(ms)| && RaceOk(Full(ms), s, high) && WinnersOk(ms, s.runners, high)
    requires Step(s.catalog, s.runners[i].rest[0]).Some?
    ensures high' <= |Full(ms)| && RaceOk(Full(ms), Turn(ms, s, i), high')
      && WinnersOk(ms, Turn(ms, s, i).runners, high')
  {
    high' := ExecutingTurn(ms, s, i, high);
    var pc := Position(Full(ms), s.runners[i]);
    OnlyRepeatedAddColumnFails(s.catalog, Full(ms), high, pc);
    forall j | 0 <= j < |s.runners| ensures !HasPassed(Full(ms), s.runners[j], high) {
      NobodyIsPastTheLeader(Full(ms), high, s.runners[j]);
    }
    PassingTurn(ms, s.runners, i, high, pc, Turn(ms, s, i).runners[i]);
  }

  lemma TurnKeepsWinners(ms: seq<Migration>, s: Race, i: nat, high: nat) returns (high': nat)
    requires ScriptsAreDdl(ms) && VersionsAscend(ms) && Disciplined(Full(ms)) && i < |s.runners|
    requires high <= |Full(ms)| && RaceOk(Full(ms), s, high) && WinnersOk(ms, s.runners, high)
    ensures high' <= |Full(ms)| && RaceOk(Full(ms), Turn(ms, s, i), high')
      && WinnersOk(ms, Turn(ms, s, i).runners, high')
  {
    high' := high;
    assert PlanOk(ms, s.runners[i]);
    if s.runners[i].Waiting? {
      StartingTurn(ms, s, i, high);
      PlanIsOk(ms, s.catalog, high);
      IdleTurn(ms, s.runners, i, Turn(ms, s, i).runners[i], high);
    } else if Stopped(s.runners[i]) {
      assert Turn(ms, s, i) == s;
    } else if Step(s.catalog, s.runners[i].rest[0]).None? {
      FailingTurn(ms, s, i, high);
      IdleTurn(ms, s.runners, i, Turn(ms, s, i).runners[i], high);
    } else {
      high' := WorkingTurn(ms, s, i, high);
    }
  }

  lemma {:induction false} RaceKeepsWinners(ms: seq<Migration>, s: Race, schedule: seq<nat>, high: nat)
    returns (high': nat)
    requires ScriptsAreDdl(ms) && VersionsAscend(ms) && Disciplined(Full(ms)) && Turns(schedule, |s.runners|)
    requires high <= |Full(ms)| && RaceOk(Full(ms), s, high) && WinnersOk(ms, s.runners, high)
    ensures high' <= |Full(ms)| && RaceOk(Full(ms), RunRace(ms, s, schedule), high')
    ensures WinnersOk(ms, RunRace(ms, s, schedule).runners, high') && |RunRace(ms, s, schedule).runners| == |s.runners|
    decreases |schedule|
  {
    high' := high;
    if schedule != [] {
      var h := TurnKeepsWinners(ms, s, schedule[0], high);
      high' := RaceKeepsWinners(ms, Turn(ms, s, schedule[0]), schedule[1..], h);
    }
  }

  /** What holds when all the runners of a race have stopped. */
  lemma StoppedRace(ms: seq<Migration>, n: nat, schedule: seq<nat>)
    requires ScriptsAreDdl(ms) && VersionsAscend(ms) && Disciplined(Full(ms)) && n > 0 && Turns(schedule, n)
    requires AllStopped(RunRace(ms, StartOf(n), schedule).runners)
    ensures var runners := RunRace(ms, StartOf(n), schedule).runners;
      && |runners| == n && WinnersOk(ms, runners, |Full(ms)|)
      && forall i :: 0 <= i < n ==> RunnerOk(Full(ms), |Full(ms)|, runners[i]) && !runners[i].Waiting?
  {
    StartIsOk(ms, n);
    var high := RaceKeepsWinners(ms, StartOf(n), schedule, 0);
    StoppedRaceIsClean(ms, RunRace(ms, StartOf(n), schedule), high);
    var runners := RunRace(ms, StartOf(n), schedule).runners;
    forall i | 0 <= i < n ensures !runners[i].Waiting? { assert Stopped(runners[i]); }
  }

  // ---------------------------------------------------------------------------
  // Every column is added by exactly one runner
  // ---------------------------------------------------------------------------

  ghost predicate OnlyOnePassed(p: seq<Instr>, runners: seq<Runner>, k: nat) {
    exists i :: 0 <= i < |runners| && HasPassed(p, runners[i], k)
      && forall j :: 0 <= j < |runners| && HasPassed(p, runners[j], k) ==> j == i
  }

  /** Once all have stopped, every ADD COLUMN has been executed by exactly one of the runners. */
  lemma EachColumnIsAddedOnce(ms: seq<Migration>, n: nat, schedule: seq<nat>, k: nat)
    requires ScriptsAreDdl(ms) && VersionsAscend(ms) && Disciplined(Full(ms)) && n > 0 && Turns(schedule, n)
    requires AllStopped(RunRace(ms, StartOf(n), schedule).runners) && k < |Full(ms)| && Full(ms)[k].AddColumn?
    ensures OnlyOnePassed(Full(ms), RunRace(ms, StartOf(n), schedule).runners, k)
  {
    StoppedRace(ms, n, schedule);
    var p, runners := Full(ms), RunRace(ms, StartOf(n), schedule).runners;
    assert SomeonePassed(p, runners, k);
    var i :| 0 <= i < |runners| && HasPassed(p, runners[i], k);
    forall j | 0 <= j < |runners| && HasPassed(p, runners[j], k) ensures j == i {}
  }

  /** Both runners set out to execute the same ADD COLUMN. */
  ghost predicate ShareAColumn(a: Runner, b: Runner) {
    !a.Waiting? && !b.Waiting? && exists x: Instr :: x.AddColumn? && x in a.plan && x in b.plan
  }

  ghost predicate NoneShare(runners: seq<Runner>) {
    forall i, j :: 0 <= i < j < |runners| ==> !ShareAColumn(runners[i], runners[j])
  }

  predicate AllFinished(runners: seq<Runner>) { forall i :: 0 <= i < |runners| ==> Finished(runners[i]) }

  lemma SuffixAt(p: seq<Instr>, from: nat, q: seq<Instr>, j: nat)
    requires from <= |p| && p[from..] == q && j < |q|
    ensures |p| - |q| == from && p[from + j] == q[j]
  {
  }

  lemma PositionOf(p: seq<Instr>, from: nat, q: seq<Instr>, x: Instr) returns (k: nat)
    requires from <= |p| && p[from..] == q && x in q
    ensures |p| - |q| <= k < |p| && p[k] == x
  {
    var j :| 0 <= j < |q| && q[j] == x;
    SuffixAt(p, from, q, j);
    k := from + j;
  }

  /** A plan is a suffix of what the files hold. */
  lemma PlanSuffix(ms: seq<Migration>, r: Runner) returns (from: nat)
    requires PlanOk(ms, r) && !r.Waiting?
    ensures from <= |Full(ms)| && Full(ms)[from..] == r.plan && from == |Full(ms)| - |r.plan|
  {
    var m :| 0 <= m <= |ms| && r.plan == Full(ms[m..]);
    FullFrom(ms, m);
    from := Offset(ms, m);
  }

  lemma PlanPosition(ms: seq<Migration>, r: Runner, x: Instr) returns (k: nat)
    requires PlanOk(ms, r) && !r.Waiting? && x in r.plan
    ensures |Full(ms)| - |r.plan| <= k < |Full(ms)| && Full(ms)[k] == x
  {
    var from := PlanSuffix(ms, r);
    k := PositionOf(Full(ms), from, r.plan, x);
  }

  lemma PositionInPlan(ms: seq<Migration>, r: Runner, k: nat)
    requires PlanOk(ms, r) && !r.Waiting? && |Full(ms)| - |r.plan| <= k < |Full(ms)|
    ensures Full(ms)[k] in r.plan
  {
    var from := PlanSuffix(ms, r);
    SuffixAt(Full(ms), from, r.plan, k - from);
  }

  /** Two runners that finished with a column in both plans would both have added it. */
  lemma SharersDoNotBothFinish(ms: seq<Migration>, runners: seq<Runner>, i: nat, j: nat)
    requires Disciplined(Full(ms)) && WinnersOk(ms, runners, |Full(ms)|) && i < j < |runners|
    requires Finished(runners[i]) && Finished(runners[j])
    ensures !ShareAColumn(runners[i], runners[j])
  {
    var p := Full(ms);
    forall x: Instr | x.AddColumn? && x in runners[i].plan ensures x !in runners[j].plan {
      assert PlanOk(ms, runners[i]) && PlanOk(ms, runners[j]);
      var k := PlanPosition(ms, runners[i], x);
      assert HasPassed(p, runners[i], k);
      if x in runners[j].plan {
        var l := PlanPosition(ms, runners[j], x);
        ColumnAppearsOnce(p, k, l);
        assert HasPassed(p, runners[j], k);
      }
    }
  }

  lemma ColumnAppearsOnce(p: seq<Instr>, k: nat, l: nat)
    requires Disciplined(p) && k < |p| && l < |p| && p[k] == p[l] && p[k].AddColumn?
    ensures k == l
  {
    assert StatementOk(p, k) && StatementOk(p, l);
    assert !Happened(p, k, p[k]) && !Happened(p, l, p[l]);
  }

  /** A runner that failed at a column shares it with the runner that had added it. */
  lemma LoserSharesWithAWinner(ms: seq<Migration>, runners: seq<Runner>, i: nat) returns (w: nat)
    requires WinnersOk(ms, runners, |Full(ms)|) && i < |runners| && runners[i].Failed?
    requires RunnerOk(Full(ms), |Full(ms)|, runners[i])
    ensures w < |runners| && w != i && HasPassed(Full(ms), runners[w], |Full(ms)| - |runners[i].rest|)
    ensures ShareAColumn(runners[i], runners[w])
  {
    var p := Full(ms);
    var pc := |p| - |runners[i].rest|;
    assert SomeonePassed(p, runners, pc);
    w :| 0 <= w < |runners| && HasPassed(p, runners[w], pc);
    assert PlanOk(ms, runners[i]) && PlanOk(ms, runners[w]);
    PositionInPlan(ms, runners[i], pc);
    PositionInPlan(ms, runners[w], pc);
  }

  /** Who completes.  Once all have stopped, every runner completed if and only if no two of them
      read a tracking table that left them an ADD COLUMN in common. */
  lemma AllFinishIffNoneShare(ms: seq<Migration>, n: nat, schedule: seq<nat>)
    requires ScriptsAreDdl(ms) && VersionsAscend(ms) && Disciplined(Full(ms)) && n > 0 && Turns(schedule, n)
    requires AllStopped(RunRace(ms, StartOf(n), schedule).runners)
    ensures var runners := RunRace(ms, StartOf(n), schedule).runners; AllFinished(runners) <==> NoneShare(runners)
  {
    StoppedRace(ms, n, schedule);
    var runners := RunRace(ms, StartOf(n), schedule).runners;
    if AllFinished(runners) {
      forall i, j | 0 <= i < j < |runners| ensures !ShareAColumn(runners[i], runners[j]) {
        SharersDoNotBothFinish(ms, runners, i, j);
      }
    }
    if !AllFinished(runners) {
      var i :| 0 <= i < |runners| && !Finished(runners[i]);
      assert Stopped(runners[i]);
      var w := LoserSharesWithAWinner(ms, runners, i);
      assert ShareAColumn(runners[w], runners[i]);
    }
  }

  // ---------------------------------------------------------------------------
  // When the last file adds a column
  // ---------------------------------------------------------------------------

  lemma EarlyMeansUnrecorded(ms: seq<Migration>, c: Catalog, k: nat)
    requires ScriptsAreDdl(ms) && VersionsAscend(ms) && ms != [] && k <= |Full(ms)| && RecordedAt(c, Full(ms), k)
    ensures Plan(ms, c.recorded) != [] <==> ms[|ms| - 1].version !in c.recorded
  {
    forall v | v in c.recorded ensures exists checksum :: Happened(Full(ms), k, RecordVersion(v, checksum)) {
      RecordedHappened(c, Full(ms), k, v);
    }
    RecordPosition(ms, k, |ms| - 1);
    PlanStartsAtBoundary(ms, c, k);
    FullFrom(ms, Completed(ms, k));
  }

  lemma LastFileIsBehind(ms: seq<Migration>)
    requires ms != []
    ensures Offset(ms, |ms| - 1) < |Full(ms)|
    ensures Full(ms)[Offset(ms, |ms| - 1)..] == Block(ms[|ms| - 1])
  {
    FullFrom(ms, |ms| - 1);
    assert ms[|ms| - 1..] == [ms[|ms| - 1]];
    assert Full([ms[|ms| - 1]]) == Block(ms[|ms| - 1]) + Full([ms[|ms| - 1]][1..]);
  }

  lemma LastIsBehind(ms: seq<Migration>, m: nat)
    requires m < |ms|
    ensures Offset(ms, m) <= Offset(ms, |ms| - 1) < |Full(ms)|
  {
    LastFileIsBehind(ms);
    OffsetsAscend(ms, m, |ms| - 1);
  }

  lemma EarlyStart(ms: seq<Migration>, r: Runner) returns (m: nat)
    requires PlanOk(ms, r) && Early(r)
    ensures m < |ms| && |Full(ms)| - |r.plan| == Offset(ms, m)
  {
    m :| 0 <= m <= |ms| && r.plan == Full(ms[m..]);
    assert ms[|ms|..] == [];
    FullFrom(ms, m);
  }

  /** The first statement of the last file is in every plan that is not empty. */
  lemma EarlyCoversTheLast(ms: seq<Migration>, r: Runner)
    requires ms != [] && PlanOk(ms, r) && Early(r)
    ensures |Full(ms)| - |r.plan| <= Offset(ms, |ms| - 1) < |Full(ms)|
  {
    var m := EarlyStart(ms, r);
    LastIsBehind(ms, m);
  }

  predicate EndsByAdding(ms: seq<Migration>) {
    ms != [] && ms[|ms| - 1].script != [] && ms[|ms| - 1].script[0].AddColumn?
  }

  lemma LastFirstStatement(ms: seq<Migration>)
    requires EndsByAdding(ms)
    ensures Offset(ms, |ms| - 1) < |Full(ms)| && Full(ms)[Offset(ms, |ms| - 1)] == ms[|ms| - 1].script[0]
  {
    LastFileIsBehind(ms);
    assert Full(ms)[Offset(ms, |ms| - 1)..][0] == ms[|ms| - 1].script[0];
  }

  /** The runner that adds the first column of the last file meets nobody's column after it. */
  lemma FirstAdderFinishes(ms: seq<Migration>, runners: seq<Runner>, i: nat)
    requires EndsByAdding(ms) && Disciplined(Full(ms)) && WinnersOk(ms, runners, |Full(ms)|) && i < |runners|
    requires Stopped(runners[i]) && RunnerOk(Full(ms), |Full(ms)|, runners[i])
    requires HasPassed(Full(ms), runners[i], Offset(ms, |ms| - 1))
    ensures Finished(runners[i])
  {
    LastFirstStatement(ms);
    if runners[i].Failed? {
      var w := LoserSharesWithAWinner(ms, runners, i);
      assert PlanOk(ms, runners[w]);
      EarlyCoversTheLast(ms, runners[w]);
      assert HasPassed(Full(ms), runners[w], Offset(ms, |ms| - 1));
      assert false;
    }
  }

  ghost predicate AtMostOneEarly(runners: seq<Runner>) {
    forall i, j :: 0 <= i < |runners| && 0 <= j < |runners| && Early(runners[i]) && Early(runners[j]) ==> i == j
  }

  ghost predicate ExactlyOneEarlyFinished(runners: seq<Runner>) {
    exists i :: 0 <= i < |runners| && Early(runners[i]) && Finished(runners[i])
      && forall j :: 0 <= j < |runners| && Early(runners[j]) && Finished(runners[j]) ==> j == i
  }

  lemma OneEarlyFinishes(ms: seq<Migration>, runners: seq<Runner>, i: nat)
    requires EndsByAdding(ms) && Disciplined(Full(ms)) && WinnersOk(ms, runners, |Full(ms)|) && i < |runners|
    requires AllStopped(runners) && RunnerOk(Full(ms), |Full(ms)|, runners[i])
    requires HasPassed(Full(ms), runners[i], Offset(ms, |ms| - 1))
    ensures ExactlyOneEarlyFinished(runners)
  {
    LastFirstStatement(ms);
    assert Stopped(runners[i]) && PlanOk(ms, runners[i]);
    FirstAdderFinishes(ms, runners, i);
    forall j | 0 <= j < |runners| && Early(runners[j]) && Finished(runners[j]) ensures j == i {
      assert PlanOk(ms, runners[j]);
      EarlyCoversTheLast(ms, runners[j]);
      assert HasPassed(Full(ms), runners[j], Offset(ms, |ms| - 1));
    }
  }

  lemma EarlyOnesShare(ms: seq<Migration>, a: Runner, b: Runner)
    requires EndsByAdding(ms) && PlanOk(ms, a) && PlanOk(ms, b) && Early(a) && Early(b)
    ensures ShareAColumn(a, b)
  {
    LastFirstStatement(ms);
    EarlyCoversTheLast(ms, a);
    EarlyCoversTheLast(ms, b);
    PositionInPlan(ms, a, Offset(ms, |ms| - 1));
    PositionInPlan(ms, b, Offset(ms, |ms| - 1));
  }

  /** When the last file starts by adding a column: of the runners that read the tracking table before
      its version was recorded exactly one completes, and all runners complete if and only if there
      was only that one. */
  lemma OneEarlyRunnerCompletes(ms: seq<Migration>, n: nat, schedule: seq<nat>)
    requires ScriptsAreDdl(ms) && VersionsAscend(ms) && Disciplined(Full(ms)) && EndsByAdding(ms) && n > 0
      && Turns(schedule, n)
    requires AllStopped(RunRace(ms, StartOf(n), schedule).runners)
    ensures var runners := RunRace(ms, StartOf(n), schedule).runners;
      ExactlyOneEarlyFinished(runners) && (AllFinished(runners) <==> AtMostOneEarly(runners))
  {
    var runners := RunRace(ms, StartOf(n), schedule).runners;
    StoppedRace(ms, n, schedule);
    AllFinishIffNoneShare(ms, n, schedule);
    TheFirstAdder(ms, runners);
    if !AtMostOneEarly(runners) { TwoEarlyShare(ms, runners); }
    if !NoneShare(runners) { SharersAreEarly(runners); }
  }

  lemma TheFirstAdder(ms: seq<Migration>, runners: seq<Runner>)
    requires EndsByAdding(ms) && Disciplined(Full(ms)) && WinnersOk(ms, runners, |Full(ms)|) && AllStopped(runners)
    requires forall i :: 0 <= i < |runners| ==> RunnerOk(Full(ms), |Full(ms)|, runners[i])
    ensures ExactlyOneEarlyFinished(runners)
  {
    LastFirstStatement(ms);
    assert SomeonePassed(Full(ms), runners, Offset(ms, |ms| - 1));
    var i :| 0 <= i < |runners| && HasPassed(Full(ms), runners[i], Offset(ms, |ms| - 1));
    OneEarlyFinishes(ms, runners, i);
  }

  lemma SharersAreEarly(runners: seq<Runner>)
    requires !NoneShare(runners)
    ensures !AtMostOneEarly(runners)
  {
    var a, b :| 0 <= a < b < |runners| && ShareAColumn(runners[a], runners[b]);
    assert Early(runners[a]) && Early(runners[b]);
  }

  lemma TwoEarlyShare(ms: seq<Migration>, runners: seq<Runner>)
    requires EndsByAdding(ms) && !AtMostOneEarly(runners) && forall i :: 0 <= i < |runners| ==> PlanOk(ms, runners[i])
    ensures !NoneShare(runners)
  {
    var i, j :| 0 <= i < |runners| && 0 <= j < |runners| && Early(runners[i]) && Early(runners[j]) && i != j;
    EarlyOnesShare(ms, runners[i], runners[j]);
    EarlyOnesShare(ms, runners[j], runners[i]);
    assert i < j ==> ShareAColumn(runners[i], runners[j]);
    assert j < i ==> ShareAColumn(runners[j], runners[i]);
  }

  // ---------------------------------------------------------------------------
  // A race that somebody loses
  // ---------------------------------------------------------------------------

  function Repeat(i: nat, n: nat): seq<nat> { seq(n, _ => i) }

  /** Both runners read the empty tracking table; then the first runs to its end, and then the second. */
  function BothThenOneThenTheOther(ms: seq<Migration>): seq<nat> {
    [0, 1] + (Repeat(0, |Full(ms)|) + Repeat(1, |Full(ms)|))
  }

  lemma {:induction false} TurnsOfConcat(a: seq<nat>, b: seq<nat>, i: nat)
    ensures TurnsOf(a + b, i) == TurnsOf(a, i) + TurnsOf(b, i)
  {
    if a == [] {
      assert a + b == b;
    } else {
      assert (a + b)[1..] == a[1..] + b;
      TurnsOfConcat(a[1..], b, i);
    }
  }

  lemma {:induction false} TurnsOfRepeat(i: nat, n: nat)
    ensures TurnsOf(Repeat(i, n), i) == n
  {
    if n > 0 {
      assert Repeat(i, n)[1..] == Repeat(i, n - 1);
      TurnsOfRepeat(i, n - 1);
    }
  }

  /** What a runner set out to do never changes. */
  lemma {:induction false} PlanStays(ms: seq<Migration>, s: Race, schedule: seq<nat>, i: nat)
    requires Turns(schedule, |s.runners|) && i < |s.runners| && !s.runners[i].Waiting?
    ensures var s' := RunRace(ms, s, schedule);
      |s'.runners| == |s.runners| && !s'.runners[i].Waiting? && s'.runners[i].plan == s.runners[i].plan
    decreases |schedule|
  {
    if schedule != [] { PlanStays(ms, Turn(ms, s, schedule[0]), schedule[1..], i); }
  }

  lemma {:induction false} RaceConcat(ms: seq<Migration>, s: Race, a: seq<nat>, b: seq<nat>)
    requires Turns(a, |s.runners|) && Turns(b, |s.runners|)
    ensures Turns(a + b, |s.runners|) && |RunRace(ms, s, a).runners| == |s.runners|
    ensures RunRace(ms, s, a + b) == RunRace(ms, RunRace(ms, s, a), b)
    decreases |a|
  {
    if a == [] {
      assert a + b == b;
    } else {
      assert (a + b)[1..] == a[1..] + b;
      RaceConcat(ms, Turn(ms, s, a[0]), a[1..], b);
    }
  }

  lemma BothStart(ms: seq<Migration>)
    ensures RunRace(ms, StartOf(2), [0, 1]).runners == [Running(Full(ms), Full(ms)), Running(Full(ms), Full(ms))]
  {
    var s0 := StartOf(2);
    var s1 := Turn(ms, s0, 0);
    assert [0, 1][1..] == [1] && [1][1..] == [];
    assert RunRace(ms, s1, [1]) == Turn(ms, s1, 1);
  }

  lemma BothStop(ms: seq<Migration>)
    ensures Turns(BothThenOneThenTheOther(ms), 2)
      && AllStopped(RunRace(ms, StartOf(2), BothThenOneThenTheOther(ms)).runners)
    ensures var runners := RunRace(ms, StartOf(2), BothThenOneThenTheOther(ms)).runners;
      |runners| == 2 && forall i :: 0 <= i < 2 ==> !runners[i].Waiting? && runners[i].plan == Full(ms)
  {
    var n := |Full(ms)|;
    var rest, s1 := Repeat(0, n) + Repeat(1, n), RunRace(ms, StartOf(2), [0, 1]);
    BothStart(ms);
    RaceConcat(ms, StartOf(2), [0, 1], rest);
    TurnsOfConcat(Repeat(0, n), Repeat(1, n), 0);
    TurnsOfConcat(Repeat(0, n), Repeat(1, n), 1);
    TurnsOfRepeat(0, n);
    TurnsOfRepeat(1, n);
    EnoughTurnsStop(ms, s1, rest, 0);
    EnoughTurnsStop(ms, s1, rest, 1);
    PlanStays(ms, s1, rest, 0);
    PlanStays(ms, s1, rest, 1);
  }

  /** Two runners that both start on the empty database do not both complete: whenever the last file
      starts by adding a column, one of the two fails. */
  lemma TwoRacersCanFail(ms: seq<Migration>)
    requires ScriptsAreDdl(ms) && VersionsAscend(ms) && Disciplined(Full(ms)) && EndsByAdding(ms)
    ensures Turns(BothThenOneThenTheOther(ms), 2)
    ensures var runners := RunRace(ms, StartOf(2), BothThenOneThenTheOther(ms)).runners;
      |runners| == 2 && ((Finished(runners[0]) && runners[1].Failed?) || (runners[0].Failed? && Finished(runners[1])))
  {
    BothStop(ms);
    OneEarlyRunnerCompletes(ms, 2, BothThenOneThenTheOther(ms));
    var runners := RunRace(ms, StartOf(2), BothThenOneThenTheOther(ms)).runners;
    assert Stopped(runners[0]) && Stopped(runners[1]);
    LastFirstStatement(ms);
    assert Early(runners[0]) && Early(runners[1]);
  }
}
