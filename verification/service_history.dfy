/** What runs of the whole service never take back, and what follows for clients that retry and
    for operators that lose a volume. */
module ServiceHistory {
  import opened Wrappers
  import opened Contract
  import opened Tables
  import opened Metadata
  import opened History
  import opened Volumes
  import opened Service
  import opened ServiceInvariants
  import opened ServiceSafety
  import opened Counting

  // ---------------------------------------------------------------------------
  // Requests only accumulate
  // ---------------------------------------------------------------------------

  /** What a request sent, the id it drew and the answer it was given never change. */
  predicate RequestKept(a: Request, b: Request) {
    && b.form == a.form && (a.missed ==> b.missed) && (a.minted.Some? ==> b.minted == a.minted)
    && (a.phase.Done? ==> b == a)
  }

  predicate RequestsKept(a: map<Rid, Request>, b: map<Rid, Request>) {
    forall rid :: rid in a ==> rid in b && RequestKept(a[rid], b[rid])
  }

  lemma FileMoveKeepsRequest(w: World, sh: Shared, rid: Rid, r: Request, ch: Choice)
    requires RecordOk(w, sh, r) && !AtMetadata(r.phase)
    ensures RequestKept(r, FileMove(w, sh, rid, r, ch).next)
  {
  }

  lemma NextMoveKeepsRequest(w: World, sh: Shared, rid: Rid, r: Request, ch: Choice)
    requires RecordOk(w, sh, r)
    ensures RequestKept(r, NextMove(w, sh, rid, r, ch).next)
  {
    if AtMetadata(r.phase) { MetadataMove(w, sh, rid, r, ch); } else { FileMoveKeepsRequest(w, sh, rid, r, ch); }
  }

  lemma AdvanceKeepsRequests(w: World, s: State, rid: Rid, ch: Choice)
    requires rid in s.requests && RecordOk(w, s.shared, s.requests[rid])
    ensures RequestsKept(s.requests, Act(s, rid, NextMove(w, s.shared, rid, s.requests[rid], ch)).requests)
  {
    NextMoveKeepsRequest(w, s.shared, rid, s.requests[rid], ch);
  }

  lemma OtherStepKeepsRequests(w: World, s: State, step: Step)
    requires Other(s, step)
    ensures RequestsKept(s.requests, Otherwise(w, s, step).requests)
  {
    match step
    case Fail(_) =>
    case Crash =>
    case Query(_) =>
    case _ =>
  }

  lemma StepKeepsRequests(w: World, s: State, step: Step)
    requires RequestsOk(w, s) && Enabled(w, s, step)
    ensures RequestsKept(s.requests, Do(w, s, step).requests)
  {
    if step.Advance? {
      assert RequestOk(w, s.shared, step.rid, s.requests[step.rid], Intact(s));
      AdvanceKeepsRequests(w, s, step.rid, step.choice);
    } else {
      OtherStepKeepsRequests(w, s, step);
    }
  }

  lemma {:induction false} RunKeepsRequests(w: World, s: State, steps: seq<Step>, s': State)
    requires Faithful(w.codec) && Inv(w, s) && Reaches(w, s, steps, s')
    ensures RequestsKept(s.requests, s'.requests)
    decreases |steps|
  {
    if steps != [] {
      StepKeepsRequests(w, s, steps[0]);
      StepKeepsInv(w, s, steps[0]);
      RunKeepsRequests(w, Do(w, s, steps[0]), steps[1..], s');
    }
  }

  lemma AdvanceExtendsDb(w: World, s: State, rid: Rid, ch: Choice)
    requires Faithful(w.codec) && Inv(w, s) && Enabled(w, s, Advance(rid, ch))
    ensures Extends(s.shared.db, Act(s, rid, NextMove(w, s.shared, rid, s.requests[rid], ch)).shared.db)
  {
    AdvanceIsSound(w, s, rid, ch);
    EffectKeepsDb(w, s.shared, rid, s.requests[rid], NextMove(w, s.shared, rid, s.requests[rid], ch).effect);
  }

  lemma OnlyWritesChangeDb(w: World, s: State, step: Step)
    requires Other(s, step) && !step.OtherWrite?
    ensures Otherwise(w, s, step).shared.db == s.shared.db
  {
    match step
    case Fail(_) =>
    case Crash =>
    case Query(_) =>
    case _ =>
  }

  lemma OtherStepExtendsDb(w: World, s: State, step: Step)
    requires Valid(w.hash, s.shared.db) && Other(s, step)
    ensures Extends(s.shared.db, Otherwise(w, s, step).shared.db)
  {
    if step.OtherWrite? {
      ApplyExtends(w.hash, s.shared.db, step.op);
    } else {
      OnlyWritesChangeDb(w, s, step);
      ExtendsReflexive(w.hash, s.shared.db);
    }
  }

  lemma StepExtendsDb(w: World, s: State, step: Step)
    requires Faithful(w.codec) && Inv(w, s) && Enabled(w, s, step)
    ensures Extends(s.shared.db, Do(w, s, step).shared.db)
  {
    if step.Advance? {
      AdvanceExtendsDb(w, s, step.rid, step.choice);
    } else {
      OtherStepExtendsDb(w, s, step);
    }
  }

  lemma AdvanceKeepsBlobs(w: World, s: State, rid: Rid, ch: Choice)
    requires Faithful(w.codec) && Inv(w, s) && Enabled(w, s, Advance(rid, ch))
    ensures Frozen(s.shared.volume.blobs,
                   Act(s, rid, NextMove(w, s.shared, rid, s.requests[rid], ch)).shared.volume.blobs)
  {
    AdvanceIsSound(w, s, rid, ch);
    EffectKeepsBlobs(w, s.shared, rid, s.requests[rid], NextMove(w, s.shared, rid, s.requests[rid], ch).effect);
  }

  /** Someone other than the service changes what is on the volume. */
  predicate Outside(step: Step) { step.LoseVolume? || step.Corrupt? }

  lemma OtherStepKeepsBlobs(w: World, s: State, step: Step)
    requires Other(s, step) && !Outside(step)
    ensures Otherwise(w, s, step).shared.volume.blobs == s.shared.volume.blobs
  {
    match step
    case Fail(_) =>
    case Crash =>
    case Query(_) =>
    case _ =>
  }

  /** Crashes, restarts and any number of concurrent uploads included, a blob that is on the
      volume keeps its bytes; only loss or corruption from outside takes them away. */
  lemma {:induction false} BlobsAreWrittenOnce(w: World, s: State, steps: seq<Step>, s': State)
    requires Faithful(w.codec) && Inv(w, s) && Reaches(w, s, steps, s')
    requires forall i :: 0 <= i < |steps| ==> !Outside(steps[i])
    ensures Frozen(s.shared.volume.blobs, s'.shared.volume.blobs)
    decreases |steps|
  {
    if steps != [] {
      StepKeepsInv(w, s, steps[0]);
      if steps[0].Advance? {
        AdvanceKeepsBlobs(w, s, steps[0].rid, steps[0].choice);
      } else {
        OtherStepKeepsBlobs(w, s, steps[0]);
      }
      BlobsAreWrittenOnce(w, Do(w, s, steps[0]), steps[1..], s');
    }
  }

  // ---------------------------------------------------------------------------
  // Concurrent registration under one key
  // ---------------------------------------------------------------------------

  /** The request was answered with the artifact `id`. */
  predicate AnsweredWith(requests: map<Rid, Request>, rid: Rid, id: string) {
    rid in requests && requests[rid].phase.Done?
    && requests[rid].phase.reply.ArtifactIs? && requests[rid].phase.reply.artifact.artifactId == id
  }

  lemma AnswerIsBound(w: World, s: State, rid: Rid, id: string, scope: Scope)
    requires Inv(w, s) && AnsweredWith(s.requests, rid, id) && ScopeOf(s.requests[rid].form) == Some(scope)
    ensures forall other :: Binds(s.shared.db.artifacts, other, scope) <==> other == id
  {
    assert RequestOk(w, s.shared, rid, s.requests[rid], Intact(s));
  }

  /** Although the replay lookup runs outside the transaction, all the successful requests under
      one `(producer, key)`, in whatever interleaving and however far apart in time, were given
      the same artifact id; the first answer stands, and one row carries the id. */
  lemma OneArtifactPerKey(w: World, s0: State, before: seq<Step>, s: State, after: seq<Step>, s': State,
                          i: Rid, id: string, j: Rid, id': string)
    requires Faithful(w.codec) && Initial(w, s0) && Reaches(w, s0, before, s) && Reaches(w, s, after, s')
    requires AnsweredWith(s.requests, i, id) && AnsweredWith(s'.requests, j, id')
    requires ScopeOf(s.requests[i].form).Some? && ScopeOf(s.requests[i].form) == ScopeOf(s'.requests[j].form)
    ensures id' == id && i in s'.requests && s'.requests[i] == s.requests[i]
    ensures forall other :: Binds(s'.shared.db.artifacts, other, ScopeOf(s.requests[i].form).value) <==> other == id
  {
    RunKeepsInv(w, s0, before, s);
    RunKeepsInv(w, s, after, s');
    RunKeepsRequests(w, s, after, s');
    var scope := ScopeOf(s.requests[i].form).value;
    AnswerIsBound(w, s', i, id, scope);
    AnswerIsBound(w, s', j, id', scope);
  }

  // ---------------------------------------------------------------------------
  // Orphans
  // ---------------------------------------------------------------------------

  predicate Minter(requests: map<Rid, Request>, rid: Rid, id: string) {
    rid in requests && requests[rid].minted == Some(id)
  }

  /** The content of a sidecar written for what `f` uploaded. */
  ghost predicate Describes(w: World, content: Bytes, f: Form, id: string) {
    exists now :: content == w.codec.encode(RecordFor(w.codec, f.upload, id, now))
  }

  /** The sidecar describes the upload of the request that drew its id. */
  ghost predicate SidecarOwned(w: World, s: State, id: string)
    requires id in s.shared.volume.sidecars
  {
    exists rid :: Minter(s.requests, rid, id) && Describes(w, s.shared.volume.sidecars[id], s.requests[rid].form, id)
  }

  /** The request that drew the row's id is the one whose scope the row is bound to. */
  ghost predicate RowOwned(s: State, id: string)
    requires id in s.shared.db.artifacts
  {
    exists rid :: Minter(s.requests, rid, id) && BoundAsSent(s.shared.db.artifacts[id], s.requests[rid].form)
  }

  predicate BoundAsSent(row: Row<ArtifactRecord>, f: Form) {
    row.binding.Some? ==> ScopeOf(f) == Some(row.binding.value.scope)
  }

  ghost predicate SidecarsOwned(w: World, s: State) {
    forall id :: id in s.shared.volume.sidecars ==> SidecarOwned(w, s, id)
  }

  ghost predicate Owned(w: World, s: State) {
    && SidecarsOwned(w, s)
    && (forall id :: id in s.shared.db.artifacts ==> RowOwned(s, id))
  }

  lemma SidecarStaysOwned(w: World, s: State, s': State, id: string)
    requires RequestsKept(s.requests, s'.requests) && id in s.shared.volume.sidecars && SidecarOwned(w, s, id)
    requires id in s'.shared.volume.sidecars && s'.shared.volume.sidecars[id] == s.shared.volume.sidecars[id]
    ensures SidecarOwned(w, s', id)
  {
    var rid :| Minter(s.requests, rid, id) && Describes(w, s.shared.volume.sidecars[id], s.requests[rid].form, id);
    assert Minter(s'.requests, rid, id);
  }

  lemma RowStaysOwned(s: State, s': State, id: string)
    requires RequestsKept(s.requests, s'.requests) && id in s.shared.db.artifacts && id in s'.shared.db.artifacts
    requires RowOwned(s, id) && ArtifactKept(s.shared.db.artifacts[id], s'.shared.db.artifacts[id])
    ensures RowOwned(s', id)
  {
    var rid :| Minter(s.requests, rid, id) && BoundAsSent(s.shared.db.artifacts[id], s.requests[rid].form);
    assert Minter(s'.requests, rid, id);
  }

  lemma NewRowIsBoundAsSent(w: World, sh: Shared, rid: Rid, r: Request, ch: Choice, id: string)
    requires RecordOk(w, sh, r) && KeyOk(sh, r)
    requires NextMove(w, sh, rid, r, ch).effect.Store?
    requires id in NextMove(w, sh, rid, r, ch).effect.after.artifacts && id !in sh.db.artifacts
    ensures r.minted == Some(id) && BoundAsSent(NextMove(w, sh, rid, r, ch).effect.after.artifacts[id], r.form)
  {
    RegisterAddsOwnRow(w.hash, sh.db, r.form, Offered(r), id);
    if r.phase.Replaying? { BoundScopeWritesNothing(w.hash, sh.db, r.form, Offered(r)); }
  }

  lemma PlacedSidecarIsOwn(w: World, sh: Shared, rid: Rid, r: Request, id: string)
    requires RecordOk(w, sh, r) && FilesAllowed(w, sh, rid, r, PlaceSidecar(id))
    ensures r.minted == Some(id) && id in Effected(sh, rid, PlaceSidecar(id)).volume.sidecars
    ensures Describes(w, Effected(sh, rid, PlaceSidecar(id)).volume.sidecars[id], r.form, id)
  {
    assert r.phase.record == RecordFor(w.codec, r.form.upload, id, r.phase.record.registeredAt);
  }

  lemma OtherSidecarsStay(w: World, sh: Shared, rid: Rid, e: Effect, id: string)
    requires id in Effected(sh, rid, e).volume.sidecars && e != PlaceSidecar(id)
    ensures id in sh.volume.sidecars && Effected(sh, rid, e).volume.sidecars[id] == sh.volume.sidecars[id]
  {
  }

  lemma AdvanceOwnsSidecars(w: World, s: State, rid: Rid, m: Move)
    requires rid in s.requests && SidecarsOwned(w, s) && RecordOk(w, s.shared, s.requests[rid])
    requires Allowed(w, s.shared, rid, s.requests[rid], m.effect) && RequestsKept(s.requests, Act(s, rid, m).requests)
    ensures SidecarsOwned(w, Act(s, rid, m))
  {
    var s' := Act(s, rid, m);
    forall id | id in s'.shared.volume.sidecars ensures SidecarOwned(w, s', id) {
      if m.effect == PlaceSidecar(id) {
        PlacedSidecarIsOwn(w, s.shared, rid, s.requests[rid], id);
        assert Minter(s'.requests, rid, id);
      } else {
        OtherSidecarsStay(w, s.shared, rid, m.effect, id);
        SidecarStaysOwned(w, s, s', id);
      }
    }
  }

  ghost predicate NewRowsOwn(sh: Shared, r: Request, e: Effect) {
    e.Store? ==> forall id :: id in e.after.artifacts && id !in sh.db.artifacts ==>
      r.minted == Some(id) && BoundAsSent(e.after.artifacts[id], r.form)
  }

  lemma AdvanceOwnsRows(w: World, s: State, rid: Rid, m: Move)
    requires rid in s.requests && Owned(w, s) && NewRowsOwn(s.shared, s.requests[rid], m.effect)
    requires RequestsKept(s.requests, Act(s, rid, m).requests)
    requires ArtifactsKept(s.shared.db.artifacts, Act(s, rid, m).shared.db.artifacts)
    ensures forall id :: id in Act(s, rid, m).shared.db.artifacts ==> RowOwned(Act(s, rid, m), id)
  {
    var s' := Act(s, rid, m);
    forall id | id in s'.shared.db.artifacts ensures RowOwned(s', id) {
      if id in s.shared.db.artifacts {
        RowStaysOwned(s, s', id);
      } else {
        assert Minter(s'.requests, rid, id);
      }
    }
  }

  lemma NewRowsAreOwn(w: World, sh: Shared, rid: Rid, r: Request, ch: Choice)
    requires RecordOk(w, sh, r) && KeyOk(sh, r)
    ensures NewRowsOwn(sh, r, NextMove(w, sh, rid, r, ch).effect)
  {
    var e := NextMove(w, sh, rid, r, ch).effect;
    if e.Store? {
      forall id | id in e.after.artifacts && id !in sh.db.artifacts
        ensures r.minted == Some(id) && BoundAsSent(e.after.artifacts[id], r.form)
      {
        NewRowIsBoundAsSent(w, sh, rid, r, ch, id);
      }
    }
  }

  lemma AdvanceOwns(w: World, s: State, rid: Rid, ch: Choice)
    requires Faithful(w.codec) && Inv(w, s) && Owned(w, s) && Enabled(w, s, Advance(rid, ch))
    ensures Owned(w, Act(s, rid, NextMove(w, s.shared, rid, s.requests[rid], ch)))
  {
    var r, m := s.requests[rid], NextMove(w, s.shared, rid, s.requests[rid], ch);
    assert RequestOk(w, s.shared, rid, r, Intact(s));
    AdvanceKeepsRequests(w, s, rid, ch);
    AdvanceExtendsDb(w, s, rid, ch);
    AdvanceIsSound(w, s, rid, ch);
    NewRowsAreOwn(w, s.shared, rid, r, ch);
    AdvanceOwnsSidecars(w, s, rid, m);
    AdvanceOwnsRows(w, s, rid, m);
  }

  lemma OtherStepKeepsSidecars(w: World, s: State, step: Step)
    requires Other(s, step) && !step.LoseVolume?
    ensures Otherwise(w, s, step).shared.volume.sidecars == s.shared.volume.sidecars
  {
    match step
    case Fail(_) =>
    case Crash =>
    case Query(_) =>
    case _ =>
  }

  lemma StepAddsNoSidecar(w: World, s: State, step: Step)
    requires Other(s, step)
    ensures Frozen(Otherwise(w, s, step).shared.volume.sidecars, s.shared.volume.sidecars)
  {
    if !step.LoseVolume? { OtherStepKeepsSidecars(w, s, step); }
  }

  lemma StepAddsNoRow(w: World, s: State, step: Step)
    requires Other(s, step)
    ensures Otherwise(w, s, step).shared.db.artifacts.Keys <= s.shared.db.artifacts.Keys
  {
    if step.OtherWrite? {
      OtherWriteAddsNoRow(w.hash, s.shared.db, step.op);
    } else {
      OnlyWritesChangeDb(w, s, step);
    }
  }

  lemma OtherStepOwns(w: World, s: State, s': State)
    requires Owned(w, s) && RequestsKept(s.requests, s'.requests) && Extends(s.shared.db, s'.shared.db)
    requires Frozen(s'.shared.volume.sidecars, s.shared.volume.sidecars)
    requires s'.shared.db.artifacts.Keys <= s.shared.db.artifacts.Keys
    ensures Owned(w, s')
  {
    forall id | id in s'.shared.volume.sidecars ensures SidecarOwned(w, s', id) { SidecarStaysOwned(w, s, s', id); }
    forall id | id in s'.shared.db.artifacts ensures RowOwned(s', id) {
      assert id in s.shared.db.artifacts && ArtifactKept(s.shared.db.artifacts[id], s'.shared.db.artifacts[id]);
      RowStaysOwned(s, s', id);
    }
  }

  lemma StepKeepsOwned(w: World, s: State, step: Step)
    requires Faithful(w.codec) && Inv(w, s) && Owned(w, s) && Enabled(w, s, step)
    ensures Owned(w, Do(w, s, step))
  {
    if step.Advance? {
      AdvanceOwns(w, s, step.rid, step.choice);
    } else {
      StepKeepsRequests(w, s, step);
      StepExtendsDb(w, s, step);
      StepAddsNoSidecar(w, s, step);
      StepAddsNoRow(w, s, step);
      OtherStepOwns(w, s, Do(w, s, step));
    }
  }

  lemma {:induction false} RunKeepsOwned(w: World, s: State, steps: seq<Step>, s': State)
    requires Faithful(w.codec) && Inv(w, s) && Owned(w, s) && Reaches(w, s, steps, s')
    ensures Owned(w, s')
    decreases |steps|
  {
    if steps != [] {
      StepKeepsOwned(w, s, steps[0]);
      StepKeepsInv(w, s, steps[0]);
      RunKeepsOwned(w, Do(w, s, steps[0]), steps[1..], s');
    }
  }

  ghost predicate MintedUnder(requests: map<Rid, Request>, id: string, scope: Scope) {
    exists rid :: Minter(requests, rid, id) && ScopeOf(requests[rid].form) == Some(scope)
  }

  /** Sidecars written for the scope that no row in the metadata names. */
  ghost function Orphans(s: State, scope: Scope): set<string> {
    set id | id in s.shared.volume.sidecars && id !in s.shared.db.artifacts && MintedUnder(s.requests, id, scope)
  }

  /** The requests under the scope whose replay lookup found nothing. */
  function MissedUnder(s: State, scope: Scope): set<Rid> {
    set rid | rid in s.requests && s.requests[rid].missed && ScopeOf(s.requests[rid].form) == Some(scope)
  }

  ghost predicate IsBound(s: State, scope: Scope) { exists id :: Binds(s.shared.db.artifacts, id, scope) }

  /** What the requests of a set drew. */
  function Drawn(requests: map<Rid, Request>, rids: set<Rid>): set<string>
    requires rids <= requests.Keys
  {
    set rid | rid in rids && requests[rid].minted.Some? :: requests[rid].minted.value
  }

  lemma {:induction false} EachDrawsAtMostOne(requests: map<Rid, Request>, rids: set<Rid>)
    requires rids <= requests.Keys
    ensures |Drawn(requests, rids)| <= |rids|
    decreases |rids|
  {
    if rids != {} {
      var rid :| rid in rids;
      var rest := rids - {rid};
      EachDrawsAtMostOne(requests, rest);
      if requests[rid].minted.Some? {
        assert Drawn(requests, rids) == Drawn(requests, rest) + {requests[rid].minted.value};
      } else {
        assert Drawn(requests, rids) == Drawn(requests, rest);
      }
    }
  }

  lemma MintedIsDrawn(w: World, s: State, id: string, scope: Scope)
    requires RequestsOk(w, s) && MintedUnder(s.requests, id, scope)
    ensures id in Drawn(s.requests, MissedUnder(s, scope))
  {
    var rid :| Minter(s.requests, rid, id) && ScopeOf(s.requests[rid].form) == Some(scope);
    assert RequestOk(w, s.shared, rid, s.requests[rid], Intact(s));
    assert rid in MissedUnder(s, scope);
  }

  lemma BoundRowIsMinted(w: World, s: State, id: string, scope: Scope)
    requires Owned(w, s) && Binds(s.shared.db.artifacts, id, scope)
    ensures MintedUnder(s.requests, id, scope)
  {
    assert RowOwned(s, id);
    var rid :| Minter(s.requests, rid, id) && BoundAsSent(s.shared.db.artifacts[id], s.requests[rid].form);
  }

  lemma OrphansFitTheMisses(w: World, s: State, scope: Scope)
    requires RequestsOk(w, s) && Owned(w, s)
    ensures |Orphans(s, scope)| + (if IsBound(s, scope) then 1 else 0) <= |MissedUnder(s, scope)|
  {
    var drawn := Drawn(s.requests, MissedUnder(s, scope));
    EachDrawsAtMostOne(s.requests, MissedUnder(s, scope));
    forall id | id in Orphans(s, scope) ensures id in drawn { MintedIsDrawn(w, s, id, scope); }
    if IsBound(s, scope) {
      var row :| Binds(s.shared.db.artifacts, row, scope);
      BoundRowIsMinted(w, s, row, scope);
      MintedIsDrawn(w, s, row, scope);
      OneMoreFits(Orphans(s, scope), row, drawn);
    } else {
      SubsetIsNoLarger(Orphans(s, scope), drawn);
    }
  }

  lemma OneMoreFits(a: set<string>, x: string, b: set<string>)
    requires x !in a && x in b && forall y :: y in a ==> y in b
    ensures |a| + 1 <= |b|
  {
    SubsetIsNoLarger(a + {x}, b);
  }

  /** Once the scope is bound, no lookup under it misses. */
  lemma BoundLookUpDoesNotMiss(w: World, sh: Shared, rid: Rid, r: Request, ch: Choice, scope: Scope)
    requires ScopeOf(r.form) == Some(scope) && (exists id :: Binds(sh.db.artifacts, id, scope)) && !r.missed
    requires RecordOk(w, sh, r) && !Inactive(r.phase)
    ensures !NextMove(w, sh, rid, r, ch).next.missed
  {
    if r.phase.Arrived? { assert FindByScope(sh.db.artifacts, scope).Some?; }
  }

  lemma OtherStepAddsNoMiss(w: World, s: State, step: Step, scope: Scope)
    requires Other(s, step)
    ensures MissedUnder(Otherwise(w, s, step), scope) == MissedUnder(s, scope)
  {
  }

  lemma AdvanceAddsNoMiss(w: World, s: State, rid: Rid, ch: Choice, scope: Scope)
    requires RequestsOk(w, s) && Enabled(w, s, Advance(rid, ch)) && IsBound(s, scope)
    ensures MissedUnder(Act(s, rid, NextMove(w, s.shared, rid, s.requests[rid], ch)), scope) == MissedUnder(s, scope)
  {
    var r, m := s.requests[rid], NextMove(w, s.shared, rid, s.requests[rid], ch);
    assert RequestOk(w, s.shared, rid, r, Intact(s));
    NextMoveKeepsRequest(w, s.shared, rid, r, ch);
    if ScopeOf(r.form) == Some(scope) && !r.missed { BoundLookUpDoesNotMiss(w, s.shared, rid, r, ch, scope); }
    SameMisses(s, Act(s, rid, m), rid, scope);
  }

  lemma SameMisses(s: State, s': State, rid: Rid, scope: Scope)
    requires rid in s.requests && rid in s'.requests && s'.requests == s.requests[rid := s'.requests[rid]]
    requires s'.requests[rid].form == s.requests[rid].form
    requires ScopeOf(s.requests[rid].form) == Some(scope) ==> s'.requests[rid].missed == s.requests[rid].missed
    ensures MissedUnder(s', scope) == MissedUnder(s, scope)
  {
  }

  lemma StepKeepsBound(w: World, s: State, step: Step, scope: Scope)
    requires Faithful(w.codec) && Inv(w, s) && Enabled(w, s, step) && IsBound(s, scope)
    ensures IsBound(Do(w, s, step), scope)
  {
    var id :| Binds(s.shared.db.artifacts, id, scope);
    StepExtendsDb(w, s, step);
    BindsForever(s.shared.db, Do(w, s, step).shared.db, id, scope);
  }

  lemma {:induction false} MissesEndWithTheBinding(w: World, s: State, steps: seq<Step>, s': State, scope: Scope)
    requires Faithful(w.codec) && Inv(w, s) && Reaches(w, s, steps, s') && IsBound(s, scope)
    ensures MissedUnder(s', scope) == MissedUnder(s, scope) && IsBound(s', scope)
    decreases |steps|
  {
    if steps != [] {
      var s1 := Do(w, s, steps[0]);
      StepKeepsInv(w, s, steps[0]);
      StepKeepsBound(w, s, steps[0], scope);
      if steps[0].Advance? {
        AdvanceAddsNoMiss(w, s, steps[0].rid, steps[0].choice, scope);
      } else {
        OtherStepAddsNoMiss(w, s, steps[0], scope);
      }
      MissesEndWithTheBinding(w, s1, steps[1..], s', scope);
    }
  }

  /** Orphan sidecars are bounded.  However long the service runs on after a scope was first
      bound, and however many more requests arrive under it, its orphans and the one registered
      artifact together number at most the requests whose lookup preceded that first commit. */
  lemma OrphansBounded(w: World, s0: State, before: seq<Step>, s: State, after: seq<Step>, s': State, scope: Scope)
    requires Faithful(w.codec) && Initial(w, s0) && Reaches(w, s0, before, s) && Reaches(w, s, after, s')
    requires IsBound(s, scope)
    ensures |Orphans(s', scope)| + 1 <= |MissedUnder(s, scope)|
  {
    RunKeepsInv(w, s0, before, s);
    RunKeepsOwned(w, s0, before, s);
    RunKeepsInv(w, s, after, s');
    RunKeepsOwned(w, s, after, s');
    MissesEndWithTheBinding(w, s, after, s', scope);
    OrphansFitTheMisses(w, s', scope);
  }

  lemma LateLookUpIsQuiet(w: World, sh: Shared, r: Request, ch: Choice)
    requires ScopeBound(sh.db, r.form)
    ensures var m := LookUp(w, sh, r, ch); m.effect.Quiet? && (m.next.phase.Done? || m.next.phase.Replaying?)
  {
    assert FindByScope(sh.db.artifacts, ScopeOf(r.form).value).Some?;
  }

  lemma ReplayIsQuiet(w: World, sh: Shared, r: Request, ch: Choice)
    requires r.phase.Replaying? && ScopeBound(sh.db, r.form)
    ensures var m := Register(w, sh, r, r.phase.candidate, ch);
      m.next.phase.Done? && (m.effect.Quiet? || m.effect == Store(sh.db))
  {
    BoundScopeWritesNothing(w.hash, sh.db, r.form, r.phase.candidate);
  }

  /** A retry or a conflict that arrives after the binding writes nothing at all: neither its
      lookup nor its registration changes a file, the lock, a flag or a row. */
  lemma LateRequestWritesNothing(w: World, sh: Shared, rid: Rid, r: Request, ch: Choice)
    requires KeyOk(sh, r) && (r.phase.Replaying? || (r.phase.Arrived? && ScopeBound(sh.db, r.form)))
    ensures var m := NextMove(w, sh, rid, r, ch);
            Effected(sh, rid, m.effect) == sh && (m.next.phase.Done? || m.next.phase.Replaying?)
  {
    if r.phase.Replaying? { ReplayIsQuiet(w, sh, r, ch); } else { LateLookUpIsQuiet(w, sh, r, ch); }
  }

  // ---------------------------------------------------------------------------
  // A lost volume
  // ---------------------------------------------------------------------------

  lemma OtherStepKeepsMarkerAway(w: World, s: State, step: Step)
    requires StartupOk(s) && Other(s, step)
    requires !s.shared.volume.marker && s.shared.db.artifacts != map[]
    ensures !Otherwise(w, s, step).shared.volume.marker
  {
    match step
    case Fail(_) =>
    case Crash =>
    case Query(_) =>
    case _ =>
  }

  /** A request that makes the marker over asserted artifacts has rebuilt the layout. */
  lemma MoveKeepsMarkerAway(s: State, rid: Rid, m: Move)
    requires !s.shared.volume.marker && s.shared.db.artifacts != map[] && !Act(s, rid, m).rebuilt
    ensures !Act(s, rid, m).shared.volume.marker
  {
    assert !m.effect.MakeMarker?;
    EffectKeepsMarker(s.shared, rid, m.effect);
  }

  lemma AssertedStaysAsserted(db: Db, db': Db)
    requires db.artifacts != map[] && Extends(db, db')
    ensures db'.artifacts != map[]
  {
    var id :| id in db.artifacts;
    assert id in db'.artifacts;
  }

  lemma StepStaysLost(w: World, s: State, step: Step)
    requires StartupOk(s) && Enabled(w, s, step) && !Do(w, s, step).rebuilt
    requires !s.shared.volume.marker && s.shared.db.artifacts != map[]
    ensures !Do(w, s, step).shared.volume.marker
  {
    if step.Advance? {
      MoveKeepsMarkerAway(s, step.rid, NextMove(w, s.shared, step.rid, s.requests[step.rid], step.choice));
    } else {
      OtherStepKeepsMarkerAway(w, s, step);
    }
  }

  lemma RebuildingIsRemembered(w: World, s: State, step: Step)
    requires Enabled(w, s, step) && s.rebuilt
    ensures Do(w, s, step).rebuilt
  {
  }

  lemma {:induction false} RebuildingIsNotForgotten(w: World, s: State, steps: seq<Step>, s': State)
    requires Reaches(w, s, steps, s') && s.rebuilt
    ensures s'.rebuilt
    decreases |steps|
  {
    if steps != [] {
      RebuildingIsRemembered(w, s, steps[0]);
      RebuildingIsNotForgotten(w, Do(w, s, steps[0]), steps[1..], s');
    }
  }

  lemma {:induction false} LossPersists(w: World, s: State, steps: seq<Step>, s': State)
    requires Faithful(w.codec) && Inv(w, s) && Reaches(w, s, steps, s') && !s'.rebuilt
    requires !s.shared.volume.marker && s.shared.db.artifacts != map[]
    ensures !s'.shared.volume.marker
    decreases |steps|
  {
    if steps != [] {
      var s1 := Do(w, s, steps[0]);
      if s1.rebuilt { RebuildingIsNotForgotten(w, s1, steps[1..], s'); }
      StepKeepsInv(w, s, steps[0]);
      StepStaysLost(w, s, steps[0]);
      StepExtendsDb(w, s, steps[0]);
      AssertedStaysAsserted(s.shared.db, s1.shared.db);
      LossPersists(w, s1, steps[1..], s');
    }
  }

  /** A volume that is gone while the metadata asserts artifacts stays gone: unless a request makes
      the marker anew, which none does when every startup query is answered, no request, no retry,
      no health probe and no restart makes the service ready again over it. */
  lemma LostStaysLost(w: World, s0: State, before: seq<Step>, s: State, after: seq<Step>, s': State)
    requires Faithful(w.codec) && Initial(w, s0) && Reaches(w, s0, before, s) && Reaches(w, s, after, s')
    requires !s.shared.volume.marker && s.shared.db.artifacts != map[] && (!s'.rebuilt || s'.allAnswered)
    ensures !s'.shared.volume.marker && !ArtifactStoreReady(s')
  {
    RunKeepsInv(w, s0, before, s);
    RunKeepsInv(w, s, after, s');
    LossPersists(w, s, after, s');
  }
}
