/** The startup decision over both stores: an artifact volume that is not healthy is initialised
    only when the metadata says that no artifact was ever registered. */
module Startup {
  import opened Wrappers
  import opened Volumes
  import FsStore
  import opened Service

  /** `holdsArtifacts` is the metadata store's answer to `query_artifacts(limit=1)`, `None` when it
      could not be asked. */
  function Decision(fs: FsStore.Fs, writable: bool, holdsArtifacts: Option<bool>): FsStore.Fs {
    var (probed, health) := FsStore.ProbeHealth(fs, writable);
    if health.Ok? then probed
    else if holdsArtifacts == Some(false) then FsStore.Initialise(probed)
    else if holdsArtifacts == Some(true) then probed.(initialised := true)
    else probed
  }

  method InitialiseArtifactStoreIfSafe(store: FsStore.FilesystemArtifactStore, writable: bool,
                                       holdsArtifacts: Option<bool>)
    modifies store
    ensures store.State() == Decision(old(store.State()), writable, holdsArtifacts)
    ensures store.volume.blobs == old(store.volume).blobs && store.volume.sidecars == old(store.volume).sidecars
    ensures BackingPresent(store.volume) <==> BackingPresent(old(store.volume)) || holdsArtifacts == Some(false)
    ensures !BackingPresent(store.volume) ==> store.volume == old(store.volume)
    ensures store.volume ==
      if holdsArtifacts == Some(false)
      then old(store.volume).(root := true, blobsDir := true, indexDir := true, marker := true) else old(store.volume)
    ensures store.initialised <==>
      old(store.initialised) || BackingPresent(store.volume) || holdsArtifacts == Some(true)
  {
    var health := store.CheckHealth(writable);
    if health.Ok? { return; }
    if holdsArtifacts == Some(false) {
      store.InitialiseStore();
      return;
    }
    if holdsArtifacts == Some(true) {
      store.MarkPreviouslyInitialised();
      return;
    }
  }

  // ---------------------------------------------------------------------------
  // The service starts by this decision
  // ---------------------------------------------------------------------------

  /** The startup steps of the service, when nothing interrupts them. */
  function Started(s: State, writable: bool, answered: bool): State {
    var booted := BootNow(s, writable);
    if booted.process.Serving? then booted
    else
      var decided := DecideStartup(booted, answered);
      if decided.process.Serving? then decided else MarkerNow(LayoutNow(decided))
  }

  function StartupSteps(s: State, writable: bool, answered: bool): seq<Step> {
    if BootNow(s, writable).process.Serving? then [Boot(writable)]
    else if DecideStartup(BootNow(s, writable), answered).process.Serving? then [Boot(writable), Query(answered)]
    else [Boot(writable), Query(answered), CreateLayout, CreateMarker]
  }

  lemma LayoutIsCreated(w: World, s: State, s': State)
    requires s.process.Creating? && s' == MarkerNow(LayoutNow(s))
    ensures Reaches(w, s, [CreateLayout, CreateMarker], s')
  {
    assert Reaches(w, s', [], s');
    Unroll(w, LayoutNow(s), CreateMarker, [], s');
    Unroll(w, s, CreateLayout, [CreateMarker], s');
  }

  lemma StartedIsReached(w: World, s: State, writable: bool, answered: bool)
    requires s.process.Down?
    ensures Reaches(w, s, StartupSteps(s, writable, answered), Started(s, writable, answered))
  {
    var s1, s' := BootNow(s, writable), Started(s, writable, answered);
    if s1.process.Serving? {
      assert Reaches(w, s', [], s');
      Unroll(w, s, Boot(writable), [], s');
    } else {
      DecisionIsReached(w, s1, answered, s');
      var rest := if DecideStartup(s1, answered).process.Serving? then [] else [CreateLayout, CreateMarker];
      Unroll(w, s, Boot(writable), [Query(answered)] + rest, s');
    }
  }

  lemma DecisionIsReached(w: World, s: State, answered: bool, s': State)
    requires s.process.Deciding?
    requires var decided := DecideStartup(s, answered);
      s' == if decided.process.Serving? then decided else MarkerNow(LayoutNow(decided))
    ensures Reaches(w, s, [Query(answered)] + (if DecideStartup(s, answered).process.Serving? then []
                                               else [CreateLayout, CreateMarker]), s')
  {
    var decided := DecideStartup(s, answered);
    if decided.process.Serving? {
      assert Reaches(w, s', [], s');
      Unroll(w, s, Query(answered), [], s');
    } else {
      LayoutIsCreated(w, decided, s');
      Unroll(w, s, Query(answered), [CreateLayout, CreateMarker], s');
    }
  }

  function AnswerOf(s: State, answered: bool): Option<bool> {
    if answered then Some(s.shared.db.artifacts != map[]) else None
  }

  /** Uninterrupted, the service's startup steps leave the volume and the flag that the decision
      leaves when it is applied to a newly constructed store. */
  lemma StartupIsTheDecision(s: State, writable: bool, answered: bool)
    requires s.process.Down?
    ensures var s' := Started(s, writable, answered);
      && FsStore.Fs(s'.shared.volume, s'.shared.initialised)
           == Decision(FsStore.Fs(s.shared.volume, BackingPresent(s.shared.volume)), writable, AnswerOf(s, answered))
      && s'.process.Serving? && s'.shared.db == s.shared.db
  {
  }

  /** A health probe of the service does to the store object what `health` does. */
  lemma ProbeIsHealth(s: State, writable: bool)
    ensures var s' := ProbeNow(s);
      FsStore.Fs(s'.shared.volume, s'.shared.initialised)
        == FsStore.ProbeHealth(FsStore.Fs(s.shared.volume, s.shared.initialised), writable).0
  {
  }
}
