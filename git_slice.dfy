/** The git slice of the renderer's Redux store
    (packages/bruno-app/src/providers/ReduxStore/slices/git/index.js): a
    map from collection uid to that collection's git state, plus two global
    flags about the git executable. Every reducer assigns fields of one
    entry in place; all but initializeGitState leave the store alone when
    the uid has no entry. */
module GitSlice {
  import opened JsRuntime

  /** One collection's git state. */
  datatype GitState = GitState(
    collectionPath: string,
    enabled: bool,
    initialized: bool,
    remote: Option<string>,
    branch: Option<string>,
    stagedFiles: seq<string>,
    modifiedFiles: seq<string>,
    pendingChanges: nat,
    lastSync: Option<string>,
    syncing: bool,
    error: Option<string>,
    autoStage: bool)

  /** The entry initializeGitState installs. */
  function Fresh(collectionPath: string): (g: GitState)
    ensures g.collectionPath == collectionPath
    ensures !g.enabled && !g.initialized && !g.syncing && g.autoStage
    ensures g.remote.None? && g.lastSync.None? && g.error.None?
    ensures g.branch == Some("main")
    ensures g.stagedFiles == [] && g.modifiedFiles == [] && g.pendingChanges == 0
  {
    GitState(collectionPath, false, false, None, Some("main"), [], [], 0, None, false, None, true)
  }

  /** The `status` payload of updateGitStatus; any field may be missing. */
  datatype StatusPayload = StatusPayload(
    branch: Option<string>,
    staged: Option<seq<string>>,
    modified: Option<seq<string>>)

  /** `list || []` */
  function OrEmpty(list: Option<seq<string>>): seq<string> {
    if list.Some? then list.value else []
  }

  /** The change a per-collection reducer makes to an existing entry. */
  datatype EntryUpdate =
    | UpdateStatus(status: StatusPayload)
    | SetEnabled(enabled: bool)
    | SetSyncing(syncing: bool)
    | SetError(error: Option<string>)
    | SetRemote(remote: Option<string>)
    | SetLastSync(now: string)

  /** The entry after one reducer; `pendingChanges` is recomputed from the
      payload's lists, a missing list counting as empty. */
  function Apply(g: GitState, u: EntryUpdate): GitState {
    match u
    case UpdateStatus(s) =>
      g.(branch := s.branch,
         stagedFiles := OrEmpty(s.staged),
         modifiedFiles := OrEmpty(s.modified),
         pendingChanges := |OrEmpty(s.staged)| + |OrEmpty(s.modified)|,
         initialized := true)
    case SetEnabled(b) => g.(enabled := b)
    case SetSyncing(b) => g.(syncing := b)
    case SetError(e) => g.(error := e, syncing := false)
    case SetRemote(r) => g.(remote := r)
    case SetLastSync(now) => g.(lastSync := Some(now), syncing := false, error := None)
  }

  /** The pending count agrees with the two lists it counts. */
  predicate Consistent(g: GitState) {
    g.pendingChanges == |g.stagedFiles| + |g.modifiedFiles|
  }

  predicate AllConsistent(collections: map<string, GitState>) {
    forall uid :: uid in collections ==> Consistent(collections[uid])
  }

  /** The collections after a per-collection reducer for `uid`. */
  function Updated(collections: map<string, GitState>, uid: string, u: EntryUpdate): map<string, GitState> {
    if uid in collections then collections[uid := Apply(collections[uid], u)] else collections
  }

  /** A fresh entry is consistent, every status update makes its entry
      consistent whatever it was before, and every other reducer keeps it
      so. */
  lemma ApplyKeepsConsistent(g: GitState, u: EntryUpdate)
    ensures Consistent(Fresh(g.collectionPath))
    ensures u.UpdateStatus? ==> Consistent(Apply(g, u))
    ensures Consistent(g) ==> Consistent(Apply(g, u))
  {
  }

  /** updateGitStatus counts exactly the files it stores, a missing list as
      none, and marks the entry initialized. */
  lemma UpdateStatusCounts(g: GitState, s: StatusPayload)
    ensures var h := Apply(g, UpdateStatus(s));
      && h.pendingChanges == (if s.staged.Some? then |s.staged.value| else 0)
                             + (if s.modified.Some? then |s.modified.value| else 0)
      && h.initialized
      && h.branch == s.branch
  {
  }

  /** No reducer but initializeGitState sets `initialized` back to false. */
  lemma InitializedStays(g: GitState, u: EntryUpdate)
    requires g.initialized
    ensures Apply(g, u).initialized
  {
  }

  /** An error or a completed sync ends syncing; a completed sync clears
      the error and stamps the time. */
  lemma SyncEnds(g: GitState, e: Option<string>, now: string)
    ensures !Apply(g, SetError(e)).syncing && Apply(g, SetError(e)).error == e
    ensures var h := Apply(g, SetLastSync(now)); !h.syncing && h.error.None? && h.lastSync == Some(now)
  {
  }

  /** setGitEnabled changes `enabled` and nothing else. */
  lemma SetEnabledOnlyEnabled(g: GitState, b: bool)
    ensures Apply(g, SetEnabled(b)).enabled == b
    ensures Apply(g, SetEnabled(b)).(enabled := g.enabled) == g
  {
  }

  /** A reducer for `uid` does nothing when `uid` has no entry, never adds
      or removes an entry, and never touches another uid's entry. */
  lemma UpdatedOnlyOwnEntry(collections: map<string, GitState>, uid: string, u: EntryUpdate, other: string)
    requires other != uid
    ensures uid !in collections ==> Updated(collections, uid, u) == collections
    ensures Updated(collections, uid, u).Keys == collections.Keys
    ensures other in collections ==> Updated(collections, uid, u)[other] == collections[other]
  {
  }

  lemma {:induction false} UpdatedKeepsConsistent(collections: map<string, GitState>, uid: string, u: EntryUpdate)
    requires AllConsistent(collections)
    ensures AllConsistent(Updated(collections, uid, u))
  {
    if uid in collections {
      ApplyKeepsConsistent(collections[uid], u);
    }
  }

  class GitSliceState {
    var collections: map<string, GitState>
    /** Whether git is installed; null until checked. */
    var gitInstalled: Option<bool>
    var checkingGitInstalled: bool

    /** Every entry's pending count agrees with its lists. */
    predicate Valid()
      reads this
    {
      AllConsistent(collections)
    }

    /** The initial state. */
    constructor ()
      ensures collections == map[] && gitInstalled.None? && !checkingGitInstalled
      ensures Valid()
    {
      collections := map[];
      gitInstalled := None;
      checkingGitInstalled := false;
    }

    method SetGitInstalled(installed: Option<bool>)
      modifies this`gitInstalled
      ensures gitInstalled == installed
    {
      gitInstalled := installed;
    }

    method SetCheckingGitInstalled(checking: bool)
      modifies this`checkingGitInstalled
      ensures checkingGitInstalled == checking
    {
      checkingGitInstalled := checking;
    }

    /** Overwrites the entry for `uid` with the defaults, whatever was there. */
    method InitializeGitState(uid: string, collectionPath: string)
      requires Valid()
      modifies this`collections
      ensures collections == old(collections)[uid := Fresh(collectionPath)]
      ensures Valid()
    {
      collections := collections[uid := Fresh(collectionPath)];
    }

    /** The shared shape of the per-collection reducers. */
    method UpdateEntry(uid: string, u: EntryUpdate)
      requires Valid()
      modifies this`collections
      ensures collections == Updated(old(collections), uid, u)
      ensures Valid()
    {
      UpdatedKeepsConsistent(collections, uid, u);
      if uid in collections {
        collections := collections[uid := Apply(collections[uid], u)];
      }
    }

    method UpdateGitStatus(uid: string, status: StatusPayload)
      requires Valid()
      modifies this`collections
      ensures collections == Updated(old(collections), uid, UpdateStatus(status))
      ensures Valid()
    {
      UpdateEntry(uid, UpdateStatus(status));
    }

    method SetGitEnabled(uid: string, enabled: bool)
      requires Valid()
      modifies this`collections
      ensures collections == Updated(old(collections), uid, SetEnabled(enabled))
      ensures Valid()
    {
      UpdateEntry(uid, SetEnabled(enabled));
    }

    method SetGitSyncing(uid: string, syncing: bool)
      requires Valid()
      modifies this`collections
      ensures collections == Updated(old(collections), uid, SetSyncing(syncing))
      ensures Valid()
    {
      UpdateEntry(uid, SetSyncing(syncing));
    }

    method SetGitError(uid: string, error: Option<string>)
      requires Valid()
      modifies this`collections
      ensures collections == Updated(old(collections), uid, SetError(error))
      ensures Valid()
    {
      UpdateEntry(uid, SetError(error));
    }

    method SetGitRemote(uid: string, remote: Option<string>)
      requires Valid()
      modifies this`collections
      ensures collections == Updated(old(collections), uid, SetRemote(remote))
      ensures Valid()
    {
      UpdateEntry(uid, SetRemote(remote));
    }

    /** setLastSync, with `now` standing for `new Date().toISOString()`. */
    method SetLastSyncAt(uid: string, now: string)
      requires Valid()
      modifies this`collections
      ensures collections == Updated(old(collections), uid, SetLastSync(now))
      ensures Valid()
    {
      UpdateEntry(uid, SetLastSync(now));
    }

    /** Removes exactly the entry for `uid`. */
    method ClearGitState(uid: string)
      requires Valid()
      modifies this`collections
      ensures collections == old(collections) - {uid}
      ensures Valid()
    {
      collections := collections - {uid};
    }
  }
}
