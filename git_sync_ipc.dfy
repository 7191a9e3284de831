/** The IPC handlers of packages/bruno-electron/src/ipc/git-sync.js that
    drive git sync: each runs a short sequence of git-service calls and
    config-store updates, and turns every thrown error into a failure reply
    instead of letting it escape. */
module GitSyncIpc {
  import opened JsRuntime
  import opened GitBackend
  import opened GitService
  import opened GitConfig

  /** What a handler resolves to. */
  datatype Reply =
    | Failure(error: string)                               // { success: false, error }
    | Done                                                 // { success: true }
    | StatusOk(status: StatusSnapshot)                     // { success: true, status }
    | CommitOutcome(result: CommitResult)                  // what gitService.commit returned
    | CommitAndPushOk(commit: CommitResult, push: PushReport)
    | RemoteOk(url: Option<string>)                        // { success: true, url }
  {
    /** The `success` field of the reply. */
    predicate Succeeded() {
      match this
      case Failure(_) => false
      case CommitOutcome(r) => r.Committed?
      case _ => true
    }
  }

  const NotARepository := "Not a git repository"
  const MessageRequired := "Commit message is required"

  /** `!message || message.trim().length === 0`. */
  predicate MessageMissing(message: Option<string>) {
    !Truthy(message) || |Trim(message.value)| == 0
  }

  /** A message is refused exactly when it is absent or all whitespace. */
  lemma MessageMissingMeansBlank(message: Option<string>)
    ensures MessageMissing(message) <==> message.None? || AllWhitespace(message.value)
  {
  }

  /** The record the init handler saves. */
  const InitConfig: Config := map["enabled" := Flag(true), "initialized" := Flag(true), "autoStage" := Flag(true)]

  /** `getGitConfig(path) || {}` with `remote` set to the URL. */
  function RemoteConfig(existing: Option<Config>, url: string): Config {
    (if existing.Some? then existing.value else map[])["remote" := Text(url)]
  }

  /** The set-remote handler's net effect on the stored record: the
      stored record with `remote` and `updatedAt` replaced, every other
      field kept. */
  lemma SetRemoteConfigEffect(configs: map<string, Config>, path: string, url: string, now: string)
    ensures var after := Stored(configs, path, RemoteConfig(Lookup(configs, path), url), now)[path];
      && after == Merged(Lookup(configs, path), map["remote" := Text(url)], now)
      && after["remote"] == Text(url)
      && forall k :: path in configs && k in configs[path] && k != "remote" && k != UpdatedAt
                     ==> k in after && after[k] == configs[path][k]
  {
    var previous := Lookup(configs, path);
    var a := Merged(previous, RemoteConfig(previous, url), now);
    var b := Merged(previous, map["remote" := Text(url)], now);
    assert a.Keys == b.Keys;
  }

  /** renderer:git-init */
  method HandleInit(git: Backend, store: GitConfigStore, path: string, now: string) returns (reply: Reply)
    modifies git`log, git`repo, git`files, store
    ensures git.repo == (old(git.repo) || old(git.Refusal(Init)).None?)
    ensures git.log == old(git.log) + [Git(Init)]
                       + (if old(git.Refusal(Init)).None? && GitignorePath(path) !in old(git.files)
                          then [WriteFile(GitignorePath(path))] else [])
    ensures git.files == if old(git.Refusal(Init)).None? then WithGitignore(old(git.files), path) else old(git.files)
    ensures match old(git.Refusal(Init))
            case Some(m) => reply == Failure(m) && store.gitConfigs == old(store.gitConfigs)
            case None => reply == Done && store.gitConfigs == Stored(old(store.gitConfigs), path, InitConfig, now)
  {
    var result := InitializeRepo(git, path);
    if result.Threw? {
      return Failure(result.message);
    }
    store.SetGitConfig(path, InitConfig, now);
    reply := Done;
  }

  /** renderer:git-status: `git status` once to probe for a repository,
      then again through getStatus. */
  method HandleStatus(git: Backend, path: string) returns (reply: Reply)
    modifies git`log
    ensures match old(git.StatusReply())
            case Threw(_) =>
              reply == Failure(NotARepository) && git.log == old(git.log) + [Git(Status)]
            case Returned(_) =>
              && git.log == old(git.log) + [Git(Status), Git(Status)]
              && reply == match old(git.RefusalAt(|git.log| + 1, Status))
                          case Some(m) => Failure(m)
                          case None => StatusOk(Reconcile(git.status))
  {
    var isRepo := IsGitRepo(git);
    if !isRepo {
      return Failure(NotARepository);
    }
    var status := GetStatus(git);
    match status
    case Threw(m) => reply := Failure(m);
    case Returned(s) => reply := StatusOk(s);
  }

  /** renderer:git-commit */
  method HandleCommit(git: Backend, path: string, message: Option<string>, test: Matcher) returns (reply: Reply)
    modifies git`log
    ensures MessageMissing(message) ==> reply == Failure(MessageRequired) && git.log == old(git.log)
    ensures !MessageMissing(message) ==>
      && git.log == old(git.log) + old(CommitLog(git, path, message, test))
      && reply == match old(CommitSpec(git, path, message, test))
                  case Threw(m) => Failure(m)
                  case Returned(c) => CommitOutcome(c)
  {
    if MessageMissing(message) {
      return Failure(MessageRequired);
    }
    var result := GitService.Commit(git, path, message, test);
    match result
    case Threw(m) => reply := Failure(m);
    case Returned(c) => reply := CommitOutcome(c);
  }

  /** renderer:git-commit-and-push: the commit, then the push only if the
      commit succeeded. There is no message check here. */
  method HandleCommitAndPush(git: Backend, path: string, message: Option<string>,
                             remote: Option<string>, branch: Option<string>, test: Matcher) returns (reply: Reply)
    modifies git`log
    ensures reply.Succeeded() ==>
      && reply.CommitAndPushOk?
      && git.log == old(git.log) + old(CommitLog(git, path, message, test))
                    + [Git(Command.Push(OrDefault(remote, "origin"), OrDefault(branch, "main")))]
    ensures var pushed := Command.Push(OrDefault(remote, "origin"), OrDefault(branch, "main"));
      match old(CommitSpec(git, path, message, test))
      case Threw(m) =>
        reply == Failure(m) && git.log == old(git.log) + old(CommitLog(git, path, message, test))
      case Returned(c) =>
        if c.SecretsFound? then
          reply == CommitOutcome(c) && git.log == old(git.log) + old(CommitLog(git, path, message, test))
        else
          && git.log == old(git.log) + old(CommitLog(git, path, message, test)) + [Git(pushed)]
          && reply == match old(git.RefusalAt(|git.log| + |CommitLog(git, path, message, test)|, pushed))
                      case Some(m) => Failure(m)
                      case None => CommitAndPushOk(c, git.pushReport)
  {
    var commitResult := GitService.Commit(git, path, message, test);
    if commitResult.Threw? {
      return Failure(commitResult.message);
    }
    if !commitResult.value.Committed? {
      return CommitOutcome(commitResult.value);
    }
    var pushResult := GitService.Push(git, remote, branch);
    match pushResult
    case Threw(m) => reply := Failure(m);
    case Returned(p) => reply := CommitAndPushOk(commitResult.value, p);
  }

  /** renderer:git-set-remote: the remote first, the stored record only
      once that succeeded. */
  method HandleSetRemote(git: Backend, store: GitConfigStore, path: string, name: string, url: string, now: string)
    returns (reply: Reply)
    modifies git`log, git`remotes, store
    ensures git.log == old(git.log) + old(SetRemoteLog(git, name, url))
    ensures match old(SetRemoteError(git, name, url))
            case Some(m) =>
              && reply == Failure(m)
              && git.remotes == old(git.remotes)
              && store.gitConfigs == old(store.gitConfigs)
            case None =>
              && reply == Done
              && git.remotes == Upsert(old(git.remotes), name, url)
              && store.gitConfigs == Stored(old(store.gitConfigs), path,
                                            RemoteConfig(Lookup(old(store.gitConfigs), path), url), now)
  {
    var result := SetRemote(git, name, url);
    if result.Threw? {
      return Failure(result.message);
    }
    var existing := store.GetGitConfig(path);
    var config := RemoteConfig(existing, url);
    store.SetGitConfig(path, config, now);
    reply := Done;
  }

  /** renderer:git-get-remote */
  method HandleGetRemote(git: Backend, path: string, name: string) returns (reply: Reply)
    modifies git`log
    ensures git.log == old(git.log) + [Git(GetRemotes(true))]
    ensures reply == match old(git.Refusal(GetRemotes(true)))
                     case Some(m) => Failure(m)
                     case None => RemoteOk(RemoteUrl(git.remotes, name))
  {
    var url := GetRemote(git, name);
    match url
    case Threw(m) => reply := Failure(m);
    case Returned(u) => reply := RemoteOk(u);
  }
}
