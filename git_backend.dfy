/** The collaborators the git service talks to, which are not part of this
    model: the simple-git library (and the git executable behind it) and
    Node's `fs` module. They are modelled as one object whose fields are the
    repository and the workspace as those libraries would report them, plus
    a fault schedule saying which call throws and with what message, and a
    log of every call made to them. */
module GitBackend {
  import opened JsRuntime

  /** One entry of `git remote -v`: a remote's name and fetch URL (an empty
      URL stands for a remote listed without a fetch ref). */
  datatype Remote = Remote(name: string, fetchUrl: string)

  datatype Rename = Rename(from: string, to: string)

  /** What simple-git's `status()` reports. */
  datatype RawStatus = RawStatus(
    current: string,
    staged: seq<string>,
    modified: seq<string>,
    notAdded: seq<string>,
    created: seq<string>,
    deleted: seq<string>,
    renamed: seq<Rename>,
    ahead: nat,
    behind: nat,
    clean: bool)

  datatype CommitSummary = CommitSummary(changes: nat, insertions: nat, deletions: nat)

  /** What simple-git's `commit()` reports. */
  datatype CommitReport = CommitReport(commit: string, summary: CommitSummary)

  /** What simple-git's `push()` reports. */
  datatype PushReport = PushReport(pushed: seq<string>, remoteMessages: seq<string>)

  /** The git commands the service issues. */
  datatype Command =
    | Init
    | Status
    | Add(path: string)
    | Reset(args: seq<string>)
    | Commit(message: Option<string>)
    | Push(remote: string, branch: string)
    | GetRemotes(verbose: bool)
    | SetUrl(name: string, url: string)
    | AddRemote(name: string, url: string)

  /** One call into git or the file system. */
  datatype Event = Git(command: Command) | ReadFile(path: string) | WriteFile(path: string)

  const NotARepositoryMessage := "fatal: not a git repository (or any of the parent directories): .git"

  /** The message of the error fs.readFileSync throws for a missing file. */
  function NoSuchFile(path: string): string {
    "ENOENT: no such file or directory, open '" + path + "'"
  }

  /** `git remote set-url name url`: every remote called `name` gets the new
      URL; the list keeps its order and its other entries. */
  function ReplaceUrl(remotes: seq<Remote>, name: string, url: string): (r: seq<Remote>)
    ensures |r| == |remotes|
    ensures forall i :: 0 <= i < |r| ==>
      r[i] == if remotes[i].name == name then Remote(name, url) else remotes[i]
  {
    seq(|remotes|, i requires 0 <= i < |remotes| =>
      if remotes[i].name == name then Remote(name, url) else remotes[i])
  }

  class Backend {
    /** Whether the directory holds a repository; outside one every git
        command except `init` fails. */
    var repo: bool
    var status: RawStatus
    var remotes: seq<Remote>
    /** The workspace: file contents by path. */
    var files: map<string, string>
    var commitReport: CommitReport
    var pushReport: PushReport
    /** The git call made as event number i of the log throws faults[i]. */
    var faults: map<nat, string>
    var log: seq<Event>

    constructor (repo: bool, status: RawStatus, remotes: seq<Remote>, files: map<string, string>,
                 commitReport: CommitReport, pushReport: PushReport, faults: map<nat, string>)
      ensures this.repo == repo && this.status == status && this.remotes == remotes
      ensures this.files == files && this.commitReport == commitReport
      ensures this.pushReport == pushReport && this.faults == faults && log == []
    {
      this.repo := repo;
      this.status := status;
      this.remotes := remotes;
      this.files := files;
      this.commitReport := commitReport;
      this.pushReport := pushReport;
      this.faults := faults;
      log := [];
    }

    /** The error that `c` throws if it is issued as event number `at`. */
    function RefusalAt(at: nat, c: Command): Option<string>
      reads this
    {
      if !repo && !c.Init? then Some(NotARepositoryMessage)
      else if at in faults then Some(faults[at])
      else None
    }

    /** The error that `c` throws if it is issued next. */
    function Refusal(c: Command): Option<string>
      reads this
    {
      RefusalAt(|log|, c)
    }

    /** What `git status` gives if it is issued next. */
    function StatusReply(): Try<RawStatus>
      reads this
    {
      Attempt(Refusal(Status), status)
    }

    method Run(c: Command) returns (err: Option<string>)
      modifies this`log
      ensures log == old(log) + [Git(c)]
      ensures err == old(Refusal(c))
    {
      err := Refusal(c);
      log := log + [Git(c)];
    }

    method InitRepo() returns (r: Try<()>)
      modifies this`log, this`repo
      ensures log == old(log) + [Git(Init)]
      ensures r == Attempt(old(Refusal(Init)), ())
      ensures repo == (old(repo) || r.Returned?)
    {
      var err := Run(Init);
      r := Attempt(err, ());
      if r.Returned? {
        repo := true;
      }
    }

    method ReadStatus() returns (r: Try<RawStatus>)
      modifies this`log
      ensures log == old(log) + [Git(Status)]
      ensures r == old(StatusReply())
    {
      var err := Run(Status);
      r := Attempt(err, status);
    }

    method AddPath(path: string) returns (r: Try<()>)
      modifies this`log
      ensures log == old(log) + [Git(Add(path))]
      ensures r == Attempt(old(Refusal(Add(path))), ())
    {
      var err := Run(Add(path));
      r := Attempt(err, ());
    }

    method ResetPaths(args: seq<string>) returns (r: Try<()>)
      modifies this`log
      ensures log == old(log) + [Git(Reset(args))]
      ensures r == Attempt(old(Refusal(Reset(args))), ())
    {
      var err := Run(Reset(args));
      r := Attempt(err, ());
    }

    method CommitStaged(message: Option<string>) returns (r: Try<CommitReport>)
      modifies this`log
      ensures log == old(log) + [Git(Commit(message))]
      ensures r == Attempt(old(Refusal(Commit(message))), commitReport)
    {
      var err := Run(Commit(message));
      r := Attempt(err, commitReport);
    }

    method PushTo(remote: string, branch: string) returns (r: Try<PushReport>)
      modifies this`log
      ensures log == old(log) + [Git(Push(remote, branch))]
      ensures r == Attempt(old(Refusal(Push(remote, branch))), pushReport)
    {
      var err := Run(Push(remote, branch));
      r := Attempt(err, pushReport);
    }

    method ListRemotes(verbose: bool) returns (r: Try<seq<Remote>>)
      modifies this`log
      ensures log == old(log) + [Git(GetRemotes(verbose))]
      ensures r == Attempt(old(Refusal(GetRemotes(verbose))), remotes)
    {
      var err := Run(GetRemotes(verbose));
      r := Attempt(err, remotes);
    }

    method SetRemoteUrl(name: string, url: string) returns (r: Try<()>)
      modifies this`log, this`remotes
      ensures log == old(log) + [Git(SetUrl(name, url))]
      ensures r == Attempt(old(Refusal(SetUrl(name, url))), ())
      ensures remotes == if r.Returned? then ReplaceUrl(old(remotes), name, url) else old(remotes)
    {
      var err := Run(SetUrl(name, url));
      r := Attempt(err, ());
      if r.Returned? {
        remotes := ReplaceUrl(remotes, name, url);
      }
    }

    method AddRemoteUrl(name: string, url: string) returns (r: Try<()>)
      modifies this`log, this`remotes
      ensures log == old(log) + [Git(AddRemote(name, url))]
      ensures r == Attempt(old(Refusal(AddRemote(name, url))), ())
      ensures remotes == if r.Returned? then old(remotes) + [Remote(name, url)] else old(remotes)
    {
      var err := Run(AddRemote(name, url));
      r := Attempt(err, ());
      if r.Returned? {
        remotes := remotes + [Remote(name, url)];
      }
    }

    /** fs.existsSync */
    method Exists(path: string) returns (b: bool)
      ensures b <==> path in files
    {
      b := path in files;
    }

    /** fs.readFileSync(path, 'utf8') */
    method Read(path: string) returns (r: Try<string>)
      modifies this`log
      ensures log == old(log) + [ReadFile(path)]
      ensures r == if path in files then Returned(files[path]) else Threw(NoSuchFile(path))
    {
      log := log + [ReadFile(path)];
      r := if path in files then Returned(files[path]) else Threw(NoSuchFile(path));
    }

    /** fs.writeFileSync(path, content) */
    method Write(path: string, content: string)
      modifies this`log, this`files
      ensures log == old(log) + [WriteFile(path)]
      ensures files == old(files)[path := content]
    {
      log := log + [WriteFile(path)];
      files := files[path := content];
    }
  }
}
