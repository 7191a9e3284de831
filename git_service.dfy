/** GitService (packages/bruno-electron/src/git/git-service.js): status
    reconciliation, the secrets gate in front of every commit, remote
    upsert and lookup, the default .gitignore and the path handling of
    stage/unstage. Every method takes the backend (simple-git and fs) as an
    object and the collection directory as `root`. */
module GitService {
  import opened JsRuntime
  import opened NodePath
  import opened GitBackend

  // ---------------------------------------------------------------------
  // Status reconciliation (getStatus)
  // ---------------------------------------------------------------------

  /** The status object getStatus resolves to. */
  datatype StatusSnapshot = StatusSnapshot(
    branch: string,
    staged: seq<string>,
    modified: seq<string>,
    created: seq<string>,
    deleted: seq<string>,
    renamed: seq<Rename>,
    ahead: nat,
    behind: nat,
    isClean: bool)

  /** `files.filter((file) => !stagedFiles.has(file))`. */
  function WithoutStaged(files: seq<string>, staged: set<string>): (r: seq<string>)
    ensures |r| <= |files|
    ensures forall f :: f in r <==> f in files && f !in staged
  {
    if files == [] then []
    else (if files[0] in staged then [] else [files[0]]) + WithoutStaged(files[1..], staged)
  }

  /** Filtering keeps order: filtering a concatenation filters each part. */
  lemma {:induction false} WithoutStagedAppend(a: seq<string>, b: seq<string>, staged: set<string>)
    ensures WithoutStaged(a + b, staged) == WithoutStaged(a, staged) + WithoutStaged(b, staged)
  {
    if a == [] {
      assert a + b == b;
    } else {
      assert (a + b)[0] == a[0] && (a + b)[1..] == a[1..] + b;
      WithoutStagedAppend(a[1..], b, staged);
    }
  }

  /** Filtering is not a set operation: an unstaged path keeps every one of
      its occurrences, a staged path loses all of them. */
  lemma {:induction false} WithoutStagedCount(files: seq<string>, staged: set<string>, f: string)
    ensures multiset(WithoutStaged(files, staged))[f] == if f in staged then 0 else multiset(files)[f]
  {
    if files != [] {
      WithoutStagedCount(files[1..], staged, f);
      var head: seq<string> := if files[0] in staged then [] else [files[0]];
      assert WithoutStaged(files, staged) == head + WithoutStaged(files[1..], staged);
      assert files == [files[0]] + files[1..];
      assert multiset(files) == multiset([files[0]]) + multiset(files[1..]);
    }
  }

  /** With nothing staged among them, every path passes, in order. */
  lemma {:induction false} WithoutStagedKeepsAll(files: seq<string>, staged: set<string>)
    requires forall i :: 0 <= i < |files| ==> files[i] !in staged
    ensures WithoutStaged(files, staged) == files
  {
    if files != [] {
      WithoutStagedKeepsAll(files[1..], staged);
    }
  }

  /** The snapshot getStatus builds from `git status`: the modified list is
      the modified files followed by the untracked ones, less every staged
      path; everything else passes through. */
  function Reconcile(raw: RawStatus): (s: StatusSnapshot)
    ensures s.branch == raw.current && s.staged == raw.staged
    ensures s.created == raw.created && s.deleted == raw.deleted && s.renamed == raw.renamed
    ensures s.ahead == raw.ahead && s.behind == raw.behind && s.isClean == raw.clean
    ensures forall f :: f in s.modified ==> f !in s.staged
    ensures forall f :: f in s.modified <==> (f in raw.modified || f in raw.notAdded) && f !in raw.staged
    ensures var staged := set f | f in raw.staged;
      s.modified == WithoutStaged(raw.modified, staged) + WithoutStaged(raw.notAdded, staged)
  {
    var staged := set f | f in raw.staged;
    WithoutStagedAppend(raw.modified, raw.notAdded, staged);
    StatusSnapshot(raw.current, raw.staged, WithoutStaged(raw.modified + raw.notAdded, staged),
                   raw.created, raw.deleted, raw.renamed, raw.ahead, raw.behind, raw.clean)
  }

  /** isGitRepo: whether `git status` succeeds. */
  method IsGitRepo(git: Backend) returns (b: bool)
    modifies git`log
    ensures git.log == old(git.log) + [Git(Status)]
    ensures b <==> old(git.StatusReply()).Returned?
  {
    var st := git.ReadStatus();
    b := st.Returned?;
  }

  method GetStatus(git: Backend) returns (r: Try<StatusSnapshot>)
    modifies git`log
    ensures git.log == old(git.log) + [Git(Status)]
    ensures r == match old(git.StatusReply())
                 case Threw(m) => Threw(m)
                 case Returned(raw) => Returned(Reconcile(raw))
  {
    var st := git.ReadStatus();
    match st
    case Threw(m) => r := Threw(m);
    case Returned(raw) => r := Returned(Reconcile(raw));
  }

  // ---------------------------------------------------------------------
  // The secrets gate (scanForSecrets)
  // ---------------------------------------------------------------------

  datatype SecretKind = XApiKeyHeader | ApiKey | BearerToken | Password | SecretKey | ApiSecret

  /** A regular-expression literal: its source text and flags. */
  datatype Regex = Regex(source: string, flags: string)

  /** RegExp.prototype.test, which this model does not interpret. None of
      the patterns has the `g` flag, so a test has no effect. */
  type Matcher = (Regex, string) -> bool

  /** The pattern for each kind, as written in the source. The API Key
      pattern's class `[a-zA-Z0-Z0-9_-]` contains the range `0-Z`, so it
      also admits the characters `:;<=>?@`. */
  function Pattern(k: SecretKind): Regex {
    match k
    case XApiKeyHeader => Regex("x-api-key:\\s*[a-zA-Z0-9_-]{10,}", "i")
    case ApiKey => Regex("apikey:\\s*[a-zA-Z0-Z0-9_-]{10,}", "i")
    case BearerToken => Regex("authorization:\\s*bearer\\s+[a-zA-Z0-9_-]{10,}", "i")
    case Password => Regex("password:\\s*[^\\s]{5,}", "i")
    case SecretKey => Regex("secret[_-]?key:\\s*[a-zA-Z0-9_-]{10,}", "i")
    case ApiSecret => Regex("api[_-]?secret:\\s*[a-zA-Z0-9_-]{10,}", "i")
  }

  /** The `type` text of each kind. */
  function Label(k: SecretKind): string {
    match k
    case XApiKeyHeader => "X-API-Key header"
    case ApiKey => "API Key"
    case BearerToken => "Bearer token"
    case Password => "Password"
    case SecretKey => "Secret key"
    case ApiSecret => "API secret"
  }

  /** The pattern table, in the order the scan tries it. */
  const SecretPatterns: seq<SecretKind> :=
    [XApiKeyHeader, ApiKey, BearerToken, Password, SecretKey, ApiSecret]

  /** A kind's position in the pattern table. */
  function Rank(k: SecretKind): nat {
    match k
    case XApiKeyHeader => 0
    case ApiKey => 1
    case BearerToken => 2
    case Password => 3
    case SecretKey => 4
    case ApiSecret => 5
  }

  datatype SecretWarning = SecretWarning(file: string, kind: SecretKind)

  /** The warnings for one file: one per kind in `kinds` whose pattern
      matches the file's content, and no other. */
  function FileWarnings(file: string, content: string, test: Matcher, kinds: seq<SecretKind>): (ws: seq<SecretWarning>)
    ensures |ws| <= |kinds|
  {
    if kinds == [] then []
    else
      (if test(Pattern(kinds[0]), content) then [SecretWarning(file, kinds[0])] else [])
      + FileWarnings(file, content, test, kinds[1..])
  }

  /** Every warning for a file names that file, and a kind warns exactly
      when it is in `kinds` and its pattern matches. */
  lemma {:induction false} FileWarningsExact(file: string, content: string, test: Matcher, kinds: seq<SecretKind>)
    ensures forall w :: w in FileWarnings(file, content, test, kinds) ==> w.file == file
    ensures forall k :: SecretWarning(file, k) in FileWarnings(file, content, test, kinds)
                        <==> k in kinds && test(Pattern(k), content)
  {
    if kinds != [] {
      FileWarningsExact(file, content, test, kinds[1..]);
      assert forall k :: k in kinds <==> k == kinds[0] || k in kinds[1..];
    }
  }

  predicate AscendingKinds(kinds: seq<SecretKind>) {
    forall i, j :: 0 <= i < j < |kinds| ==> Rank(kinds[i]) < Rank(kinds[j])
  }

  predicate InTableOrder(ws: seq<SecretWarning>) {
    forall i, j :: 0 <= i < j < |ws| ==> Rank(ws[i].kind) < Rank(ws[j].kind)
  }

  /** Every warning for a file is of a kind from `kinds`, so a rank bound
      on the kinds bounds the warnings. */
  lemma {:induction false} FileWarningsAbove(file: string, content: string, test: Matcher, kinds: seq<SecretKind>, lo: int)
    requires forall k :: k in kinds ==> lo < Rank(k)
    ensures forall w :: w in FileWarnings(file, content, test, kinds) ==> lo < Rank(w.kind)
  {
    if kinds != [] {
      FileWarningsAbove(file, content, test, kinds[1..], lo);
      assert kinds[0] in kinds;
    }
  }

  /** Scanning kinds in table order yields warnings in table order. */
  lemma {:induction false} FileWarningsOrdered(file: string, content: string, test: Matcher, kinds: seq<SecretKind>)
    requires AscendingKinds(kinds)
    ensures InTableOrder(FileWarnings(file, content, test, kinds))
  {
    if kinds != [] {
      AscendingTail(kinds);
      FileWarningsOrdered(file, content, test, kinds[1..]);
      FileWarningsAbove(file, content, test, kinds[1..], Rank(kinds[0]));
      var head: seq<SecretWarning> := if test(Pattern(kinds[0]), content) then [SecretWarning(file, kinds[0])] else [];
      OrderedCons(head, FileWarnings(file, content, test, kinds[1..]), Rank(kinds[0]));
    }
  }

  /** The kinds after the first of an ascending list are ascending and all
      rank above it. */
  lemma AscendingTail(kinds: seq<SecretKind>)
    requires kinds != [] && AscendingKinds(kinds)
    ensures AscendingKinds(kinds[1..])
    ensures forall k :: k in kinds[1..] ==> Rank(kinds[0]) < Rank(k)
  {
    forall k | k in kinds[1..] ensures Rank(kinds[0]) < Rank(k) {
      var i :| 0 <= i < |kinds[1..]| && kinds[1..][i] == k;
      assert kinds[1..][i] == kinds[i + 1];
    }
  }

  /** At most one warning of rank `lo` before ordered warnings of higher
      rank keeps the order. */
  lemma OrderedCons(head: seq<SecretWarning>, rest: seq<SecretWarning>, lo: int)
    requires |head| <= 1 && forall w :: w in head ==> Rank(w.kind) == lo
    requires InTableOrder(rest) && forall w :: w in rest ==> lo < Rank(w.kind)
    ensures InTableOrder(head + rest)
  {
    var ws := head + rest;
    forall i, j | 0 <= i < j < |ws| ensures Rank(ws[i].kind) < Rank(ws[j].kind) {
      if i < |head| {
        assert ws[i] in head && ws[j] == rest[j - |head|] && ws[j] in rest;
      } else {
        assert ws[i] == rest[i - |head|] && ws[j] == rest[j - |head|];
      }
    }
  }

  lemma InTable(k: SecretKind)
    ensures k in SecretPatterns
  {
    assert SecretPatterns[Rank(k)] == k;
  }

  /** One file yields at most one warning per pattern, exactly for the
      patterns that match its content, in the order of the table. */
  lemma OneFileWarnings(file: string, content: string, test: Matcher)
    ensures var ws := FileWarnings(file, content, test, SecretPatterns);
      && |ws| <= 6
      && InTableOrder(ws)
      && (forall k :: SecretWarning(file, k) in ws <==> test(Pattern(k), content))
  {
    FileWarningsOrdered(file, content, test, SecretPatterns);
    FileWarningsExact(file, content, test, SecretPatterns);
    forall k ensures k in SecretPatterns {
      InTable(k);
    }
  }

  /** The scan from the staged file `pending[0]` on, with `found` the
      warnings so far: files not ending in `.bru` are skipped, a missing
      file makes readFileSync throw. */
  function ScanFrom(root: string, pending: seq<string>, files: map<string, string>, test: Matcher,
                    found: seq<SecretWarning>): Try<seq<SecretWarning>>
    decreases |pending|
  {
    if pending == [] then Returned(found)
    else if !EndsWith(pending[0], ".bru") then ScanFrom(root, pending[1..], files, test, found)
    else
      var path := JoinPath(root, pending[0]);
      if path !in files then Threw(NoSuchFile(path))
      else ScanFrom(root, pending[1..], files, test,
                    found + FileWarnings(pending[0], files[path], test, SecretPatterns))
  }

  /** The warnings for the staged list, grouped by file in staged order. */
  function Scan(root: string, staged: seq<string>, files: map<string, string>, test: Matcher): Try<seq<SecretWarning>> {
    ScanFrom(root, staged, files, test, [])
  }

  /** The files the scan reads, in order, up to the first missing one. */
  function ScanReads(root: string, pending: seq<string>, files: map<string, string>): seq<Event>
    decreases |pending|
  {
    if pending == [] then []
    else if !EndsWith(pending[0], ".bru") then ScanReads(root, pending[1..], files)
    else
      var path := JoinPath(root, pending[0]);
      [ReadFile(path)] + (if path in files then ScanReads(root, pending[1..], files) else [])
  }

  /** The paths of the staged `.bru` files. */
  function BruPaths(root: string, staged: seq<string>): set<string> {
    set f | f in staged && EndsWith(f, ".bru") :: JoinPath(root, f)
  }

  lemma {:induction false} ScanFromWarnings(root: string, pending: seq<string>, files: map<string, string>,
                                            test: Matcher, found: seq<SecretWarning>)
    ensures var r := ScanFrom(root, pending, files, test, found);
      r.Returned? ==> forall w :: w in r.value ==> w in found || (w.file in pending && EndsWith(w.file, ".bru"))
    decreases |pending|
  {
    if pending != [] {
      var path := JoinPath(root, pending[0]);
      if !EndsWith(pending[0], ".bru") {
        ScanFromWarnings(root, pending[1..], files, test, found);
      } else if path in files {
        FileWarningsExact(pending[0], files[path], test, SecretPatterns);
        ScanFromWarnings(root, pending[1..], files, test,
                         found + FileWarnings(pending[0], files[path], test, SecretPatterns));
      }
    }
  }

  /** Every warning names a staged file ending in `.bru`. */
  lemma ScanWarnsOnlyStagedBru(root: string, staged: seq<string>, files: map<string, string>, test: Matcher)
    ensures var r := Scan(root, staged, files, test);
      r.Returned? ==> forall w :: w in r.value ==> w.file in staged && EndsWith(w.file, ".bru")
  {
    ScanFromWarnings(root, staged, files, test, []);
  }

  lemma {:induction false} ScanReadsInside(root: string, pending: seq<string>, files: map<string, string>)
    ensures forall e :: e in ScanReads(root, pending, files) ==> e.ReadFile? && e.path in BruPaths(root, pending)
    decreases |pending|
  {
    if pending != [] {
      ScanReadsInside(root, pending[1..], files);
      assert BruPaths(root, pending[1..]) <= BruPaths(root, pending);
    }
  }

  /** The scan reads only staged `.bru` files. */
  lemma ScanReadsOnlyStagedBru(root: string, staged: seq<string>, files: map<string, string>)
    ensures forall e :: e in ScanReads(root, staged, files) ==>
      e.ReadFile? && exists f :: f in staged && EndsWith(f, ".bru") && e.path == JoinPath(root, f)
  {
    ScanReadsInside(root, staged, files);
  }

  predicate AgreeOn(paths: set<string>, a: map<string, string>, b: map<string, string>) {
    forall p :: p in paths ==> (p in a <==> p in b) && (p in a ==> a[p] == b[p])
  }

  /** Nothing outside the staged `.bru` files affects the scan: two
      workspaces that agree on those files give the same warnings and the
      same reads. */
  lemma {:induction false} ScanDependsOnlyOnStagedBru(root: string, pending: seq<string>, a: map<string, string>,
                                                      b: map<string, string>, test: Matcher, found: seq<SecretWarning>)
    requires AgreeOn(BruPaths(root, pending), a, b)
    ensures ScanFrom(root, pending, a, test, found) == ScanFrom(root, pending, b, test, found)
    ensures ScanReads(root, pending, a) == ScanReads(root, pending, b)
    decreases |pending|
  {
    if pending != [] {
      assert BruPaths(root, pending[1..]) <= BruPaths(root, pending);
      var path := JoinPath(root, pending[0]);
      if EndsWith(pending[0], ".bru") {
        assert path in BruPaths(root, pending);
        if path in a {
          ScanDependsOnlyOnStagedBru(root, pending[1..], a, b, test,
                                     found + FileWarnings(pending[0], a[path], test, SecretPatterns));
        }
      } else {
        ScanDependsOnlyOnStagedBru(root, pending[1..], a, b, test, found);
      }
      ScanDependsOnlyOnStagedBru(root, pending[1..], a, b, test, []);
    }
  }

  /** What scanForSecrets resolves to, given the backend as it stands. */
  function SecretScan(git: Backend, root: string, test: Matcher): Try<seq<SecretWarning>>
    reads git
  {
    match git.StatusReply()
    case Threw(m) => Threw(m)
    case Returned(raw) => Scan(root, raw.staged, git.files, test)
  }

  /** The calls scanForSecrets makes: `git status`, then the reads. */
  function SecretScanLog(git: Backend, root: string): seq<Event>
    reads git
  {
    [Git(Status)] + match git.StatusReply()
                    case Threw(_) => []
                    case Returned(raw) => ScanReads(root, raw.staged, git.files)
  }

  /** The inner loop of scanForSecrets: every pattern of `kinds` tried,
      in order, on one file's content. */
  method ScanContent(file: string, content: string, test: Matcher, kinds: seq<SecretKind>) returns (ws: seq<SecretWarning>)
    ensures ws == FileWarnings(file, content, test, kinds)
  {
    ws := [];
    var j := 0;
    while j < |kinds|
      invariant 0 <= j <= |kinds|
      invariant ws + FileWarnings(file, content, test, kinds[j..]) == FileWarnings(file, content, test, kinds)
    {
      var kind := kinds[j];
      assert kinds[j..][1..] == kinds[j + 1..];
      if test(Pattern(kind), content) {
        ws := ws + [SecretWarning(file, kind)];
      }
      j := j + 1;
    }
    assert kinds[j..] == [];
  }

  method ScanForSecrets(git: Backend, root: string, test: Matcher) returns (r: Try<seq<SecretWarning>>)
    modifies git`log
    ensures r == old(SecretScan(git, root, test))
    ensures git.log == old(git.log) + old(SecretScanLog(git, root))
  {
    var st := git.ReadStatus();
    if st.Threw? {
      return Threw(st.message);
    }
    r := ScanStaged(git, root, st.value.staged, test);
  }

  /** The loop of scanForSecrets over the staged files. */
  method ScanStaged(git: Backend, root: string, staged: seq<string>, test: Matcher) returns (r: Try<seq<SecretWarning>>)
    modifies git`log
    ensures r == Scan(root, staged, git.files, test)
    ensures git.log == old(git.log) + ScanReads(root, staged, git.files)
  {
    var warnings: seq<SecretWarning> := [];
    ghost var done: seq<Event> := [];
    var i := 0;
    while i < |staged|
      invariant 0 <= i <= |staged|
      invariant ScanFrom(root, staged[i..], git.files, test, warnings) == Scan(root, staged, git.files, test)
      invariant done + ScanReads(root, staged[i..], git.files) == ScanReads(root, staged, git.files)
      invariant git.log == old(git.log) + done
    {
      var file := staged[i];
      assert staged[i..][0] == file && staged[i..][1..] == staged[i + 1..];
      if EndsWith(file, ".bru") {
        var path := JoinPath(root, file);
        var content := git.Read(path);
        assert ScanReads(root, staged[i..], git.files)
          == [ReadFile(path)] + (if path in git.files then ScanReads(root, staged[i + 1..], git.files) else []);
        done := done + [ReadFile(path)];
        if content.Threw? {
          return Threw(content.message);
        }
        var found := ScanContent(file, content.value, test, SecretPatterns);
        warnings := warnings + found;
      }
      i := i + 1;
    }
    assert staged[i..] == [];
    r := Returned(warnings);
  }

  // ---------------------------------------------------------------------
  // Gated commit (commit)
  // ---------------------------------------------------------------------

  /** What commit resolves to: the commit made, or the refusal with the
      warnings that caused it. */
  datatype CommitResult =
    | Committed(commit: string, summary: CommitSummary)
    | SecretsFound(error: string, warnings: seq<SecretWarning>)

  function WarningLine(w: SecretWarning): string {
    w.file + ": Potential " + Label(w.kind) + " detected"
  }

  function WarningLines(ws: seq<SecretWarning>): seq<string> {
    seq(|ws|, i requires 0 <= i < |ws| => WarningLine(ws[i]))
  }

  const SecretsHeading := "Potential secrets " + "detected in staged files:"
  const SecretsAdvice := "Please use environment " + "variables for sensitive data."

  /** The error message of a refused commit. */
  function SecretsMessage(ws: seq<SecretWarning>): string {
    SecretsHeading + "\n" + Join(WarningLines(ws), "\n") + "\n\n" + SecretsAdvice
  }

  lemma LabelOneLine(k: SecretKind)
    ensures '\n' !in Label(k)
  {
    match k
    case XApiKeyHeader => assert Label(k) == "X-API-Key header";
    case ApiKey => assert Label(k) == "API Key";
    case BearerToken => assert Label(k) == "Bearer token";
    case Password => assert Label(k) == "Password";
    case SecretKey => assert Label(k) == "Secret key";
    case ApiSecret => assert Label(k) == "API secret";
  }

  /** The lines of a refusal message, in order. */
  function SecretsMessageParts(ws: seq<SecretWarning>): seq<string> {
    [SecretsHeading] + WarningLines(ws) + ["", SecretsAdvice]
  }

  lemma JoinAfterHeading(heading: string, lines: seq<string>, sep: string)
    requires |lines| > 0
    ensures Join([heading] + lines, sep) == heading + sep + Join(lines, sep)
  {
    JoinAppend([heading], lines, sep);
  }

  lemma JoinBlankThenFooter(footer: string, sep: string)
    ensures Join(["", footer], sep) == sep + footer
  {
    assert Join(["", footer], sep) == "" + sep + Join([footer], sep);
  }

  /** A heading, some lines, a blank line and a footer, joined with `sep`. */
  lemma JoinFramed(heading: string, lines: seq<string>, footer: string, sep: string)
    requires |lines| > 0
    ensures Join([heading] + lines + ["", footer], sep) == (heading + sep + Join(lines, sep)) + sep + (sep + footer)
  {
    JoinAppend([heading] + lines, ["", footer], sep);
    JoinAfterHeading(heading, lines, sep);
    JoinBlankThenFooter(footer, sep);
  }

  lemma Regroup(x: string, s: string, f: string)
    ensures x + s + (s + f) == x + (s + s) + f
  {
  }

  lemma SecretsMessageJoin(ws: seq<SecretWarning>)
    requires |ws| > 0
    ensures Join(SecretsMessageParts(ws), "\n") == SecretsMessage(ws)
  {
    var lines := WarningLines(ws);
    JoinFramed(SecretsHeading, lines, SecretsAdvice, "\n");
    Regroup(SecretsHeading + "\n" + Join(lines, "\n"), "\n", SecretsAdvice);
    assert "\n" + "\n" == "\n\n";
  }

  lemma FixedLinesOneLine()
    ensures '\n' !in SecretsHeading && '\n' !in SecretsAdvice
  {
    assert '\n' !in "Potential secrets " && '\n' !in "detected in staged files:";
    assert '\n' !in "Please use environment " && '\n' !in "variables for sensitive data.";
  }

  /** A warning line is one line when its file name is. */
  lemma WarningLineOneLine(w: SecretWarning)
    requires '\n' !in w.file
    ensures '\n' !in WarningLine(w)
  {
    LabelOneLine(w.kind);
    assert '\n' !in ": Potential " && '\n' !in " detected";
  }

  lemma SecretsMessagePartsOneLine(ws: seq<SecretWarning>)
    requires forall i :: 0 <= i < |ws| ==> '\n' !in ws[i].file
    ensures forall i :: 0 <= i < |SecretsMessageParts(ws)| ==> '\n' !in SecretsMessageParts(ws)[i]
  {
    var parts := SecretsMessageParts(ws);
    var lines := WarningLines(ws);
    FixedLinesOneLine();
    forall i | 0 <= i < |parts| ensures '\n' !in parts[i] {
      if i == 0 {
        assert parts[i] == SecretsHeading;
      } else if i <= |lines| {
        assert parts[i] == lines[i - 1] == WarningLine(ws[i - 1]);
        WarningLineOneLine(ws[i - 1]);
      } else if i == |lines| + 1 {
        assert parts[i] == "";
      } else {
        assert parts[i] == SecretsAdvice;
      }
    }
  }

  /** The refusal message has the heading, then one line per warning in
      order, then a blank line and the advice. */
  lemma SecretsMessageLines(ws: seq<SecretWarning>)
    requires |ws| > 0
    requires forall i :: 0 <= i < |ws| ==> '\n' !in ws[i].file
    ensures Split(SecretsMessage(ws), '\n') == [SecretsHeading] + WarningLines(ws) + ["", SecretsAdvice]
  {
    SecretsMessageJoin(ws);
    SecretsMessagePartsOneLine(ws);
    SplitJoin(SecretsMessageParts(ws), '\n');
  }

  /** What commit resolves to, given the backend as it stands. */
  function CommitSpec(git: Backend, root: string, message: Option<string>, test: Matcher): Try<CommitResult>
    reads git
  {
    match SecretScan(git, root, test)
    case Threw(m) => Threw(m)
    case Returned(ws) =>
      if |ws| > 0 then Returned(SecretsFound(SecretsMessage(ws), ws))
      else match git.RefusalAt(|git.log| + |SecretScanLog(git, root)|, Command.Commit(message))
           case Some(m) => Threw(m)
           case None => Returned(Committed(git.commitReport.commit, git.commitReport.summary))
  }

  /** The calls commit makes: the scan, then `git commit` only if the scan
      found nothing. */
  function CommitLog(git: Backend, root: string, message: Option<string>, test: Matcher): seq<Event>
    reads git
  {
    SecretScanLog(git, root)
    + (if SecretScan(git, root, test) == Returned([]) then [Git(Command.Commit(message))] else [])
  }

  method Commit(git: Backend, root: string, message: Option<string>, test: Matcher) returns (r: Try<CommitResult>)
    modifies git`log
    ensures r == old(CommitSpec(git, root, message, test))
    ensures git.log == old(git.log) + old(CommitLog(git, root, message, test))
  {
    var scan := ScanForSecrets(git, root, test);
    if scan.Threw? {
      return Threw(scan.message);
    }
    var warnings := scan.value;
    if |warnings| > 0 {
      return Returned(SecretsFound(SecretsMessage(warnings), warnings));
    }
    var done := git.CommitStaged(message);
    r := match done
         case Threw(m) => Threw(m)
         case Returned(report) => Returned(Committed(report.commit, report.summary));
  }

  /** The scan never issues a commit, so `git commit` is issued exactly when
      the scan succeeds with no warning. */
  lemma CommitGate(git: Backend, root: string, message: Option<string>, test: Matcher)
    ensures Git(Command.Commit(message)) in CommitLog(git, root, message, test)
            <==> SecretScan(git, root, test) == Returned([])
    ensures CommitSpec(git, root, message, test).Returned? && CommitSpec(git, root, message, test).value.SecretsFound?
            ==> var ws := CommitSpec(git, root, message, test).value.warnings;
                |ws| > 0 && SecretScan(git, root, test) == Returned(ws)
  {
    var scanned := match git.StatusReply()
                 case Threw(_) => []
                 case Returned(raw) => ScanReads(root, raw.staged, git.files);
    if git.StatusReply().Returned? {
      ScanReadsInside(root, git.status.staged, git.files);
    }
    assert Git(Command.Commit(message)) !in [Git(Status)] + scanned;
  }

  // ---------------------------------------------------------------------
  // Push (only as commit-and-push uses it)
  // ---------------------------------------------------------------------

  /** A defaulted parameter: the default when the argument is undefined. */
  function OrDefault(arg: Option<string>, default: string): string {
    match arg
    case Some(v) => v
    case None => default
  }

  method Push(git: Backend, remote: Option<string>, branch: Option<string>) returns (r: Try<PushReport>)
    modifies git`log
    ensures git.log == old(git.log) + [Git(Command.Push(OrDefault(remote, "origin"), OrDefault(branch, "main")))]
    ensures r == Attempt(old(git.Refusal(Command.Push(OrDefault(remote, "origin"), OrDefault(branch, "main")))), git.pushReport)
  {
    r := git.PushTo(OrDefault(remote, "origin"), OrDefault(branch, "main"));
  }

  // ---------------------------------------------------------------------
  // Remotes (setRemote, getRemote)
  // ---------------------------------------------------------------------

  /** `remotes.some((r) => r.name === name)`. */
  predicate HasRemote(remotes: seq<Remote>, name: string) {
    exists i :: 0 <= i < |remotes| && remotes[i].name == name
  }

  predicate UniqueNames(remotes: seq<Remote>) {
    forall i, j :: 0 <= i < j < |remotes| ==> remotes[i].name != remotes[j].name
  }

  /** Index i holds the first remote called `name`. */
  predicate FirstNamed(remotes: seq<Remote>, name: string, i: int) {
    0 <= i < |remotes| && remotes[i].name == name && forall j :: 0 <= j < i ==> remotes[j].name != name
  }

  /** `remotes.find((r) => r.name === name)`: the first remote so named. */
  function FindRemote(remotes: seq<Remote>, name: string): (r: Option<Remote>)
    ensures r.None? <==> !HasRemote(remotes, name)
    ensures r.Some? ==> exists i :: FirstNamed(remotes, name, i) && remotes[i] == r.value
  {
    if remotes == [] then None
    else if remotes[0].name == name then
      assert FirstNamed(remotes, name, 0);
      Some(remotes[0])
    else
      var r := FindRemote(remotes[1..], name);
      FindRemoteTail(remotes, name, r);
      r
  }

  lemma FindRemoteTail(remotes: seq<Remote>, name: string, r: Option<Remote>)
    requires remotes != [] && remotes[0].name != name
    requires r.None? <==> !HasRemote(remotes[1..], name)
    requires r.Some? ==> exists i :: FirstNamed(remotes[1..], name, i) && remotes[1..][i] == r.value
    ensures r.None? <==> !HasRemote(remotes, name)
    ensures r.Some? ==> exists i :: FirstNamed(remotes, name, i) && remotes[i] == r.value
  {
    if r.Some? {
      var i :| FirstNamed(remotes[1..], name, i) && remotes[1..][i] == r.value;
      forall j | 0 <= j < i + 1 ensures remotes[j].name != name {
        if j > 0 { assert remotes[j] == remotes[1..][j - 1]; }
      }
      assert FirstNamed(remotes, name, i + 1);
    } else {
      forall i | 0 <= i < |remotes| ensures remotes[i].name != name {
        if i > 0 { assert remotes[i] == remotes[1..][i - 1]; }
      }
    }
    if HasRemote(remotes, name) {
      var i :| 0 <= i < |remotes| && remotes[i].name == name;
      assert remotes[1..][i - 1] == remotes[i];
    }
  }

  /** What getRemote resolves to for a listing: the fetch URL of the first
      remote so named, or null when there is none or its fetch URL is
      empty. */
  function RemoteUrl(remotes: seq<Remote>, name: string): Option<string> {
    match FindRemote(remotes, name)
    case Some(r) => if r.fetchUrl != "" then Some(r.fetchUrl) else None
    case None => None
  }

  /** The command setRemote issues after listing the remotes. */
  function SetRemoteCommand(remotes: seq<Remote>, name: string, url: string): Command {
    if HasRemote(remotes, name) then SetUrl(name, url) else AddRemote(name, url)
  }

  /** The remotes after a successful setRemote: the URL replaced where the
      name exists, a new remote appended otherwise. */
  function Upsert(remotes: seq<Remote>, name: string, url: string): seq<Remote> {
    if HasRemote(remotes, name) then ReplaceUrl(remotes, name, url) else remotes + [Remote(name, url)]
  }

  /** After setRemote(name, url), getRemote(name) gives url back (or null if
      url is empty, which JavaScript treats as false). */
  lemma UpsertThenLookup(remotes: seq<Remote>, name: string, url: string)
    ensures RemoteUrl(Upsert(remotes, name, url), name) == if url == "" then None else Some(url)
  {
    var after := Upsert(remotes, name, url);
    if !HasRemote(remotes, name) {
      assert after[|remotes|].name == name;
    } else {
      var i :| 0 <= i < |remotes| && remotes[i].name == name;
      assert after[i].name == name;
    }
    var r := FindRemote(after, name);
    assert r.Some?;
    var i :| FirstNamed(after, name, i) && after[i] == r.value;
    if HasRemote(remotes, name) {
      assert after[i] == Remote(name, url);
    } else {
      if i < |remotes| {
        assert false;
      }
    }
  }

  /** setRemote leaves the lookup of every other name as it was. */
  lemma UpsertKeepsOthers(remotes: seq<Remote>, name: string, url: string, other: string)
    requires other != name
    ensures RemoteUrl(Upsert(remotes, name, url), other) == RemoteUrl(remotes, other)
  {
    if HasRemote(remotes, name) {
      FindRemoteAgree(Upsert(remotes, name, url), remotes, other);
    } else {
      FindRemoteAppend(remotes, Remote(name, url), other);
    }
  }

  /** Two lists with the same remotes called `name`, at the same places,
      find the same one. */
  lemma {:induction false} FindRemoteAgree(a: seq<Remote>, b: seq<Remote>, name: string)
    requires |a| == |b|
    requires forall i :: 0 <= i < |a| ==> (a[i].name == name <==> b[i].name == name)
    requires forall i :: 0 <= i < |a| && a[i].name == name ==> a[i] == b[i]
    ensures FindRemote(a, name) == FindRemote(b, name)
  {
    if a != [] && a[0].name != name {
      FindRemoteAgree(a[1..], b[1..], name);
    }
  }

  /** Appending a remote of another name does not change the lookup. */
  lemma {:induction false} FindRemoteAppend(a: seq<Remote>, x: Remote, name: string)
    requires x.name != name
    ensures FindRemote(a + [x], name) == FindRemote(a, name)
  {
    if a == [] {
      assert (a + [x])[1..] == [];
    } else if a[0].name != name {
      assert (a + [x])[1..] == a[1..] + [x];
      FindRemoteAppend(a[1..], x, name);
    }
  }

  /** setRemote never creates a second remote of the same name: the list
      grows only when the name is new, and distinct names stay distinct. */
  lemma UpsertNoDuplicate(remotes: seq<Remote>, name: string, url: string)
    requires UniqueNames(remotes)
    ensures UniqueNames(Upsert(remotes, name, url))
    ensures |Upsert(remotes, name, url)| == |remotes| + (if HasRemote(remotes, name) then 0 else 1)
  {
    var after := Upsert(remotes, name, url);
    forall i, j | 0 <= i < j < |after| ensures after[i].name != after[j].name {
      if !HasRemote(remotes, name) && j == |remotes| {
        assert after[i] == remotes[i];
      }
    }
  }

  /** The error setRemote throws, if any, given the backend as it stands:
      listing the remotes, then set-url or add. */
  function SetRemoteError(git: Backend, name: string, url: string): Option<string>
    reads git
  {
    match git.Refusal(GetRemotes(false))
    case Some(m) => Some(m)
    case None => git.RefusalAt(|git.log| + 1, SetRemoteCommand(git.remotes, name, url))
  }

  /** The git commands setRemote issues. */
  function SetRemoteLog(git: Backend, name: string, url: string): seq<Event>
    reads git
  {
    [Git(GetRemotes(false))]
    + if git.Refusal(GetRemotes(false)).None? then [Git(SetRemoteCommand(git.remotes, name, url))] else []
  }

  method SetRemote(git: Backend, name: string, url: string) returns (r: Try<()>)
    modifies git`log, git`remotes
    ensures r == Attempt(old(SetRemoteError(git, name, url)), ())
    ensures git.log == old(git.log) + old(SetRemoteLog(git, name, url))
    ensures git.remotes == if r.Returned? then Upsert(old(git.remotes), name, url) else old(git.remotes)
  {
    var listed := git.ListRemotes(false);
    if listed.Threw? {
      return Threw(listed.message);
    }
    if HasRemote(listed.value, name) {
      r := git.SetRemoteUrl(name, url);
    } else {
      r := git.AddRemoteUrl(name, url);
    }
  }

  method GetRemote(git: Backend, name: string) returns (r: Try<Option<string>>)
    modifies git`log
    ensures git.log == old(git.log) + [Git(GetRemotes(true))]
    ensures r == match old(git.Refusal(GetRemotes(true)))
                 case Some(m) => Threw(m)
                 case None => Returned(RemoteUrl(git.remotes, name))
  {
    var listed := git.ListRemotes(true);
    match listed
    case Threw(m) => r := Threw(m);
    case Returned(remotes) => r := Returned(RemoteUrl(remotes, name));
  }

  // ---------------------------------------------------------------------
  // Repository initialisation (initializeRepo)
  // ---------------------------------------------------------------------

  /** The default .gitignore as written: the template literal without the
      line break after its opening backtick and the one before its closing
      backtick, which `.trim()` removes (GitignoreTrimmed). */
  const GitignoreContent :=
    "# Dependencies\n"
    + "node_modules/\n\n# System files\n.DS_Store\n*.log\n\n"
    + "# Environment files\n.env\n.env.local\n.env.*.local\n\n"
    + "# Bruno environments (contain secrets)\nenvironments/\n\n"
    + "# Bruno secret files\n*.secrets.bru\n\n"
    + "# IMPORTANT: Review all .bru files before committing\n"
    + "# Make sure they don't contain:\n"
    + "# - Real API keys (use environment variables instead)\n"
    + "# - Passwords or tokens\n"
    + "# - Sensitive data in request bodies\n"
    + "#\n"
    + "# Use Bruno's environment variables for sensitive data"

  /** `.trim()` of text framed by two line breaks, whose first and last
      characters are not whitespace, is that text. */
  lemma TrimFramed(body: string)
    requires body != [] && !IsWhitespace(body[0]) && !IsWhitespace(body[|body| - 1])
    ensures Trim("\n" + body + "\n") == body
  {
    var s := "\n" + body + "\n";
    assert s[1..] == body + "\n";
    assert TrimStart(s[1..]) == body + "\n";
    assert TrimStart(s) == body + "\n";
    assert (body + "\n")[..|body|] == body;
    assert TrimEnd(body + "\n") == TrimEnd(body);
  }

  /** The content written is the template literal, trimmed. */
  lemma GitignoreTrimmed()
    ensures Trim("\n" + GitignoreContent + "\n") == GitignoreContent
  {
    var first := "# Dependencies\n";
    var last := "# Use Bruno's environment variables for sensitive data";
    assert |last| == 54 && last[53] == 'a';
    assert first[0] == '#';
    assert GitignoreContent[0] == '#';
    assert GitignoreContent[|GitignoreContent| - 1] == 'a';
    TrimFramed(GitignoreContent);
  }

  function GitignorePath(root: string): string {
    JoinPath(root, ".gitignore")
  }

  /** The workspace after initializeRepo: the default .gitignore is added
      when none exists; an existing one, and every other file, is left as
      it was. */
  function WithGitignore(files: map<string, string>, root: string): (r: map<string, string>)
    ensures GitignorePath(root) in r
    ensures GitignorePath(root) in files ==> r[GitignorePath(root)] == files[GitignorePath(root)]
    ensures GitignorePath(root) !in files ==> r[GitignorePath(root)] == GitignoreContent
    ensures forall p :: p != GitignorePath(root) ==> (p in r <==> p in files) && (p in files ==> r[p] == files[p])
    ensures r.Keys == files.Keys + {GitignorePath(root)}
  {
    var path := GitignorePath(root);
    if path in files then files else files[path := GitignoreContent]
  }

  /** Initialising twice writes nothing the second time. */
  lemma WithGitignoreIdempotent(files: map<string, string>, root: string)
    ensures WithGitignore(WithGitignore(files, root), root) == WithGitignore(files, root)
  {
  }

  method InitializeRepo(git: Backend, root: string) returns (r: Try<()>)
    modifies git`log, git`repo, git`files
    ensures r == Attempt(old(git.Refusal(Init)), ())
    ensures git.repo == (old(git.repo) || r.Returned?)
    ensures git.files == if r.Returned? then WithGitignore(old(git.files), root) else old(git.files)
    ensures git.log == old(git.log) + [Git(Init)]
                       + (if r.Returned? && GitignorePath(root) !in old(git.files)
                          then [WriteFile(GitignorePath(root))] else [])
  {
    r := git.InitRepo();
    if r.Threw? {
      return;
    }
    var path := GitignorePath(root);
    var present := git.Exists(path);
    if !present {
      git.Write(path, GitignoreContent);
    }
  }

  // ---------------------------------------------------------------------
  // Path handling (unstageFile, stageFile)
  // ---------------------------------------------------------------------

  /** The path unstageFile hands to `git reset HEAD`: a relative path as
      given, an absolute one made relative to the collection directory. */
  function UnstageArgument(cwd: string, root: string, file: string): string {
    if IsAbsolute(file) then Relative(cwd, root, file) else file
  }

  /** The path stageFile, as written, hands to `git add`: always
      path.relative(root, file), which resolves a relative `file` against
      the process working directory. */
  function StageArgumentAsWritten(cwd: string, root: string, file: string): string {
    Relative(cwd, root, file)
  }

  /** The path stageFile hands to `git add` once it treats paths the way
      unstageFile does. */
  function StageArgument(cwd: string, root: string, file: string): string {
    UnstageArgument(cwd, root, file)
  }

  /** The file git, running in the collection directory, takes the path
      argument `arg` to name. */
  function GitTarget(cwd: string, root: string, arg: string): seq<string> {
    ResolveFrom(Resolve(cwd, root), arg)
  }

  /** unstageFile passes a relative path through untouched, and hands git
      a relative path that names the same file as the one it was given. */
  lemma UnstageNamesSameFile(cwd: string, root: string, file: string)
    ensures !IsAbsolute(file) ==> UnstageArgument(cwd, root, file) == file
    ensures !IsAbsolute(UnstageArgument(cwd, root, file))
    ensures GitTarget(cwd, root, UnstageArgument(cwd, root, file)) == GitTarget(cwd, root, file)
  {
    if IsAbsolute(file) {
      RelativeRoundTrip(cwd, root, file);
    }
  }

  /** The corrected stageFile has the same guarantee. */
  lemma StageNamesSameFile(cwd: string, root: string, file: string)
    ensures !IsAbsolute(StageArgument(cwd, root, file))
    ensures GitTarget(cwd, root, StageArgument(cwd, root, file)) == GitTarget(cwd, root, file)
  {
    UnstageNamesSameFile(cwd, root, file);
  }

  /** stageFile as written names the file that `file` denotes in the
      process working directory, not in the collection directory. */
  lemma StageAsWrittenUsesCwd(cwd: string, root: string, file: string)
    ensures GitTarget(cwd, root, StageArgumentAsWritten(cwd, root, file)) == Resolve(cwd, file)
  {
    RelativeRoundTrip(cwd, root, file);
  }

  lemma {:induction false} SplitWithoutSeparator(s: string, sep: char)
    requires sep !in s
    ensures Split(s, sep) == [s]
  {
    if s != [] {
      SplitWithoutSeparator(s[1..], sep);
      assert [s[0]] + s[1..] == s;
    }
  }

  lemma ResolveExamples()
    ensures Resolve("/", "/c") == ["c"]
    ensures Resolve("/", "a.bru") == ["a.bru"]
  {
    SplitWithoutSeparator("a.bru", '/');
    SplitWithoutSeparator("c", '/');
    assert Split("/c", '/') == [""] + Split("c", '/');
    assert Split("/", '/') == [""] + Split("", '/');
    assert NormalizeFrom([], ["", ""], false) == [];
  }

  lemma RelativeExample()
    ensures Relative("/", "/c", "a.bru") == "../a.bru"
  {
    ResolveExamples();
    assert CommonPrefixLength(["c"], ["a.bru"]) == 0;
    assert Dots(1) + ["a.bru"] == ["..", "a.bru"];
    assert Join(["..", "a.bru"], "/") == "../a.bru";
  }

  /** The argument stageFile as written computes in the example names
      `/a.bru`. */
  lemma ExampleAsWrittenTarget()
    ensures GitTarget("/", "/c", StageArgumentAsWritten("/", "/c", "a.bru")) == ["a.bru"]
  {
    StageAsWrittenUsesCwd("/", "/c", "a.bru");
    ResolveExamples();
  }

  /** In the example, `a.bru` relative to the collection is `/c/a.bru`. */
  lemma ExampleIntendedTarget()
    ensures GitTarget("/", "/c", "a.bru") == ["c", "a.bru"]
  {
    ResolveExamples();
    SplitWithoutSeparator("a.bru", '/');
    assert GitTarget("/", "/c", "a.bru") == NormalizeFrom(["c"], ["a.bru"], false);
  }

  /** With the process in `/` and the collection in `/c`, stageFile("a.bru")
      as written stages `/a.bru` (argument `../a.bru`) instead of `/c/a.bru`. */
  lemma StageAsWrittenMissesRelativeFile()
    ensures StageArgumentAsWritten("/", "/c", "a.bru") == "../a.bru"
    ensures GitTarget("/", "/c", StageArgumentAsWritten("/", "/c", "a.bru")) == ["a.bru"]
    ensures GitTarget("/", "/c", "a.bru") == ["c", "a.bru"]
  {
    RelativeExample();
    ExampleAsWrittenTarget();
    ExampleIntendedTarget();
  }

  method UnstageFile(git: Backend, cwd: string, root: string, file: string) returns (r: Try<()>)
    modifies git`log
    ensures git.log == old(git.log) + [Git(Reset(["HEAD", UnstageArgument(cwd, root, file)]))]
    ensures r == Attempt(old(git.Refusal(Reset(["HEAD", UnstageArgument(cwd, root, file)]))), ())
  {
    var relativePath := UnstageArgument(cwd, root, file);
    r := git.ResetPaths(["HEAD", relativePath]);
  }

  /** stageFile with the argument corrected as in StageArgument; the code
      as written is StageArgumentAsWritten. */
  method StageFile(git: Backend, cwd: string, root: string, file: string) returns (r: Try<()>)
    modifies git`log
    ensures git.log == old(git.log) + [Git(Add(StageArgument(cwd, root, file)))]
    ensures r == Attempt(old(git.Refusal(Add(StageArgument(cwd, root, file)))), ())
  {
    var relativePath := StageArgument(cwd, root, file);
    r := git.AddPath(relativePath);
  }
}
