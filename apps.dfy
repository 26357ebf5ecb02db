/** One deployed app: its folder, the branch of the repository checked out
    there and the compose document it runs, with the identity used to compare
    the running apps against the configured ones, and its lifecycle (clone and
    start, kill, restart). */
module Apps {
  import opened Effects

  /** The `compose` value of an app's configuration: a YAML document carried
      through untouched and serialised by the YAML library. */
  datatype Yaml =
    | Null
    | Scalar(text: string)
    | Items(items: seq<Yaml>)
    | Fields(fields: seq<(string, Yaml)>)

  /** The failures that leave an operation early. */
  datatype Error =
    | MissingApps      // the configuration has no `apps` key (a KeyError)
    | CloneTimeout     // the checkout never reported "up to date" while waiting for it
    | NoSuchPathError  // the checkout to be opened does not exist
    | GitFailed        // any other failure of git

  datatype Status = Ok | Raised(error: Error)

  /** The outcome of an operation and the effects it issued, in order. */
  datatype Run = Run(status: Status, events: seq<Event>)

  /** The run `r`, with the events `pre` issued before it. */
  function Then(pre: seq<Event>, r: Run): Run
  {
    Run(r.status, pre + r.events)
  }

  /** The bookkeeping of a loop that issues, since the history h0, the events of
      the run `whole` step by step: once `step` is issued, what is left of
      `whole` is the run `rest`. */
  lemma Shift(whole: Run, h0: seq<Event>, before: seq<Event>, step: seq<Event>, rest: Run)
    requires |h0| <= |before| && before[..|h0|] == h0
    requires whole == Then(before[|h0|..], Then(step, rest))
    ensures |h0| <= |before + step| && (before + step)[..|h0|] == h0
    ensures whole == Then((before + step)[|h0|..], rest)
  {
    assert (before + step)[..|h0|] == before[..|h0|];
    assert (before + step)[|h0|..] == before[|h0|..] + step;
  }

  /** The bookkeeping of a loop step that runs `s` and goes on with `rest` only
      when `s` succeeds. */
  lemma ShiftGuarded(whole: Run, h0: seq<Event>, before: seq<Event>, s: Run, rest: Run)
    requires |h0| <= |before| && before[..|h0|] == h0
    requires whole == Then(before[|h0|..], if s.status != Ok then s else Then(s.events, rest))
    ensures |h0| <= |before + s.events| && (before + s.events)[..|h0|] == h0
    ensures s.status == Ok ==> whole == Then((before + s.events)[|h0|..], rest)
    ensures s.status != Ok ==> whole == Then((before + s.events)[|h0|..], Run(s.status, []))
  {
    assert (before + s.events)[..|h0|] == before[..|h0|];
    assert (before + s.events)[|h0|..] == before[|h0|..] + s.events;
    assert s.events + [] == s.events;
  }

  /** Once nothing of `whole` is left but its status, the history is h0
      followed by the events of `whole`. */
  lemma Finish(whole: Run, h0: seq<Event>, log: seq<Event>, st: Status)
    requires |h0| <= |log| && log[..|h0|] == h0
    requires whole == Then(log[|h0|..], Run(st, []))
    ensures log == h0 + whole.events && whole.status == st
  {
    assert log == log[..|h0|] + log[|h0|..];
  }

  /** How many times a fresh clone is checked before giving up on it. */
  const CloneAttempts := 300

  /** POSIX `os.path.join` of two components: an absolute name replaces the
      folder, otherwise the two are joined with exactly one separator. */
  function Join(folder: string, name: string): string
  {
    if |name| > 0 && name[0] == '/' then name
    else if folder == [] || folder[|folder| - 1] == '/' then folder + name
    else folder + "/" + name
  }

  /** The joined path ends with the name; an absolute name is the whole path,
      and otherwise the path starts with the folder. */
  lemma JoinShape(folder: string, name: string)
    ensures var r := Join(folder, name);
            && |name| <= |r| && r[|r| - |name|..] == name
            && (|name| > 0 && name[0] == '/' ==> r == name)
            && ((|name| == 0 || name[0] != '/') ==> |folder| <= |r| && r[..|folder|] == folder)
  {
  }

  /** An app: its folder, repository and branch, its compose document and that
      document's serialisation `text`, and its identity `hash`, all fixed when
      the app is built. */
  datatype App = App(path: string, url: string, branch: string, compose: Yaml, text: string, hash: string)

  /** The string the identity is taken over: the fields concatenated, the compose
      document in its serialised form. The string itself stands for its hash. */
  function Key(path: string, url: string, branch: string, text: string): string
  {
    path + url + branch + text
  }

  /** The app was built from its fields with the serialiser `dump`. */
  predicate Built(a: App, dump: Yaml -> string)
  {
    a.text == dump(a.compose) && a.hash == Key(a.path, a.url, a.branch, a.text)
  }

  function NewApp(path: string, url: string, branch: string, compose: Yaml, dump: Yaml -> string): (a: App)
    ensures a.path == path && a.url == url && a.branch == branch && a.compose == compose
    ensures Built(a, dump)
  {
    var text := dump(compose);
    App(path, url, branch, compose, text, Key(path, url, branch, text))
  }

  /** `==` between apps: their identities agree. */
  predicate Eq(a: App, b: App)
  {
    a.hash == b.hash
  }

  /** `!=` between apps. */
  predicate Ne(a: App, b: App)
  {
    !Eq(a, b)
  }

  lemma NeNegatesEq(a: App, b: App)
    ensures Ne(a, b) <==> !Eq(a, b)
  {
  }

  lemma EqIsEquivalence(a: App, b: App, c: App)
    ensures Eq(a, a)
    ensures Eq(a, b) ==> Eq(b, a)
    ensures Eq(a, b) && Eq(b, c) ==> Eq(a, c)
  {
  }

  /** For built apps, `==` holds exactly when the two key strings are equal. */
  lemma EqIffKeys(a: App, b: App, dump: Yaml -> string)
    requires Built(a, dump) && Built(b, dump)
    ensures Eq(a, b) <==> Key(a.path, a.url, a.branch, dump(a.compose)) == Key(b.path, b.url, b.branch, dump(b.compose))
  {
  }

  /** Two apps built from identical fields are equal. */
  lemma SameFieldsEqual(a: App, b: App, dump: Yaml -> string)
    requires Built(a, dump) && Built(b, dump)
    requires a.path == b.path && a.url == b.url && a.branch == b.branch && a.compose == b.compose
    ensures Eq(a, b)
  {
  }

  /** When the folders, the URLs and the branches have the same lengths, two apps
      are equal exactly when every field agrees, the compose documents compared by
      their serialisations. */
  lemma EqSplitsFields(a: App, b: App, dump: Yaml -> string)
    requires Built(a, dump) && Built(b, dump)
    requires |a.path| == |b.path| && |a.url| == |b.url| && |a.branch| == |b.branch|
    ensures Eq(a, b) <==>
      a.path == b.path && a.url == b.url && a.branch == b.branch && dump(a.compose) == dump(b.compose)
  {
    if Eq(a, b) {
      var i, j, k := |a.path|, |a.path| + |a.url|, |a.path| + |a.url| + |a.branch|;
      assert a.path == a.hash[..i] == b.hash[..i] == b.path;
      assert a.url == a.hash[i..j] == b.hash[i..j] == b.url;
      assert a.branch == a.hash[j..k] == b.hash[j..k] == b.branch;
      assert dump(a.compose) == a.hash[k..] == b.hash[k..] == dump(b.compose);
    }
  }

  /** Without equal lengths the concatenation is ambiguous: two apps in different
      folders, with different URLs, are still equal. */
  lemma KeyCollision(dump: Yaml -> string)
    ensures var a := NewApp("/var/moon/repository/a", "bgit", "main", Null, dump);
            var b := NewApp("/var/moon/repository/ab", "git", "main", Null, dump);
            a.path != b.path && a.url != b.url && Eq(a, b)
  {
    var a := NewApp("/var/moon/repository/a", "bgit", "main", Null, dump);
    var b := NewApp("/var/moon/repository/ab", "git", "main", Null, dump);
    assert "/var/moon/repository/a" + "bgit" == "/var/moon/repository/ab" + "git";
    assert a.path[|a.path| - 1] != b.path[|b.path| - 1];
    assert a.url[0] != b.url[0];
  }

  /** `k` `uptodate()` checks of the checkout at path. */
  function Polling(path: string, k: nat): (r: seq<Event>)
    ensures |r| == k
  {
    if k == 0 then [] else [Polled(path)] + Polling(path, k - 1)
  }

  /** Every event of `k` checks of path is a check of path. */
  lemma {:induction false} PollingOnly(path: string, k: nat)
    ensures forall e :: e in Polling(path, k) ==> e == Polled(path)
  {
    if k > 0 {
      PollingOnly(path, k - 1);
    }
  }

  /** Answers that make the wait for a fresh clone try again. */
  predicate Retries(a: Answer)
  {
    a == NotUpToDate || a == NoSuchPath
  }

  /** The answer of the remote at the attempt after `k` checks since `h`. */
  function AnswerAt(path: string, remote: seq<Event> -> Answer, h: seq<Event>, k: nat): Answer
  {
    remote(h + Polling(path, k))
  }

  /** The wait for a fresh clone at path, with `left` attempts left: each attempt
      makes one `uptodate()` check; "up to date" ends the wait, a missing checkout
      or any other fetch flag tries again, and any other git failure escapes. */
  function CloneWait(path: string, remote: seq<Event> -> Answer, h: seq<Event>, left: nat): (r: Run)
    ensures r.status == Ok || r.status == Raised(CloneTimeout) || r.status == Raised(GitFailed)
    decreases left
  {
    if left == 0 then Run(Raised(CloneTimeout), [])
    else
      match remote(h)
      case UpToDate => Run(Ok, [Polled(path)])
      case GitError => Run(Raised(GitFailed), [Polled(path)])
      case _ =>
        var rest := CloneWait(path, remote, h + [Polled(path)], left - 1);
        Run(rest.status, [Polled(path)] + rest.events)
  }

  /** The wait only checks the checkout, at most once per attempt. */
  lemma {:induction false} CloneWaitPolls(path: string, remote: seq<Event> -> Answer, h: seq<Event>, left: nat)
    ensures var r := CloneWait(path, remote, h, left);
            |r.events| <= left && r.events == Polling(path, |r.events|)
    decreases left
  {
    if left > 0 && Retries(remote(h)) {
      CloneWaitPolls(path, remote, h + [Polled(path)], left - 1);
    }
  }

  /** What is left of the wait after its first check. */
  function AfterAttempt(path: string, remote: seq<Event> -> Answer, h: seq<Event>, left: nat): Run
    requires left > 0
  {
    match remote(h)
    case UpToDate => Run(Ok, [])
    case GitError => Run(Raised(GitFailed), [])
    case _ => CloneWait(path, remote, h + [Polled(path)], left - 1)
  }

  lemma CloneWaitStep(path: string, remote: seq<Event> -> Answer, h: seq<Event>, left: nat)
    requires left > 0
    ensures CloneWait(path, remote, h, left) == Then([Polled(path)], AfterAttempt(path, remote, h, left))
  {
  }

  lemma PollingShift(path: string, h: seq<Event>, k: nat)
    ensures h + Polling(path, k + 1) == (h + [Polled(path)]) + Polling(path, k)
  {
    assert Polling(path, k + 1) == [Polled(path)] + Polling(path, k);
  }

  /** The wait times out exactly when every one of its attempts was told to try
      again, and then it has checked exactly `left` times. */
  lemma {:induction false} CloneWaitTimesOut(path: string, remote: seq<Event> -> Answer, h: seq<Event>, left: nat)
    ensures CloneWait(path, remote, h, left).status == Raised(CloneTimeout) <==>
            forall k :: 0 <= k < left ==> Retries(AnswerAt(path, remote, h, k))
    ensures CloneWait(path, remote, h, left).status == Raised(CloneTimeout) ==>
            |CloneWait(path, remote, h, left).events| == left
    decreases left
  {
    if left > 0 {
      var h' := h + [Polled(path)];
      CloneWaitTimesOut(path, remote, h', left - 1);
      assert h + Polling(path, 0) == h;
      forall k | 0 <= k < left - 1
        ensures AnswerAt(path, remote, h, k + 1) == AnswerAt(path, remote, h', k)
      {
        PollingShift(path, h, k);
      }
      if forall k :: 0 <= k < left ==> Retries(AnswerAt(path, remote, h, k)) {
        assert Retries(AnswerAt(path, remote, h, 0));
        forall k | 0 <= k < left - 1 ensures Retries(AnswerAt(path, remote, h', k)) {
          assert Retries(AnswerAt(path, remote, h, k + 1));
        }
      } else if Retries(remote(h)) {
        var k :| 0 <= k < left && !Retries(AnswerAt(path, remote, h, k));
        assert k != 0;
        assert !Retries(AnswerAt(path, remote, h', k - 1));
      }
    }
  }

  /** The wait succeeds exactly when some attempt is told "up to date" after only
      retries before it; it stops at that first success. */
  lemma {:induction false} CloneWaitSucceeds(path: string, remote: seq<Event> -> Answer, h: seq<Event>, left: nat, n: nat)
    ensures CloneWait(path, remote, h, left).status == Ok && |CloneWait(path, remote, h, left).events| == n + 1
            <==>
            n < left && AnswerAt(path, remote, h, n) == UpToDate &&
            forall k :: 0 <= k < n ==> Retries(AnswerAt(path, remote, h, k))
    ensures CloneWait(path, remote, h, left).status == Ok ==> 0 < |CloneWait(path, remote, h, left).events|
    decreases left
  {
    assert h + Polling(path, 0) == h;
    if left > 0 {
      var h' := h + [Polled(path)];
      forall k | 0 <= k
        ensures AnswerAt(path, remote, h, k + 1) == AnswerAt(path, remote, h', k)
      {
        PollingShift(path, h, k);
      }
      if n > 0 {
        CloneWaitSucceeds(path, remote, h', left - 1, n - 1);
        assert AnswerAt(path, remote, h, n) == AnswerAt(path, remote, h', n - 1);
        if forall k :: 0 <= k < n ==> Retries(AnswerAt(path, remote, h, k)) {
          assert Retries(AnswerAt(path, remote, h, 0));
          forall k | 0 <= k < n - 1 ensures Retries(AnswerAt(path, remote, h', k)) {
            assert Retries(AnswerAt(path, remote, h, k + 1));
          }
        }
        if Retries(remote(h)) && forall k :: 0 <= k < n - 1 ==> Retries(AnswerAt(path, remote, h', k)) {
          forall k | 0 <= k < n ensures Retries(AnswerAt(path, remote, h, k)) {
            if k > 0 {
              assert AnswerAt(path, remote, h, k) == AnswerAt(path, remote, h', k - 1);
            }
          }
        }
      } else {
        CloneWaitSucceeds(path, remote, h', left - 1, 0);
      }
    }
  }

  /** Cloning an app: the clone of its branch into its folder, then the wait. */
  function CloneRun(app: App, attempts: nat, remote: seq<Event> -> Answer, h: seq<Event>): Run
  {
    var clone := [GitClone(app.path, app.url, app.branch)];
    Then(clone, CloneWait(app.path, remote, h + clone, attempts))
  }

  /** Clones the app's branch into its folder and waits until the checkout exists
      and is up to date. */
  lemma CloneDone(app: App, attempts: nat, remote: seq<Event> -> Answer, h: seq<Event>, whole: Run, log: seq<Event>)
    requires whole == CloneWait(app.path, remote, h + [GitClone(app.path, app.url, app.branch)], attempts)
    requires log == h + [GitClone(app.path, app.url, app.branch)] + whole.events
    ensures log == h + CloneRun(app, attempts, remote, h).events && whole.status == CloneRun(app, attempts, remote, h).status
  {
    var clone := [GitClone(app.path, app.url, app.branch)];
    assert CloneRun(app, attempts, remote, h) == Run(whole.status, clone + whole.events);
    assert h + clone + whole.events == h + (clone + whole.events);
  }

  method Clone(host: Host, app: App, attempts: nat) returns (st: Status)
    modifies host
    ensures var r := CloneRun(app, attempts, host.remote, old(host.log));
            host.log == old(host.log) + r.events && st == r.status
  {
    ghost var h := host.log;
    host.Emit(GitClone(app.path, app.url, app.branch));
    ghost var h0 := host.log;
    ghost var whole := CloneWait(app.path, host.remote, h0, attempts);
    for attempt := 0 to attempts
      invariant |h0| <= |host.log| && host.log[..|h0|] == h0
      invariant whole == Then(host.log[|h0|..], CloneWait(app.path, host.remote, host.log, attempts - attempt))
    {
      ghost var before := host.log;
      CloneWaitStep(app.path, host.remote, before, attempts - attempt);
      var a := host.Uptodate(app.path);
      Shift(whole, h0, before, [Polled(app.path)], AfterAttempt(app.path, host.remote, before, attempts - attempt));
      if a == UpToDate {
        Finish(whole, h0, host.log, Ok);
        CloneDone(app, attempts, host.remote, h, whole, host.log);
        return Ok;
      }
      if a == GitError {
        Finish(whole, h0, host.log, Raised(GitFailed));
        CloneDone(app, attempts, host.remote, h, whole, host.log);
        return Raised(GitFailed);
      }
    }
    Finish(whole, h0, host.log, Raised(CloneTimeout));
    CloneDone(app, attempts, host.remote, h, whole, host.log);
    return Raised(CloneTimeout);
  }

  /** Starting an app: clone and wait, write the serialised compose document into
      both compose files, then bring the containers up. */
  function StartRun(app: App, attempts: nat, remote: seq<Event> -> Answer, h: seq<Event>): Run
  {
    var c := CloneRun(app, attempts, remote, h);
    if c.status != Ok then c else Run(Ok, c.events + BringUp(app))
  }

  /** Starting an app begins with the clone of its branch into its folder, and
      touches nothing but that folder; when it succeeds it ends with the two
      compose files, both holding the serialised compose document, and then
      `up`; when it fails it has written nothing and brought nothing up. */
  lemma StartShape(app: App, attempts: nat, remote: seq<Event> -> Answer, h: seq<Event>)
    ensures var r := StartRun(app, attempts, remote, h);
            && 0 < |r.events| && r.events[0] == GitClone(app.path, app.url, app.branch)
            && (forall e :: e in r.events ==> e.path == app.path && !Teardown(e))
            && (r.status == Ok || r.status == Raised(CloneTimeout) || r.status == Raised(GitFailed))
            && (r.status == Ok ==> 4 <= |r.events| && r.events[|r.events| - 3..] == BringUp(app))
            && (r.status != Ok ==> forall e :: e in r.events ==> e.GitClone? || e.Polled?)
  {
    var clone := [GitClone(app.path, app.url, app.branch)];
    var wait := CloneWait(app.path, remote, h + clone, attempts);
    CloneWaitPolls(app.path, remote, h + clone, attempts);
    PollingOnly(app.path, |wait.events|);
  }

  /** The folders named by the events of a kind other than checks, when an app
      is started: one clone, two writes and one `up` when it succeeds, the clone
      alone when it does not. */
  function StartedPaths(app: App, ok: bool, k: Kind): seq<string>
  {
    if k == CloneKind then [app.path]
    else if ok && k == WriteKind then [app.path, app.path]
    else if ok && k == UpKind then [app.path]
    else []
  }

  lemma PollingPaths(path: string, n: nat, k: Kind)
    requires k != PollKind
    ensures Paths(Polling(path, n), k) == []
  {
    PollingOnly(path, n);
    PathsNone(Polling(path, n), k);
  }

  /** The events after a successful wait: both compose files, then `up`. */
  function BringUp(app: App): seq<Event>
  {
    [Write(app.path, Main, app.text),
     Write(app.path, Override, app.text),
     ComposeUp(app.path)]
  }

  lemma BringUpPaths(app: App, k: Kind)
    ensures Paths(BringUp(app), k) ==
            (if k == WriteKind then [app.path, app.path] else if k == UpKind then [app.path] else [])
  {
    var up := BringUp(app);
    assert up[1..][1..][1..] == [];
    assert Paths(up[1..][1..], k) == (if k == UpKind then [app.path] else []);
    assert Paths(up[1..], k) == (if k == WriteKind then [app.path] else []) + Paths(up[1..][1..], k);
  }

  /** Starting an app clones it once, and brings it up once exactly when it
      succeeds; it stops, removes and deletes nothing. */
  lemma StartPaths(app: App, attempts: nat, remote: seq<Event> -> Answer, h: seq<Event>, k: Kind)
    requires k != PollKind
    ensures var r := StartRun(app, attempts, remote, h);
            Paths(r.events, k) == StartedPaths(app, r.status == Ok, k)
  {
    var clone := [GitClone(app.path, app.url, app.branch)];
    var wait := CloneWait(app.path, remote, h + clone, attempts);
    assert clone[1..] == [];
    assert Paths(clone, k) == (if k == CloneKind then [app.path] else []);
    CloneWaitPolls(app.path, remote, h + clone, attempts);
    PollingPaths(app.path, |wait.events|, k);
    PathsAppend(clone, wait.events, k);
    if wait.status == Ok {
      BringUpPaths(app, k);
      PathsAppend(clone + wait.events, BringUp(app), k);
    }
  }

  /** Starts an app. */
  method Start(host: Host, app: App, attempts: nat) returns (st: Status)
    modifies host
    ensures var r := StartRun(app, attempts, host.remote, old(host.log));
            host.log == old(host.log) + r.events && st == r.status
  {
    st := Clone(host, app, attempts);
    if st != Ok {
      return;
    }
    host.Emit(Write(app.path, Main, app.text));
    host.Emit(Write(app.path, Override, app.text));
    host.Emit(ComposeUp(app.path));
  }

  /** Stops, then removes, the containers run from the folder at path. */
  method StopContainers(host: Host, path: string)
    modifies host
    ensures host.log == old(host.log) + [ComposeStop(path), ComposeRm(path)]
  {
    host.Emit(ComposeStop(path));
    host.Emit(ComposeRm(path));
  }

  /** Deletes the folder at path with everything in it. */
  method DeleteFolder(host: Host, path: string)
    modifies host
    ensures host.log == old(host.log) + [Delete(path)]
  {
    host.Emit(Delete(path));
  }

  /** Kills an app: stops and removes its containers, then deletes its folder. */
  method Kill(host: Host, app: App)
    modifies host
    ensures host.log == old(host.log) + TeardownEvents(app.path)
  {
    StopContainers(host, app.path);
    DeleteFolder(host, app.path);
  }

  /** Restarting an app: a full kill, then a fresh start. */
  function RestartRun(app: App, attempts: nat, remote: seq<Event> -> Answer, h: seq<Event>): Run
  {
    var down := TeardownEvents(app.path);
    Then(down, StartRun(app, attempts, remote, h + down))
  }

  /** A restart first stops, removes and deletes the app, then clones it again;
      nothing after the kill tears anything down, everything stays in the app's
      folder, and a successful restart ends with both compose files and `up`. */
  lemma RestartShape(app: App, attempts: nat, remote: seq<Event> -> Answer, h: seq<Event>)
    ensures var r := RestartRun(app, attempts, remote, h);
            && 4 <= |r.events|
            && r.events[..4] == TeardownEvents(app.path) + [GitClone(app.path, app.url, app.branch)]
            && (forall i :: 3 <= i < |r.events| ==> !Teardown(r.events[i]))
            && (forall e :: e in r.events ==> e.path == app.path)
            && (r.status == Ok ==> r.events[|r.events| - 3..] == BringUp(app))
  {
    var down := TeardownEvents(app.path);
    var up := StartRun(app, attempts, remote, h + down);
    StartShape(app, attempts, remote, h + down);
    var ev := down + up.events;
    assert ev[..4] == down + [up.events[0]];
    forall i | 3 <= i < |ev|
      ensures !Teardown(ev[i])
    {
      assert ev[i] == up.events[i - 3] && up.events[i - 3] in up.events;
    }
    forall e | e in ev
      ensures e.path == app.path
    {
      assert e in down || e in up.events;
    }
    if up.status == Ok {
      assert ev[|ev| - 3..] == up.events[|up.events| - 3..];
    }
  }

  /** A restart stops, removes and deletes the app once, and clones it once and
      brings it up once exactly when it succeeds. */
  lemma RestartPaths(app: App, attempts: nat, remote: seq<Event> -> Answer, h: seq<Event>, k: Kind)
    requires k != PollKind
    ensures var r := RestartRun(app, attempts, remote, h);
            Paths(r.events, k) ==
              (if TeardownKind(k) then [app.path] else [])
              + StartedPaths(app, r.status == Ok, k)
  {
    var down := TeardownEvents(app.path);
    var up := StartRun(app, attempts, remote, h + down);
    TeardownEventsPaths(app.path, k);
    StartPaths(app, attempts, remote, h + down, k);
    PathsAppend(down, up.events, k);
  }

  /** Restarts an app. */
  method Restart(host: Host, app: App, attempts: nat) returns (st: Status)
    modifies host
    ensures var r := RestartRun(app, attempts, host.remote, old(host.log));
            host.log == old(host.log) + r.events && st == r.status
  {
    ghost var h0 := host.log;
    Kill(host, app);
    st := Start(host, app, attempts);
    ghost var up := StartRun(app, attempts, host.remote, h0 + TeardownEvents(app.path));
    assert host.log == h0 + (TeardownEvents(app.path) + up.events);
    assert RestartRun(app, attempts, host.remote, h0) == Then(TeardownEvents(app.path), up);
  }
}
