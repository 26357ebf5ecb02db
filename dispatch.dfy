/** The dispatcher: it clears the apps folder, starts the configured apps, and
    on every tick reconciles the running apps with the configuration and
    restarts the apps whose remote branch has moved. */
module Dispatch {
  import opened Effects
  import opened Apps
  import opened Bank

  /** One entry of the listing of the apps folder. */
  datatype DirEntry = DirEntry(path: string, isDir: bool)

  /** The folders among the entries, in listing order. */
  function DirPaths(listing: seq<DirEntry>): (r: seq<string>)
    ensures |r| <= |listing|
  {
    if listing == [] then []
    else (if listing[0].isDir then [listing[0].path] else []) + DirPaths(listing[1..])
  }

  /** The folders of the apps, in order. */
  function PathsOf(apps: seq<App>): (r: seq<string>)
    ensures |r| == |apps|
    ensures forall i :: 0 <= i < |apps| ==> r[i] == apps[i].path
  {
    if apps == [] then [] else [apps[0].path] + PathsOf(apps[1..])
  }

  /** The `uptodate()` checks of one poll of every app, in order. */
  function Polls(apps: seq<App>): seq<Event>
  {
    if apps == [] then [] else [Polled(apps[0].path)] + Polls(apps[1..])
  }

  // ---------------------------------------------------------------------------
  // Clearing the apps folder

  /** What clearing the apps folder issues: every folder found in it is treated
      as left over from an earlier run and taken down. */
  function DanglingEvents(listing: seq<DirEntry>): seq<Event>
  {
    if listing == [] then []
    else (if listing[0].isDir then TeardownEvents(listing[0].path) else []) + DanglingEvents(listing[1..])
  }

  lemma {:induction false} DanglingIsTeardown(listing: seq<DirEntry>)
    ensures DanglingEvents(listing) == TeardownEach(DirPaths(listing))
    decreases |listing|
  {
    if listing != [] {
      DanglingIsTeardown(listing[1..]);
      var ps := DirPaths(listing);
      if listing[0].isDir {
        assert ps == [listing[0].path] + DirPaths(listing[1..]);
        assert ps[0] == listing[0].path && ps[1..] == DirPaths(listing[1..]);
        assert TeardownEach(ps) == TeardownEvents(ps[0]) + TeardownEach(ps[1..]);
      } else {
        assert [] + DirPaths(listing[1..]) == DirPaths(listing[1..]);
        assert ps == DirPaths(listing[1..]);
        assert [] + DanglingEvents(listing[1..]) == DanglingEvents(listing[1..]);
        assert DanglingEvents(listing) == DanglingEvents(listing[1..]);
      }
    }
  }

  /** Clearing tears down exactly the folders of the listing, in listing order,
      each one's containers before the folder itself. */
  lemma DanglingTearsDownDirs(listing: seq<DirEntry>)
    ensures |DanglingEvents(listing)| == 3 * |DirPaths(listing)|
    ensures forall i :: 0 <= i < |DirPaths(listing)| ==>
              DanglingEvents(listing)[3 * i .. 3 * i + 3] == TeardownEvents(DirPaths(listing)[i])
    ensures Paths(DanglingEvents(listing), StopKind) == DirPaths(listing)
    ensures Paths(DanglingEvents(listing), DeleteKind) == DirPaths(listing)
  {
    DanglingIsTeardown(listing);
    TeardownEachBlocks(DirPaths(listing));
    TeardownEachPaths(DirPaths(listing), StopKind);
    TeardownEachPaths(DirPaths(listing), DeleteKind);
  }

  /** With no folder in the apps folder, clearing it issues nothing. */
  lemma {:induction false} DanglingQuietWhenNoDirs(listing: seq<DirEntry>)
    requires forall i :: 0 <= i < |listing| ==> !listing[i].isDir
    ensures DanglingEvents(listing) == []
    decreases |listing|
  {
    if listing != [] {
      assert !listing[0].isDir;
      DanglingQuietWhenNoDirs(listing[1..]);
    }
  }

  // ---------------------------------------------------------------------------
  // Starting and killing a list of apps

  /** Starting the apps one after the other; the first failure stops the rest. */
  function StartEach(apps: seq<App>, attempts: nat, remote: seq<Event> -> Answer, h: seq<Event>): Run
    decreases |apps|
  {
    if apps == [] then Run(Ok, [])
    else
      var s := StartRun(apps[0], attempts, remote, h);
      if s.status != Ok then s
      else Then(s.events, StartEach(apps[1..], attempts, remote, h + s.events))
  }

  lemma StartEachCons(x: App, rest: seq<App>, attempts: nat, remote: seq<Event> -> Answer, h: seq<Event>)
    ensures var s := StartRun(x, attempts, remote, h);
            StartEach([x] + rest, attempts, remote, h) ==
              if s.status != Ok then s else Then(s.events, StartEach(rest, attempts, remote, h + s.events))
  {
    assert ([x] + rest)[1..] == rest;
  }

  /** Starting apps only ever touches their own folders and tears nothing down. */
  lemma {:induction false} StartEachStays(apps: seq<App>, attempts: nat, remote: seq<Event> -> Answer, h: seq<Event>)
    ensures forall e :: e in StartEach(apps, attempts, remote, h).events ==> !Teardown(e) && e.path in PathsOf(apps)
    decreases |apps|
  {
    if apps != [] {
      var s := StartRun(apps[0], attempts, remote, h);
      StartShape(apps[0], attempts, remote, h);
      if s.status == Ok {
        StartEachStays(apps[1..], attempts, remote, h + s.events);
        assert forall p :: p in PathsOf(apps[1..]) ==> p in PathsOf(apps);
      }
    }
  }

  /** Starting apps stops, removes and deletes nothing; when it succeeds it has
      cloned and brought up every app once, in order. */
  lemma {:induction false} StartEachPaths(apps: seq<App>, attempts: nat, remote: seq<Event> -> Answer, h: seq<Event>, k: Kind)
    ensures TeardownKind(k) ==>
              Paths(StartEach(apps, attempts, remote, h).events, k) == []
    ensures StartEach(apps, attempts, remote, h).status == Ok && (k == CloneKind || k == UpKind) ==>
              Paths(StartEach(apps, attempts, remote, h).events, k) == PathsOf(apps)
    decreases |apps|
  {
    if apps != [] && k != PollKind {
      var s := StartRun(apps[0], attempts, remote, h);
      StartPaths(apps[0], attempts, remote, h, k);
      if s.status == Ok {
        var rest := StartEach(apps[1..], attempts, remote, h + s.events);
        StartEachPaths(apps[1..], attempts, remote, h + s.events, k);
        PathsAppend(s.events, rest.events, k);
      }
    }
  }

  /** Killing the apps one after the other. */
  function KillEach(apps: seq<App>): seq<Event>
  {
    if apps == [] then [] else TeardownEvents(apps[0].path) + KillEach(apps[1..])
  }

  lemma {:induction false} KillEachIsTeardown(apps: seq<App>)
    ensures KillEach(apps) == TeardownEach(PathsOf(apps))
    decreases |apps|
  {
    if apps != [] {
      KillEachIsTeardown(apps[1..]);
      assert PathsOf(apps)[1..] == PathsOf(apps[1..]);
    }
  }

  // ---------------------------------------------------------------------------
  // Reconciling with the configuration

  /** The reconciliation of the running apps `cur` with the wanted apps: first
      every running app without an equal wanted app is killed, then every wanted
      app without an equal running app is started. */
  function DiffRun(cur: seq<App>, wanted: seq<App>, attempts: nat, remote: seq<Event> -> Answer, h: seq<Event>): Run
  {
    var kills := KillEach(Missing(cur, wanted));
    Then(kills, StartEach(Missing(wanted, cur), attempts, remote, h + kills))
  }

  /** One reading of the configuration: a missing `apps` key raises before
      anything happens; otherwise the running apps are reconciled with the bank
      the configuration describes. */
  function ConfigRun(cur: seq<App>, config: AppsField, folder: string, dump: Yaml -> string,
                     attempts: nat, remote: seq<Event> -> Answer, h: seq<Event>): Run
  {
    if config.Absent? then Run(Raised(MissingApps), [])
    else DiffRun(cur, BankOf(folder, EntriesOf(config), dump), attempts, remote, h)
  }

  /** The containers stopped and the folders deleted are exactly those of the
      running apps that have no equal wanted app, in running order, whether or
      not the starts that follow succeed. */
  lemma DiffKillsExactly(cur: seq<App>, wanted: seq<App>, attempts: nat, remote: seq<Event> -> Answer, h: seq<Event>)
    ensures Paths(DiffRun(cur, wanted, attempts, remote, h).events, StopKind) == PathsOf(Missing(cur, wanted))
    ensures Paths(DiffRun(cur, wanted, attempts, remote, h).events, DeleteKind) == PathsOf(Missing(cur, wanted))
  {
    var kills := KillEach(Missing(cur, wanted));
    var starts := StartEach(Missing(wanted, cur), attempts, remote, h + kills);
    KillEachIsTeardown(Missing(cur, wanted));
    TeardownEachPaths(PathsOf(Missing(cur, wanted)), StopKind);
    TeardownEachPaths(PathsOf(Missing(cur, wanted)), DeleteKind);
    StartEachPaths(Missing(wanted, cur), attempts, remote, h + kills, StopKind);
    StartEachPaths(Missing(wanted, cur), attempts, remote, h + kills, DeleteKind);
    PathsAppend(kills, starts.events, StopKind);
    PathsAppend(kills, starts.events, DeleteKind);
  }

  /** When the reconciliation succeeds, the apps cloned and brought up are exactly
      the wanted apps that have no equal running app, in configuration order. */
  lemma DiffStartsExactly(cur: seq<App>, wanted: seq<App>, attempts: nat, remote: seq<Event> -> Answer, h: seq<Event>)
    ensures DiffRun(cur, wanted, attempts, remote, h).status == Ok ==>
              Paths(DiffRun(cur, wanted, attempts, remote, h).events, UpKind) == PathsOf(Missing(wanted, cur)) &&
              Paths(DiffRun(cur, wanted, attempts, remote, h).events, CloneKind) == PathsOf(Missing(wanted, cur))
  {
    var kills := KillEach(Missing(cur, wanted));
    var starts := StartEach(Missing(wanted, cur), attempts, remote, h + kills);
    KillEachIsTeardown(Missing(cur, wanted));
    TeardownEachPaths(PathsOf(Missing(cur, wanted)), UpKind);
    TeardownEachPaths(PathsOf(Missing(cur, wanted)), CloneKind);
    StartEachPaths(Missing(wanted, cur), attempts, remote, h + kills, UpKind);
    StartEachPaths(Missing(wanted, cur), attempts, remote, h + kills, CloneKind);
    PathsAppend(kills, starts.events, UpKind);
    PathsAppend(kills, starts.events, CloneKind);
  }

  /** A trace made of teardown events followed by other events has every
      teardown before every other event. */
  lemma TeardownsFirst(down: seq<Event>, rest: seq<Event>)
    requires forall e :: e in down ==> Teardown(e)
    requires forall e :: e in rest ==> !Teardown(e)
    ensures var ev := down + rest;
            forall i, j :: 0 <= i < j < |ev| && Teardown(ev[j]) ==> Teardown(ev[i])
  {
    var ev := down + rest;
    forall j | |down| <= j < |ev| ensures !Teardown(ev[j]) {
      assert ev[j] == rest[j - |down|];
      assert ev[j] in rest;
    }
    forall i | 0 <= i < |down| ensures Teardown(ev[i]) {
      assert ev[i] == down[i];
      assert down[i] in down;
    }
  }

  /** Every kill comes before every start: nothing but teardown precedes a
      teardown event. */
  lemma DiffKillsBeforeStarts(cur: seq<App>, wanted: seq<App>, attempts: nat, remote: seq<Event> -> Answer, h: seq<Event>)
    ensures var ev := DiffRun(cur, wanted, attempts, remote, h).events;
            forall i, j :: 0 <= i < j < |ev| && Teardown(ev[j]) ==> Teardown(ev[i])
  {
    var kills := KillEach(Missing(cur, wanted));
    var starts := StartEach(Missing(wanted, cur), attempts, remote, h + kills);
    KillEachIsTeardown(Missing(cur, wanted));
    TeardownEachOnly(PathsOf(Missing(cur, wanted)));
    StartEachStays(Missing(wanted, cur), attempts, remote, h + kills);
    TeardownsFirst(kills, starts.events);
  }

  /** The reconciliation touches only the folders of the apps it kills or starts. */
  lemma DiffTouchesOnlyChanged(cur: seq<App>, wanted: seq<App>, attempts: nat, remote: seq<Event> -> Answer, h: seq<Event>)
    ensures forall e :: e in DiffRun(cur, wanted, attempts, remote, h).events ==>
              e.path in PathsOf(Missing(cur, wanted)) || e.path in PathsOf(Missing(wanted, cur))
  {
    var kills := KillEach(Missing(cur, wanted));
    var starts := StartEach(Missing(wanted, cur), attempts, remote, h + kills);
    KillEachIsTeardown(Missing(cur, wanted));
    TeardownEachOnly(PathsOf(Missing(cur, wanted)));
    StartEachStays(Missing(wanted, cur), attempts, remote, h + kills);
  }

  /** When every running app has an equal wanted app and every wanted app an
      equal running app, the reconciliation does nothing. */
  lemma DiffQuietWhenCovered(cur: seq<App>, wanted: seq<App>, attempts: nat, remote: seq<Event> -> Answer, h: seq<Event>)
    requires forall i :: 0 <= i < |cur| ==> InBank(wanted, cur[i])
    requires forall i :: 0 <= i < |wanted| ==> InBank(cur, wanted[i])
    ensures DiffRun(cur, wanted, attempts, remote, h) == Run(Ok, [])
  {
    MissingNoneWhenCovered(cur, wanted);
    MissingNoneWhenCovered(wanted, cur);
  }

  /** Reading a configuration whose bank equals the running bank app by app (the
      second of two readings of an unchanged configuration, in particular) kills
      and starts nothing. */
  lemma ConfigIdempotent(cur: seq<App>, config: AppsField, folder: string, dump: Yaml -> string,
                         attempts: nat, remote: seq<Event> -> Answer, h: seq<Event>)
    requires !config.Absent?
    requires |cur| == |BankOf(folder, EntriesOf(config), dump)|
    requires forall i :: 0 <= i < |cur| ==> Eq(cur[i], BankOf(folder, EntriesOf(config), dump)[i])
    ensures ConfigRun(cur, config, folder, dump, attempts, remote, h) == Run(Ok, [])
  {
    var wanted := BankOf(folder, EntriesOf(config), dump);
    forall i | 0 <= i < |cur| ensures InBank(wanted, cur[i]) {
      assert Eq(cur[i], wanted[i]);
    }
    forall i | 0 <= i < |wanted| ensures InBank(cur, wanted[i]) {
      assert Eq(wanted[i], cur[i]);
    }
    DiffQuietWhenCovered(cur, wanted, attempts, remote, h);
  }

  /** An empty `apps` value describes an empty bank: every running app is killed
      and nothing is started. */
  lemma ConfigNullKillsAll(cur: seq<App>, folder: string, dump: Yaml -> string, attempts: nat, remote: seq<Event> -> Answer, h: seq<Event>)
    ensures BankOf(folder, EntriesOf(AppsField.Null), dump) == []
    ensures ConfigRun(cur, AppsField.Null, folder, dump, attempts, remote, h) == Run(Ok, KillEach(cur))
  {
    MissingFromEmpty(cur);
  }

  /** Running {A, B} against wanted {B, C}, all three different: A is killed, C is
      started, and B is left alone. */
  lemma DiffScenario(a: App, b: App, c: App, attempts: nat, remote: seq<Event> -> Answer, h: seq<Event>)
    requires Ne(a, b) && Ne(a, c) && Ne(b, c)
    ensures Missing([a, b], [b, c]) == [a]
    ensures Missing([b, c], [a, b]) == [c]
    ensures Paths(DiffRun([a, b], [b, c], attempts, remote, h).events, StopKind) == [a.path]
    ensures DiffRun([a, b], [b, c], attempts, remote, h).status == Ok ==>
              Paths(DiffRun([a, b], [b, c], attempts, remote, h).events, UpKind) == [c.path]
  {
    assert !InBank([b, c], a);
    assert InBank([b, c], b) by { assert Eq(b, [b, c][0]); }
    assert InBank([a, b], b) by { assert Eq(b, [a, b][1]); }
    assert !InBank([a, b], c);
    assert [a, b][1..] == [b] && [b, c][1..] == [c];
    assert Missing([b], [b, c]) == [];
    assert Missing([c], [a, b]) == [c];
    DiffKillsExactly([a, b], [b, c], attempts, remote, h);
    DiffStartsExactly([a, b], [b, c], attempts, remote, h);
  }

  // ---------------------------------------------------------------------------
  // Following the remote branches

  /** One poll of the running apps: every app's checkout is checked in bank
      order, and an app whose remote has moved is restarted. A missing checkout
      or a git failure escapes, and so does a failed restart. */
  function CommitsRun(apps: seq<App>, attempts: nat, remote: seq<Event> -> Answer, h: seq<Event>): Run
    decreases |apps|
  {
    if apps == [] then Run(Ok, [])
    else
      var poll := [Polled(apps[0].path)];
      match remote(h)
      case UpToDate => Then(poll, CommitsRun(apps[1..], attempts, remote, h + poll))
      case NoSuchPath => Run(Raised(NoSuchPathError), poll)
      case GitError => Run(Raised(GitFailed), poll)
      case NotUpToDate =>
        var re := RestartRun(apps[0], attempts, remote, h + poll);
        if re.status != Ok then Then(poll, re)
        else Then(poll + re.events, CommitsRun(apps[1..], attempts, remote, h + poll + re.events))
  }

  /** The apps whose poll was answered "not up to date", in bank order, up to the
      point where the poll stops. */
  function StaleApps(apps: seq<App>, attempts: nat, remote: seq<Event> -> Answer, h: seq<Event>): (r: seq<App>)
    ensures |r| <= |apps|
    ensures forall a :: a in r ==> a in apps
    decreases |apps|
  {
    if apps == [] then []
    else
      var poll := [Polled(apps[0].path)];
      match remote(h)
      case UpToDate => StaleApps(apps[1..], attempts, remote, h + poll)
      case NotUpToDate =>
        var re := RestartRun(apps[0], attempts, remote, h + poll);
        [apps[0]] + (if re.status != Ok then [] else StaleApps(apps[1..], attempts, remote, h + poll + re.events))
      case _ => []
  }

  /** The poll stops, removes, deletes and clones again exactly the apps found
      stale, in bank order, and when it succeeds it has brought every one of
      them up again. */
  lemma {:induction false} CommitsRestartsExactlyStale(apps: seq<App>, attempts: nat, remote: seq<Event> -> Answer,
                                                       h: seq<Event>, k: Kind)
    requires TeardownKind(k) || k == CloneKind || k == UpKind
    ensures var r := CommitsRun(apps, attempts, remote, h);
            k != UpKind || r.status == Ok ==> Paths(r.events, k) == PathsOf(StaleApps(apps, attempts, remote, h))
    decreases |apps|, 2
  {
    if apps != [] {
      match remote(h)
      case UpToDate => StaleAfterCurrent(apps, attempts, remote, h, k);
      case NotUpToDate => StaleAfterMoved(apps, attempts, remote, h, k);
      case _ =>
        PollPaths(apps[0].path, k);
    }
  }

  /** The step of CommitsRestartsExactlyStale for an app found up to date. */
  lemma {:induction false} StaleAfterCurrent(apps: seq<App>, attempts: nat, remote: seq<Event> -> Answer,
                                             h: seq<Event>, k: Kind)
    requires TeardownKind(k) || k == CloneKind || k == UpKind
    requires apps != [] && remote(h) == UpToDate
    ensures var r := CommitsRun(apps, attempts, remote, h);
            k != UpKind || r.status == Ok ==> Paths(r.events, k) == PathsOf(StaleApps(apps, attempts, remote, h))
    decreases |apps|, 0
  {
    var poll := [Polled(apps[0].path)];
    var rest := CommitsRun(apps[1..], attempts, remote, h + poll);
    CommitsStep(apps, attempts, remote, h);
    CommitsRestartsExactlyStale(apps[1..], attempts, remote, h + poll, k);
    PollPaths(apps[0].path, k);
    PathsAppend(poll, rest.events, k);
  }

  /** The step of CommitsRestartsExactlyStale for an app whose remote has moved. */
  lemma {:induction false} StaleAfterMoved(apps: seq<App>, attempts: nat, remote: seq<Event> -> Answer,
                                           h: seq<Event>, k: Kind)
    requires TeardownKind(k) || k == CloneKind || k == UpKind
    requires apps != [] && remote(h) == NotUpToDate
    ensures var r := CommitsRun(apps, attempts, remote, h);
            k != UpKind || r.status == Ok ==> Paths(r.events, k) == PathsOf(StaleApps(apps, attempts, remote, h))
    decreases |apps|, 1
  {
    var app := apps[0];
    var poll := [Polled(app.path)];
    var re := RestartRun(app, attempts, remote, h + poll);
    if re.status == Ok {
      StaleAfterRestart(apps, attempts, remote, h, k);
    } else {
      CommitsStep(apps, attempts, remote, h);
      PollPaths(app.path, k);
      RestartPaths(app, attempts, remote, h + poll, k);
      PathsAppend(poll, re.events, k);
      assert StaleApps(apps, attempts, remote, h) == [app];
      PathsOfCons(app, []);
    }
  }

  /** The step of CommitsRestartsExactlyStale for an app restarted successfully. */
  lemma {:induction false} StaleAfterRestart(apps: seq<App>, attempts: nat, remote: seq<Event> -> Answer,
                                             h: seq<Event>, k: Kind)
    requires TeardownKind(k) || k == CloneKind || k == UpKind
    requires apps != [] && remote(h) == NotUpToDate
    requires RestartRun(apps[0], attempts, remote, h + [Polled(apps[0].path)]).status == Ok
    ensures var r := CommitsRun(apps, attempts, remote, h);
            k != UpKind || r.status == Ok ==> Paths(r.events, k) == PathsOf(StaleApps(apps, attempts, remote, h))
    decreases |apps|, 0
  {
    var app := apps[0];
    var poll := [Polled(app.path)];
    var re := RestartRun(app, attempts, remote, h + poll);
    var h' := h + poll + re.events;
    var rest := CommitsRun(apps[1..], attempts, remote, h');
    CommitsStep(apps, attempts, remote, h);
    assert AfterPoll(apps, attempts, remote, h) == Then(re.events, rest);
    assert StaleApps(apps, attempts, remote, h) == [app] + StaleApps(apps[1..], attempts, remote, h');
    CommitsRestartsExactlyStale(apps[1..], attempts, remote, h', k);
    PollPaths(app.path, k);
    RestartOkPaths(app, attempts, remote, h + poll, k);
    ConsPaths(poll, re.events, rest.events, k, app.path, Paths(rest.events, k));
    PathsOfCons(app, StaleApps(apps[1..], attempts, remote, h'));
  }

  lemma RestartOkPaths(app: App, attempts: nat, remote: seq<Event> -> Answer, h: seq<Event>, k: Kind)
    requires TeardownKind(k) || k == CloneKind || k == UpKind
    requires RestartRun(app, attempts, remote, h).status == Ok
    ensures Paths(RestartRun(app, attempts, remote, h).events, k) == [app.path]
  {
    RestartPaths(app, attempts, remote, h, k);
  }

  lemma ConsPaths(poll: seq<Event>, mid: seq<Event>, tail: seq<Event>, k: Kind, p: string, ps: seq<string>)
    requires Paths(poll, k) == [] && Paths(mid, k) == [p] && Paths(tail, k) == ps
    ensures Paths(poll + (mid + tail), k) == [p] + ps
  {
    PathsAppend(mid, tail, k);
    PathsAppend(poll, mid + tail, k);
  }

  lemma PollPaths(path: string, k: Kind)
    requires k != PollKind
    ensures Paths([Polled(path)], k) == []
  {
    assert [Polled(path)][1..] == [];
  }

  lemma PathsOfCons(a: App, apps: seq<App>)
    ensures PathsOf([a] + apps) == [a.path] + PathsOf(apps)
  {
    assert ([a] + apps)[1..] == apps;
  }

  /** When every remote is up to date, the poll only checks each checkout, once
      per app, in bank order. */
  lemma {:induction false} CommitsQuietWhenCurrent(apps: seq<App>, attempts: nat, remote: seq<Event> -> Answer, h: seq<Event>)
    requires forall g :: remote(g) == UpToDate
    ensures CommitsRun(apps, attempts, remote, h) == Run(Ok, Polls(apps))
    decreases |apps|
  {
    if apps != [] {
      assert remote(h) == UpToDate;
      CommitsQuietWhenCurrent(apps[1..], attempts, remote, h + [Polled(apps[0].path)]);
    }
  }

  /** The poll touches only the folders of the apps of the bank. */
  lemma {:induction false} CommitsTouchesOnlyBank(apps: seq<App>, attempts: nat, remote: seq<Event> -> Answer, h: seq<Event>)
    ensures forall e :: e in CommitsRun(apps, attempts, remote, h).events ==> e.path in PathsOf(apps)
    decreases |apps|
  {
    if apps != [] {
      var app := apps[0];
      var poll := [Polled(app.path)];
      assert app.path in PathsOf(apps);
      assert forall p :: p in PathsOf(apps[1..]) ==> p in PathsOf(apps);
      match remote(h)
      case UpToDate =>
        CommitsTouchesOnlyBank(apps[1..], attempts, remote, h + poll);
      case NoSuchPath =>
      case GitError =>
      case NotUpToDate =>
        var re := RestartRun(app, attempts, remote, h + poll);
        RestartShape(app, attempts, remote, h + poll);
        if re.status == Ok {
          CommitsTouchesOnlyBank(apps[1..], attempts, remote, h + poll + re.events);
        }
    }
  }

  // ---------------------------------------------------------------------------
  // Start-up and one tick of the loop

  /** Start-up: clear the apps folder, read the configuration, and start every
      configured app in order. */
  function BootRun(listing: seq<DirEntry>, config: AppsField, folder: string, dump: Yaml -> string,
                   attempts: nat, remote: seq<Event> -> Answer, h: seq<Event>): Run
  {
    var clear := DanglingEvents(listing);
    if config.Absent? then Run(Raised(MissingApps), clear)
    else Then(clear, StartEach(BankOf(folder, EntriesOf(config), dump), attempts, remote, h + clear))
  }

  /** Start-up deletes exactly the folders found in the apps folder. */
  lemma BootDeletesDirs(listing: seq<DirEntry>, config: AppsField, folder: string, dump: Yaml -> string,
                        attempts: nat, remote: seq<Event> -> Answer, h: seq<Event>)
    ensures Paths(BootRun(listing, config, folder, dump, attempts, remote, h).events, DeleteKind) == DirPaths(listing)
  {
    var clear := DanglingEvents(listing);
    DanglingTearsDownDirs(listing);
    if !config.Absent? {
      var apps := BankOf(folder, EntriesOf(config), dump);
      var starts := StartEach(apps, attempts, remote, h + clear);
      StartEachPaths(apps, attempts, remote, h + clear, DeleteKind);
      PathsAppend(clear, starts.events, DeleteKind);
    }
  }

  /** Start-up clears the apps folder before it starts anything: nothing but
      teardown precedes a teardown event. */
  lemma BootClearsFirst(listing: seq<DirEntry>, config: AppsField, folder: string, dump: Yaml -> string,
                        attempts: nat, remote: seq<Event> -> Answer, h: seq<Event>)
    ensures var ev := BootRun(listing, config, folder, dump, attempts, remote, h).events;
            forall i, j :: 0 <= i < j < |ev| && Teardown(ev[j]) ==> Teardown(ev[i])
  {
    var clear := DanglingEvents(listing);
    DanglingIsTeardown(listing);
    TeardownEachOnly(DirPaths(listing));
    if config.Absent? {
      forall i | 0 <= i < |clear| ensures Teardown(clear[i]) {
        assert clear[i] in clear;
      }
    } else {
      var apps := BankOf(folder, EntriesOf(config), dump);
      var starts := StartEach(apps, attempts, remote, h + clear);
      StartEachStays(apps, attempts, remote, h + clear);
      TeardownsFirst(clear, starts.events);
    }
  }

  /** When start-up succeeds it has brought every configured app up, in
      configuration order. */
  lemma BootStartsAll(listing: seq<DirEntry>, config: AppsField, folder: string, dump: Yaml -> string,
                      attempts: nat, remote: seq<Event> -> Answer, h: seq<Event>)
    ensures var r := BootRun(listing, config, folder, dump, attempts, remote, h);
            r.status == Ok ==> Paths(r.events, UpKind) == PathsOf(BankOf(folder, EntriesOf(config), dump))
  {
    var clear := DanglingEvents(listing);
    if !config.Absent? {
      var apps := BankOf(folder, EntriesOf(config), dump);
      var starts := StartEach(apps, attempts, remote, h + clear);
      DanglingIsTeardown(listing);
      TeardownEachPaths(DirPaths(listing), UpKind);
      StartEachPaths(apps, attempts, remote, h + clear, UpKind);
      PathsAppend(clear, starts.events, UpKind);
    }
  }

  /** One turn of the loop: reconcile with the configuration, then poll the
      remotes of the apps now running. A failure of the first skips the second. */
  function TickRun(cur: seq<App>, config: AppsField, folder: string, dump: Yaml -> string,
                   attempts: nat, remote: seq<Event> -> Answer, h: seq<Event>): Run
  {
    var c := ConfigRun(cur, config, folder, dump, attempts, remote, h);
    if c.status != Ok then c
    else Then(c.events, CommitsRun(BankOf(folder, EntriesOf(config), dump), attempts, remote, h + c.events))
  }

  /** In the steady state (the configuration unchanged since the bank was built
      and every remote up to date) a turn of the loop only checks each app once. */
  lemma SteadyTick(config: AppsField, folder: string, dump: Yaml -> string, attempts: nat, remote: seq<Event> -> Answer, h: seq<Event>)
    requires !config.Absent?
    requires forall g :: remote(g) == UpToDate
    ensures var apps := BankOf(folder, EntriesOf(config), dump);
            TickRun(apps, config, folder, dump, attempts, remote, h) == Run(Ok, Polls(apps))
  {
    var apps := BankOf(folder, EntriesOf(config), dump);
    ConfigIdempotent(apps, config, folder, dump, attempts, remote, h);
    assert h + [] == h;
    CommitsQuietWhenCurrent(apps, attempts, remote, h);
  }

  /** What is left of a poll of the apps after the check of the first one, for
      the history h before that check. */
  function AfterPoll(apps: seq<App>, attempts: nat, remote: seq<Event> -> Answer, h: seq<Event>): Run
    requires apps != []
  {
    var poll := [Polled(apps[0].path)];
    match remote(h)
    case UpToDate => CommitsRun(apps[1..], attempts, remote, h + poll)
    case NoSuchPath => Run(Raised(NoSuchPathError), [])
    case GitError => Run(Raised(GitFailed), [])
    case NotUpToDate =>
      var re := RestartRun(apps[0], attempts, remote, h + poll);
      if re.status != Ok then re
      else Then(re.events, CommitsRun(apps[1..], attempts, remote, h + poll + re.events))
  }

  lemma CommitsStep(apps: seq<App>, attempts: nat, remote: seq<Event> -> Answer, h: seq<Event>)
    requires apps != []
    ensures CommitsRun(apps, attempts, remote, h) == Then([Polled(apps[0].path)], AfterPoll(apps, attempts, remote, h))
  {
    var poll := [Polled(apps[0].path)];
    if remote(h) == NotUpToDate {
      var re := RestartRun(apps[0], attempts, remote, h + poll);
      if re.status == Ok {
        var rest := CommitsRun(apps[1..], attempts, remote, h + poll + re.events);
        assert poll + re.events + rest.events == poll + (re.events + rest.events);
      }
    }
  }

  /** One step of the loop that kills the running apps no longer wanted: the
      app at i is killed exactly when it is not wanted. */
  lemma KillStep(h0: seq<Event>, kills: seq<Event>, before: seq<Event>, after: seq<Event>,
                 xs: seq<App>, ys: seq<App>, i: nat)
    requires i < |xs|
    requires h0 + kills == before + KillEach(Missing(xs[i..], ys))
    requires InBank(ys, xs[i]) ==> after == before
    requires !InBank(ys, xs[i]) ==> after == before + TeardownEvents(xs[i].path)
    ensures h0 + kills == after + KillEach(Missing(xs[i + 1..], ys))
  {
    MissingStep(xs, ys, i);
    var rest := Missing(xs[i + 1..], ys);
    if !InBank(ys, xs[i]) {
      assert ([xs[i]] + rest)[1..] == rest;
      AppendAssoc(before, TeardownEvents(xs[i].path), KillEach(rest));
    }
  }

  lemma KillsDone(h0: seq<Event>, kills: seq<Event>, log: seq<Event>, xs: seq<App>, ys: seq<App>)
    requires h0 + kills == log + KillEach(Missing(xs[|xs|..], ys))
    ensures log == h0 + kills
  {
    assert xs[|xs|..] == [];
    assert log + [] == log;
  }

  /** Killing the running apps that are no longer wanted and then starting the
      wanted apps that do not run yet is the reconciliation. */
  lemma DiffDone(cur: seq<App>, wanted: seq<App>, attempts: nat, remote: seq<Event> -> Answer,
                 h0: seq<Event>, h1: seq<Event>, log: seq<Event>, whole: Run)
    requires h1 == h0 + KillEach(Missing(cur, wanted))
    requires whole == StartEach(Missing(wanted, cur), attempts, remote, h1)
    requires log == h1 + whole.events
    ensures var r := DiffRun(cur, wanted, attempts, remote, h0);
            log == h0 + r.events && whole.status == r.status
  {
    var kills := KillEach(Missing(cur, wanted));
    assert DiffRun(cur, wanted, attempts, remote, h0) == Then(kills, whole);
    AppendAssoc(h0, kills, whole.events);
  }

  /** Start-up is the clearing followed by the start of the configured apps. */
  lemma BootDone(listing: seq<DirEntry>, config: AppsField, folder: string, dump: Yaml -> string,
                 attempts: nat, remote: seq<Event> -> Answer, h: seq<Event>, log: seq<Event>, st: Status)
    requires !config.Absent?
    requires var s := StartEach(BankOf(folder, EntriesOf(config), dump), attempts, remote, h + DanglingEvents(listing));
             log == h + DanglingEvents(listing) + s.events && st == s.status
    ensures var r := BootRun(listing, config, folder, dump, attempts, remote, h);
            log == h + r.events && st == r.status
  {
    var s := StartEach(BankOf(folder, EntriesOf(config), dump), attempts, remote, h + DanglingEvents(listing));
    AppendAssoc(h, DanglingEvents(listing), s.events);
  }

  /** A turn is the reconciliation followed, when it succeeds, by the poll of the
      apps of the new bank. */
  lemma TickDone(cur: seq<App>, config: AppsField, folder: string, dump: Yaml -> string,
                 attempts: nat, remote: seq<Event> -> Answer, h: seq<Event>, log: seq<Event>, st: Status)
    requires var c := ConfigRun(cur, config, folder, dump, attempts, remote, h);
             var p := CommitsRun(BankOf(folder, EntriesOf(config), dump), attempts, remote, h + c.events);
             if c.status != Ok then log == h + c.events && st == c.status
             else log == h + c.events + p.events && st == p.status
    ensures var r := TickRun(cur, config, folder, dump, attempts, remote, h);
            log == h + r.events && st == r.status
  {
    var c := ConfigRun(cur, config, folder, dump, attempts, remote, h);
    var p := CommitsRun(BankOf(folder, EntriesOf(config), dump), attempts, remote, h + c.events);
    AppendAssoc(h, c.events, p.events);
  }

  class Dispatcher {
    const appsFolder: string
    const dump: Yaml -> string
    /** How many checks a fresh clone is given before its start fails. */
    const attempts: nat
    /** The bank of the apps believed to run; set by Start. */
    var currentBank: AppBank?

    constructor (appsFolder: string, dump: Yaml -> string)
      ensures this.appsFolder == appsFolder && this.dump == dump && attempts == CloneAttempts
      ensures currentBank == null
    {
      this.appsFolder := appsFolder;
      this.dump := dump;
      attempts := CloneAttempts;
      currentBank := null;
    }

    /** Takes down every folder found in the apps folder. */
    method RemoveDangling(host: Host, listing: seq<DirEntry>)
      modifies host
      ensures host.log == old(host.log) + DanglingEvents(listing)
    {
      for i := 0 to |listing|
        invariant old(host.log) + DanglingEvents(listing) == host.log + DanglingEvents(listing[i..])
      {
        assert listing[i..][1..] == listing[i + 1..];
        if listing[i].isDir {
          StopContainers(host, listing[i].path);
          DeleteFolder(host, listing[i].path);
        }
      }
    }

    /** Starts every app of the apps in order, stopping at the first failure. */
    method StartAll(host: Host, apps: seq<App>) returns (st: Status)
      modifies host
      ensures var r := StartEach(apps, attempts, host.remote, old(host.log));
              host.log == old(host.log) + r.events && st == r.status
    {
      ghost var h0 := host.log;
      ghost var whole := StartEach(apps, attempts, host.remote, h0);
      for i := 0 to |apps|
        invariant |h0| <= |host.log| && host.log[..|h0|] == h0
        invariant whole == Then(host.log[|h0|..], StartEach(apps[i..], attempts, host.remote, host.log))
      {
        ghost var before := host.log;
        assert apps[i..] == [apps[i]] + apps[i + 1..];
        StartEachCons(apps[i], apps[i + 1..], attempts, host.remote, before);
        st := Apps.Start(host, apps[i], attempts);
        ShiftGuarded(whole, h0, before, StartRun(apps[i], attempts, host.remote, before),
                     StartEach(apps[i + 1..], attempts, host.remote, host.log));
        if st != Ok {
          Finish(whole, h0, host.log, st);
          return;
        }
      }
      Finish(whole, h0, host.log, Ok);
      return Ok;
    }

    /** Start-up, up to the endless loop: clears the apps folder, builds the bank
        of the configuration, records it as running, and starts its apps. */
    method Start(host: Host, listing: seq<DirEntry>, config: AppsField) returns (st: Status)
      modifies this, host
      ensures var r := BootRun(listing, config, appsFolder, dump, attempts, host.remote, old(host.log));
              host.log == old(host.log) + r.events && st == r.status
      ensures config.Absent? ==> currentBank == old(currentBank)
      ensures !config.Absent? ==>
                currentBank != null && fresh(currentBank) &&
                currentBank.apps == BankOf(appsFolder, EntriesOf(config), dump)
    {
      ghost var h := host.log;
      RemoveDangling(host, listing);
      if config.Absent? {
        return Raised(MissingApps);
      }
      var bank := new AppBank(EntriesOf(config), appsFolder, dump);
      currentBank := bank;
      st := StartAll(host, bank.apps);
      BootDone(listing, config, appsFolder, dump, attempts, host.remote, h, host.log, st);
    }

    /** Kills, in order, every app of `running` that has no equal app in `bank`. */
    method KillUnwanted(host: Host, running: seq<App>, bank: AppBank)
      modifies host
      ensures host.log == old(host.log) + KillEach(Missing(running, bank.apps))
    {
      ghost var h0 := host.log;
      ghost var kills := KillEach(Missing(running, bank.apps));
      for i := 0 to |running|
        invariant h0 + kills == host.log + KillEach(Missing(running[i..], bank.apps))
      {
        ghost var before := host.log;
        var keep := bank.Contains(running[i]);
        if !keep {
          Kill(host, running[i]);
        }
        KillStep(h0, kills, before, host.log, running, bank.apps, i);
      }
      KillsDone(h0, kills, host.log, running, bank.apps);
    }

    /** Starts, in order, every app of `wanted` that has no equal app in `bank`,
        stopping at the first failure. */
    method StartUnstarted(host: Host, wanted: seq<App>, bank: AppBank) returns (st: Status)
      modifies host
      ensures var r := StartEach(Missing(wanted, bank.apps), attempts, host.remote, old(host.log));
              host.log == old(host.log) + r.events && st == r.status
    {
      ghost var h0 := host.log;
      ghost var whole := StartEach(Missing(wanted, bank.apps), attempts, host.remote, h0);
      for i := 0 to |wanted|
        invariant |h0| <= |host.log| && host.log[..|h0|] == h0
        invariant whole == Then(host.log[|h0|..], StartEach(Missing(wanted[i..], bank.apps), attempts, host.remote, host.log))
      {
        MissingStep(wanted, bank.apps, i);
        var running := bank.Contains(wanted[i]);
        if !running {
          ghost var before := host.log;
          ghost var rest := Missing(wanted[i + 1..], bank.apps);
          StartEachCons(wanted[i], rest, attempts, host.remote, before);
          st := Apps.Start(host, wanted[i], attempts);
          ShiftGuarded(whole, h0, before, StartRun(wanted[i], attempts, host.remote, before),
                       StartEach(rest, attempts, host.remote, host.log));
          if st != Ok {
            Finish(whole, h0, host.log, st);
            return;
          }
        }
      }
      assert wanted[|wanted|..] == [];
      Finish(whole, h0, host.log, Ok);
      return Ok;
    }

    /** Reads the configuration again and reconciles the running apps with it:
        kills the running apps it no longer wants, starts the apps it newly
        wants, and then records its bank as running. */
    method UpdateFromConfig(host: Host, config: AppsField) returns (st: Status)
      requires currentBank != null
      modifies this, host
      ensures var r := ConfigRun(old(currentBank.apps), config, appsFolder, dump, attempts, host.remote, old(host.log));
              host.log == old(host.log) + r.events && st == r.status
      ensures currentBank != null
      ensures st == Ok ==> fresh(currentBank) && currentBank.apps == BankOf(appsFolder, EntriesOf(config), dump)
      ensures st != Ok ==> currentBank == old(currentBank) && currentBank.apps == old(currentBank.apps)
    {
      if config.Absent? {
        return Raised(MissingApps);
      }
      var newBank := new AppBank(EntriesOf(config), appsFolder, dump);
      var cur := currentBank;
      ghost var h0 := host.log;
      KillUnwanted(host, cur.apps, newBank);
      ghost var h1 := host.log;
      st := StartUnstarted(host, newBank.apps, cur);
      DiffDone(cur.apps, newBank.apps, attempts, host.remote, h0, h1, host.log,
               StartEach(Missing(newBank.apps, cur.apps), attempts, host.remote, h1));
      if st == Ok {
        currentBank := newBank;
      }
    }

    /** Polling the remote of every running app and restarts those that are not
        up to date. */
    method UpdateFromCommits(host: Host) returns (st: Status)
      requires currentBank != null
      modifies host
      ensures var r := CommitsRun(currentBank.apps, attempts, host.remote, old(host.log));
              host.log == old(host.log) + r.events && st == r.status
    {
      var apps := currentBank.apps;
      ghost var h0 := host.log;
      ghost var whole := CommitsRun(apps, attempts, host.remote, h0);
      for i := 0 to |apps|
        invariant |h0| <= |host.log| && host.log[..|h0|] == h0
        invariant whole == Then(host.log[|h0|..], CommitsRun(apps[i..], attempts, host.remote, host.log))
      {
        ghost var before := host.log;
        assert apps[i..][0] == apps[i] && apps[i..][1..] == apps[i + 1..];
        CommitsStep(apps[i..], attempts, host.remote, before);
        var a := host.Uptodate(apps[i].path);
        Shift(whole, h0, before, [Polled(apps[i].path)], AfterPoll(apps[i..], attempts, host.remote, before));
        if a == NoSuchPath {
          Finish(whole, h0, host.log, Raised(NoSuchPathError));
          return Raised(NoSuchPathError);
        }
        if a == GitError {
          Finish(whole, h0, host.log, Raised(GitFailed));
          return Raised(GitFailed);
        }
        if a == NotUpToDate {
          ghost var mid := host.log;
          st := Restart(host, apps[i], attempts);
          ShiftGuarded(whole, h0, mid, RestartRun(apps[i], attempts, host.remote, mid),
                       CommitsRun(apps[i + 1..], attempts, host.remote, host.log));
          if st != Ok {
            Finish(whole, h0, host.log, st);
            return;
          }
        }
      }
      Finish(whole, h0, host.log, Ok);
      return Ok;
    }

    /** One turn of the endless loop (the pause that follows it is left out). */
    method Tick(host: Host, config: AppsField) returns (st: Status)
      requires currentBank != null
      modifies this, host
      ensures var r := TickRun(old(currentBank.apps), config, appsFolder, dump, attempts, host.remote, old(host.log));
              host.log == old(host.log) + r.events && st == r.status
      ensures currentBank != null
      ensures var c := ConfigRun(old(currentBank.apps), config, appsFolder, dump, attempts, host.remote, old(host.log));
              c.status == Ok ==> fresh(currentBank) && currentBank.apps == BankOf(appsFolder, EntriesOf(config), dump)
      ensures var c := ConfigRun(old(currentBank.apps), config, appsFolder, dump, attempts, host.remote, old(host.log));
              c.status != Ok ==> currentBank == old(currentBank) && currentBank.apps == old(currentBank.apps)
    {
      ghost var h := host.log;
      ghost var cur := currentBank.apps;
      st := UpdateFromConfig(host, config);
      ghost var bank := currentBank;
      ghost var apps := currentBank.apps;
      if st == Ok {
        st := UpdateFromCommits(host);
      }
      assert currentBank == bank && currentBank.apps == apps;
      TickDone(cur, config, appsFolder, dump, attempts, host.remote, h, host.log, st);
    }
  }
}
