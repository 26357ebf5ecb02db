/** The outside world of the reconciliation engine: every git, docker-compose
    and filesystem operation it issues is recorded as an event on a host,
    and the answers of the remote repositories come from an oracle. */
module Effects {

  /** One externally visible effect. Every event names the app folder it concerns. */
  datatype Event =
    | ComposeStop(path: string)                          // `docker-compose stop` run in path
    | ComposeRm(path: string)                            // `docker-compose rm -f` run in path
    | Delete(path: string)                               // recursive removal of the folder
    | GitClone(path: string, url: string, branch: string) // `git clone -b branch url path`
    | Polled(path: string)                               // one `uptodate()` check of the checkout at path
    | Write(path: string, file: ComposeFile, content: string) // overwrite of path/file with content
    | ComposeUp(path: string)                            // `docker-compose up --build -d`, not awaited

  /** The two compose files of an app folder. */
  datatype ComposeFile =
    | Main      // docker-compose.yml
    | Override  // docker-compose.override.yml

  /** What one `uptodate()` check tells: the checkout exists and the first flag of
      its fetch of `origin` was "up to date" (4) or some other flag; or opening the
      checkout failed because it does not exist yet; or git failed otherwise.
      Only the first two outcomes come after an actual fetch. */
  datatype Answer = UpToDate | NotUpToDate | NoSuchPath | GitError

  /** Events that take an app down. */
  predicate Teardown(e: Event)
  {
    e.ComposeStop? || e.ComposeRm? || e.Delete?
  }

  datatype Kind = StopKind | RmKind | DeleteKind | CloneKind | PollKind | WriteKind | UpKind

  function KindOf(e: Event): Kind
  {
    match e
    case ComposeStop(_) => StopKind
    case ComposeRm(_) => RmKind
    case Delete(_) => DeleteKind
    case GitClone(_, _, _) => CloneKind
    case Polled(_) => PollKind
    case Write(_, _, _) => WriteKind
    case ComposeUp(_) => UpKind
  }

  /** The folder an event contributes to the paths of kind k. */
  function PathOf(e: Event, k: Kind): seq<string>
  {
    if KindOf(e) == k then [e.path] else []
  }

  /** The folders named by the events of one kind, in trace order. */
  function Paths(ev: seq<Event>, k: Kind): (r: seq<string>)
    ensures |r| <= |ev|
  {
    if ev == [] then []
    else PathOf(ev[0], k) + Paths(ev[1..], k)
  }

  lemma PathsCons(e: Event, rest: seq<Event>, k: Kind)
    ensures Paths([e] + rest, k) == PathOf(e, k) + Paths(rest, k)
  {
    assert ([e] + rest)[1..] == rest;
  }

  lemma AppendAssoc<T>(a: seq<T>, b: seq<T>, c: seq<T>)
    ensures a + b + c == a + (b + c)
  {
  }

  lemma {:induction false} PathsAppend(a: seq<Event>, b: seq<Event>, k: Kind)
    ensures Paths(a + b, k) == Paths(a, k) + Paths(b, k)
    decreases |a|
  {
    if a == [] {
      assert a + b == b;
      assert Paths(a, k) + Paths(b, k) == Paths(b, k);
    } else {
      var e, rest := a[0], a[1..];
      assert a == [e] + rest;
      AppendAssoc([e], rest, b);
      PathsAppend(rest, b, k);
      PathsCons(e, rest, k);
      PathsCons(e, rest + b, k);
      AppendAssoc(PathOf(e, k), Paths(rest, k), Paths(b, k));
    }
  }

  lemma {:induction false} PathsNone(ev: seq<Event>, k: Kind)
    requires forall e :: e in ev ==> KindOf(e) != k
    ensures Paths(ev, k) == []
    decreases |ev|
  {
    if ev != [] {
      assert ev[0] in ev;
      assert forall e :: e in ev[1..] ==> e in ev;
      PathsNone(ev[1..], k);
    }
  }

  /** The three events of taking the app in path down: container stop, container
      removal, then removal of the folder. */
  function TeardownEvents(path: string): seq<Event>
  {
    [ComposeStop(path), ComposeRm(path), Delete(path)]
  }

  /** The kinds of the teardown events. */
  predicate TeardownKind(k: Kind)
  {
    k == StopKind || k == RmKind || k == DeleteKind
  }

  lemma TeardownEventsPaths(path: string, k: Kind)
    ensures Paths(TeardownEvents(path), k) == if TeardownKind(k) then [path] else []
  {
    var down := TeardownEvents(path);
    assert down[1..][1..][1..] == [];
    assert Paths(down[1..][1..], k) == (if k == DeleteKind then [path] else []);
    assert Paths(down[1..], k) == (if k == RmKind then [path] else []) + Paths(down[1..][1..], k);
  }

  function TeardownEach(paths: seq<string>): seq<Event>
  {
    if paths == [] then [] else TeardownEvents(paths[0]) + TeardownEach(paths[1..])
  }

  /** Tearing down a list of folders stops, removes and deletes each of them, in
      order, every folder's container before its folder. */
  lemma {:induction false} TeardownEachBlocks(paths: seq<string>)
    ensures |TeardownEach(paths)| == 3 * |paths|
    ensures forall i :: 0 <= i < |paths| ==>
              TeardownEach(paths)[3 * i .. 3 * i + 3] == TeardownEvents(paths[i])
    decreases |paths|
  {
    if paths != [] {
      var rest := paths[1..];
      TeardownEachBlocks(rest);
      var ev := TeardownEach(paths);
      assert ev == TeardownEvents(paths[0]) + TeardownEach(rest);
      forall i | 0 <= i < |paths|
        ensures ev[3 * i .. 3 * i + 3] == TeardownEvents(paths[i])
      {
        if i > 0 {
          assert ev[3 * i .. 3 * i + 3] == TeardownEach(rest)[3 * (i - 1) .. 3 * (i - 1) + 3];
        }
      }
    }
  }

  /** The containers stopped, the containers removed and the folders deleted are
      exactly the given folders, in order; nothing else is cloned, polled,
      written or brought up. */
  lemma {:induction false} TeardownEachPaths(paths: seq<string>, k: Kind)
    ensures Paths(TeardownEach(paths), k) == if TeardownKind(k) then paths else []
    decreases |paths|
  {
    if paths != [] {
      var p, rest := paths[0], paths[1..];
      TeardownEachPaths(rest, k);
      PathsAppend(TeardownEvents(p), TeardownEach(rest), k);
      TeardownEventsPaths(p, k);
      if TeardownKind(k) {
        assert [p] + rest == paths;
      }
    }
  }

  /** Tearing down folders issues nothing but teardown events of those folders. */
  lemma {:induction false} TeardownEachOnly(paths: seq<string>)
    ensures forall e :: e in TeardownEach(paths) ==> Teardown(e) && e.path in paths
    decreases |paths|
  {
    if paths != [] {
      TeardownEachOnly(paths[1..]);
      assert TeardownEach(paths) == TeardownEvents(paths[0]) + TeardownEach(paths[1..]);
    }
  }

  /** The machine the engine runs on: the trace of effects issued so far and the
      remote repositories, whose answer to an `uptodate()` check may depend on
      everything that happened before it. */
  class Host {
    var log: seq<Event>
    const remote: seq<Event> -> Answer

    constructor (remote: seq<Event> -> Answer)
      ensures log == [] && this.remote == remote
    {
      log := [];
      this.remote := remote;
    }

    /** Issues an effect whose outcome the engine does not look at. */
    method Emit(e: Event)
      modifies this
      ensures log == old(log) + [e]
    {
      log := log + [e];
    }

    /** One `uptodate()` check of the checkout at path: opening it, and, when it
        exists, fetching `origin` and reporting the first flag of the result. The
        event records the check whether or not the fetch was reached. */
    method Uptodate(path: string) returns (a: Answer)
      modifies this
      ensures a == remote(old(log))
      ensures log == old(log) + [Polled(path)]
    {
      a := remote(log);
      log := log + [Polled(path)];
    }
  }
}
