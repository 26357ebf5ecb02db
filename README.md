# moon reconciliation engine in Dafny

moon is a small deployment daemon. It reads a YAML configuration that lists
apps. Each app is a git repository URL, a branch and a docker-compose
document. moon keeps one folder per app under an apps folder:

- at start-up it clears that folder and starts every configured app;
- on every turn of its loop it re-reads the configuration, kills the apps no
  longer wanted, starts the newly wanted ones, and restarts every app whose
  remote branch has moved.

This project models that engine, as written in `__init__.py`, and proves what
it does to the outside world.

Four modules make up the model:

- `Effects`: the outside world.
  - Every git, docker-compose and filesystem operation is an `Event` appended
    to the trace `log` of a `Host` object.
  - One `Remote.uptodate` check (open the checkout, fetch `origin`, read the
    first flag) is one `Polled` event. It is answered by an oracle `remote`
    that sees the whole history before it. Its answers are: up to date (fetch
    flag 4), some other flag, no checkout yet (`NoSuchPathError`, raised when
    the checkout is opened, before any fetch), or another git failure.
- `Apps`: the app entity.
  - Its identity string `hash`, and `==` and `!=` between apps.
  - `Remote.clone` with its wait of up to `CloneAttempts` (300) checks.
  - `App.start`, `App.kill` and `App.restart`.
- `Bank`: `AppBank`, meaning the apps of one reading of the configuration and
  a membership scan over them.
- `Dispatch`: the `Dispatcher` class.
  - `remove_dangling`.
  - `start`, up to the loop.
  - `update_from_config`.
  - `update_from_commits`.
  - One turn of `loop`.

Each imperative operation is a method that changes `host.log` (and
`currentBank`). Its postcondition ties the new trace and the outcome to a
pure run function: `CloneRun`, `StartRun`, `RestartRun`, `DiffRun`/`ConfigRun`,
`CommitsRun`, `BootRun` or `TickRun`. A `Run` is the outcome status (`Ok` or
the exception raised) together with the events issued, in order. The
properties the engine promises are then proved as lemmas about those
functions. `Paths(events, kind)` lists the folders named by the events of one
kind; it states which apps were stopped, deleted, cloned or brought up, and
in which order.

Points where the code behaves in a way a reader may not expect:

- A configuration without an `apps` key raises a `KeyError` (`MissingApps`);
  an empty `apps` value gives an empty bank.
- An exception in a turn of the loop is not caught; it ends the loop.
- Two apps are equal when their concatenated key strings are equal. The
  concatenation is ambiguous, so apps with different folders and URLs can be
  equal (`KeyCollision`).
- `update_from_commits` does not treat a missing checkout as "not ready". Only
  the clone wait does; here a `NoSuchPathError` escapes.

## Model

| member | source | states |
|---|---|---|
| Effects.Host.Uptodate | __init__.py:149-153 | one check of the checkout is recorded (opening it and, when it exists, fetching `origin`), and the answer is the remote's answer for the history before it |
| Effects.TeardownEachPaths | __init__.py:97-101 | taking folders down stops, removes and deletes exactly those folders, in order, and clones, checks, writes and brings up nothing |
| Effects.TeardownEachBlocks | __init__.py:97-101 | every taken-down folder gets the container stop, then `rm -f`, then the deletion of the folder, as three consecutive events |
| Effects.TeardownEachOnly | __init__.py:97-101 | tearing down issues only teardown events, and only for the given folders |
| Apps.Join | __init__.py:63 | `os.path.join` of the apps folder and an entry name: an absolute name replaces the folder, otherwise they are joined with exactly one `/` |
| Apps.JoinShape | __init__.py:63 | the folder of an app is the apps folder joined with its name: an absolute name stands alone, otherwise the path starts with the folder and ends with the name |
| Apps.NewApp | __init__.py:79-89 | a new app keeps its folder, URL, branch and compose document, and its identity is the key string folder + URL + branch + serialised compose |
| Apps.Eq | __init__.py:105-108 | `==` between apps compares their `hash` identities |
| Apps.Ne | __init__.py:109-112 | `!=` between apps is `not ==` |
| Apps.NeNegatesEq | __init__.py:109-112 | `!=` between apps is the negation of `==` |
| Apps.EqIsEquivalence | __init__.py:105-108 | `==` between apps is reflexive, symmetric and transitive |
| Apps.EqIffKeys | __init__.py:84-89 | two built apps are equal exactly when their key strings are equal |
| Apps.SameFieldsEqual | __init__.py:84-89 | apps built from identical fields are equal |
| Apps.EqSplitsFields | __init__.py:84-89 | when the folders, URLs and branches have equal lengths, equality is field-wise, the compose documents compared by their serialisations |
| Apps.KeyCollision | __init__.py:84-89 | two apps with different folders and different URLs can still be equal, because the key is a plain concatenation |
| Apps.CloneWait | __init__.py:139-148 | the wait after the clone: each attempt checks the checkout once; "up to date" succeeds, "not up to date" and a missing checkout try again, another git failure escapes, and running out of attempts raises `TimeoutError` (`CloneTimeout`); the outcome is one of those three |
| Apps.CloneWaitPolls | __init__.py:139-147 | the clone wait only checks the checkout, at most once per attempt |
| Apps.CloneWaitTimesOut | __init__.py:139-148 | the wait raises `TimeoutError` exactly when every attempt was answered "not up to date" or "no checkout yet", and it then checked the checkout once per attempt |
| Apps.CloneWaitSucceeds | __init__.py:139-144 | the wait succeeds after n+1 checks exactly when attempt n is the first one answered "up to date" and all attempts before it were told to try again |
| Apps.Clone | __init__.py:132-148 | the trace grows by the `git clone` of the app's branch into its folder, then the checks of the wait, and the outcome is that of the wait |
| Apps.StartShape | __init__.py:90-96 | a start begins with the clone, stays in the app's folder and tears nothing down; if it succeeds it ends with the writes of both compose files and `up`; if the clone fails it writes nothing and brings nothing up |
| Apps.BringUpPaths | __init__.py:92-95 | after the wait, the two compose files are written and the containers are brought up once |
| Apps.StartPaths | __init__.py:90-96 | a start clones the app once, and writes both compose files and brings it up exactly when the clone succeeded |
| Apps.Start | __init__.py:90-96 | the trace grows by the start's events, and the outcome is that of the clone |
| Apps.StopContainers | __init__.py:163-167 | the trace grows by `docker-compose stop` and then `docker-compose rm -f`, both in the app's folder |
| Apps.DeleteFolder | __init__.py:122-124 | the trace grows by the recursive deletion of the folder |
| Apps.Kill | __init__.py:97-101 | killing an app stops and removes its containers, then deletes its folder |
| Apps.RestartShape | __init__.py:102-104 | a restart is the full kill followed by the clone, all in the app's folder, with nothing torn down after the kill, and it ends with both compose files and `up` when it succeeds |
| Apps.RestartPaths | __init__.py:102-104 | a restart stops, removes and deletes the app once, clones it once, and brings it up exactly when it succeeds |
| Apps.Restart | __init__.py:102-104 | the trace grows by the kill and then the start of the app |
| Bank.BankOfApps | __init__.py:59-66 | the bank holds one app per configuration entry, in entry order, each built in the folder named after its entry |
| Bank.AppBank.constructor | __init__.py:59-66 | the bank built by appending one app per entry is the bank of the entries |
| Bank.AppBank.Contains | __init__.py:71-75 | the scan answers true exactly when some app of the bank is equal to the item |
| Bank.InBank | __init__.py:71-75 | the `in` scan of a bank: some app of the bank is `==` to the item |
| Bank.Missing | __init__.py:39-44 | the apps of one bank that are not `in` the other, in the first bank's order; never more than the first bank holds |
| Bank.MissingExactly | __init__.py:39-44 | the apps missing from a bank are exactly the apps without an equal app in it |
| Bank.MissingNoneWhenCovered | __init__.py:39-44 | when every app has an equal app in the other bank, none is missing |
| Bank.MissingFromEmpty | __init__.py:36-41 | against an empty bank every app is missing |
| Dispatch.DanglingEvents | __init__.py:29-34 | the clearing of the apps folder: for every folder of the listing, in listing order, container stop, `rm -f` and deletion; plain files are skipped |
| Dispatch.DanglingIsTeardown | __init__.py:29-34 | clearing the apps folder is the teardown of the folders of the listing, in listing order |
| Dispatch.DanglingTearsDownDirs | __init__.py:29-34 | clearing stops, removes and deletes every folder of the listing, in order, and only those; plain files are skipped |
| Dispatch.DanglingQuietWhenNoDirs | __init__.py:29-34 | with no folder in the apps folder, clearing issues nothing |
| Dispatch.Dispatcher.RemoveDangling | __init__.py:27-34 | the trace grows by exactly the clearing of the listing |
| Dispatch.StartEachStays | __init__.py:24-25 | starting apps touches only their folders and tears nothing down |
| Dispatch.StartEachPaths | __init__.py:24-25 | starting apps stops and deletes nothing, and when it succeeds it clones and brings up every app once, in order |
| Dispatch.KillEachIsTeardown | __init__.py:39-41 | killing apps in order is the teardown of their folders in order |
| Dispatch.DiffRun | __init__.py:39-44 | the reconciliation: the kills of the running apps not in the new bank, then the starts of the new apps not in the running bank, stopping at the first failed start |
| Dispatch.ConfigRun | __init__.py:35-45 | one reading of the configuration: a missing `apps` key raises `KeyError` before anything happens; otherwise the reconciliation with the configuration's bank |
| Dispatch.DiffKillsExactly | __init__.py:39-41 | the reconciliation stops and deletes exactly the running apps without an equal wanted app, in running order, whether or not the starts succeed |
| Dispatch.DiffStartsExactly | __init__.py:42-44 | a successful reconciliation clones and brings up exactly the wanted apps without an equal running app, in configuration order |
| Dispatch.DiffKillsBeforeStarts | __init__.py:39-44 | every kill comes before every start: nothing but teardown precedes a teardown event |
| Dispatch.DiffTouchesOnlyChanged | __init__.py:39-44 | the reconciliation touches only the folders of the apps it kills or starts |
| Dispatch.DiffQuietWhenCovered | __init__.py:39-44 | when each bank covers the other, the reconciliation issues nothing and succeeds |
| Dispatch.ConfigIdempotent | __init__.py:35-45 | re-reading a configuration whose bank equals the running bank app by app issues nothing |
| Dispatch.ConfigNullKillsAll | __init__.py:36-44 | an empty `apps` value builds an empty bank, and then every running app is killed and nothing is started |
| Dispatch.DiffScenario | __init__.py:39-44 | with {A, B} running and {B, C} wanted, A is stopped and C is brought up, and B is left alone |
| Dispatch.CommitsRun | __init__.py:46-49 | the poll: each app in bank order is checked once; "not up to date" restarts it, a missing checkout or another git failure escapes, and a failed restart ends the poll |
| Dispatch.CommitsRestartsExactlyStale | __init__.py:46-49 | a poll stops, removes, deletes and clones again exactly the apps answered "not up to date", in bank order, and when it succeeds it brings each of them up again |
| Dispatch.CommitsQuietWhenCurrent | __init__.py:46-49 | when every remote is up to date, a poll only checks each app once, in bank order |
| Dispatch.CommitsTouchesOnlyBank | __init__.py:46-49 | a poll touches only the folders of the bank's apps |
| Dispatch.BootRun | __init__.py:18-25 | start-up: the clearing of the apps folder, then a `KeyError` when the `apps` key is missing, and otherwise the starts of the configured apps in order up to the first failure |
| Dispatch.BootDeletesDirs | __init__.py:18-25 | start-up deletes exactly the folders found in the apps folder |
| Dispatch.BootClearsFirst | __init__.py:19-25 | start-up clears the apps folder before it starts anything |
| Dispatch.BootStartsAll | __init__.py:18-25 | a successful start-up brings up every configured app, in configuration order |
| Dispatch.TickRun | __init__.py:50-54 | one turn of the loop: the reading of the configuration and, when it succeeds, the poll of the new bank's apps |
| Dispatch.SteadyTick | __init__.py:50-54 | with the configuration unchanged and every remote up to date, a turn of the loop only checks each app once |
| Dispatch.Dispatcher.constructor | __init__.py:13-17 | a new dispatcher keeps its apps folder, gives each clone 300 attempts, and has no bank yet |
| Dispatch.Dispatcher.StartAll | __init__.py:24-25 | the trace grows by the starts of the apps in order, up to the first failure, and the outcome is that of the failure or `Ok` |
| Dispatch.Dispatcher.Start | __init__.py:18-25 | the trace grows by the clearing and then the starts of the configured apps; a missing `apps` key raises after the clearing; otherwise the current bank is the configuration's bank |
| Dispatch.Dispatcher.KillUnwanted | __init__.py:39-41 | the trace grows by the kills of the running apps without an equal app in the new bank, in running order |
| Dispatch.Dispatcher.StartUnstarted | __init__.py:42-44 | the trace grows by the starts of the new apps without an equal running app, in configuration order, up to the first failure |
| Dispatch.Dispatcher.UpdateFromConfig | __init__.py:35-45 | the trace grows by the kills and then the starts of the reconciliation; when it succeeds the current bank is the new bank, in configuration order, and otherwise the bank is unchanged |
| Dispatch.Dispatcher.UpdateFromCommits | __init__.py:46-49 | the trace grows by one check per app in bank order, with a restart after each check answered "not up to date", up to the first failure |
| Dispatch.Dispatcher.Tick | __init__.py:50-54 | a turn is the reconciliation followed, when it succeeds, by the poll of the apps of the new bank; when the reading of the configuration succeeds the current bank is a fresh bank of the configuration's apps, and otherwise it is the old bank, unchanged |

## Left out

- The git, docker-compose and filesystem operations are events on the host's trace. Their failures are not modelled:
  - `shutil.rmtree` and the writes always succeed;
  - `os.chdir` is left out;
  - a failed `git clone` or `docker-compose` run goes unnoticed, as it does in the code.
- `os.makedirs` of the apps folder is left out. `os.scandir` is an input listing of entries, each marked as a folder or not.
- Reading the configuration file is an input `AppsField`: no `apps` key, an empty value, or the entries in mapping order. Entries lacking `url`, `branch` or `compose` (a `KeyError` in the code) are not modelled.
- `yaml.dump` is an opaque deterministic function `dump` of the dispatcher. An app keeps `dump(compose)` as `text`, used by both the key and the compose files. Since `dump` is a function, calling it again when the files are written gives the same text.
- Python's `hash` of the key string is replaced by the key string itself. Distinct keys that happen to hash alike are therefore not modelled.
- The `NotImplemented` results of `__eq__` and `__ne__` for operands that are not apps are left out; only apps are compared.
- `time.sleep` in the clone wait and in the loop is left out. The infinite loop is modelled as one turn (`Tick`), and the `__main__` entry with its logging catch-all is left out.
- Logging is left out.
- `Apps.Clone`, `Apps.Start` and the run functions take the number of attempts as a parameter `attempts`. The dispatcher fixes it to `CloneAttempts` (300) when it is built.
- The two loops of `update_from_config` are the methods `KillUnwanted` and `StartUnstarted` of the dispatcher, called one after the other.
