/** The app bank: the apps of one reading of the configuration, in the
    configuration's order, with membership decided by app equality. */
module Bank {
  import opened Effects
  import opened Apps

  /** One entry of the configuration's `apps` mapping: the app's name, which is
      also the name of its folder, and its settings. */
  datatype Entry = Entry(name: string, url: string, branch: string, compose: Yaml)

  /** The value found under the configuration's `apps` key: no such key, an
      empty value, or the entries of the mapping in their order. */
  datatype AppsField = Absent | Null | Listed(entries: seq<Entry>)

  /** The app built for an entry, in its folder under the apps folder. */
  function AppOf(folder: string, e: Entry, dump: Yaml -> string): App
  {
    NewApp(Join(folder, e.name), e.url, e.branch, e.compose, dump)
  }

  /** The apps of a bank built from the entries, in order. */
  function BankOf(folder: string, entries: seq<Entry>, dump: Yaml -> string): seq<App>
    decreases |entries|
  {
    if entries == [] then []
    else BankOf(folder, entries[..|entries| - 1], dump) + [AppOf(folder, entries[|entries| - 1], dump)]
  }

  /** The bank holds one app per entry: the app at i is the one built for entry i. */
  lemma {:induction false} BankOfApps(folder: string, entries: seq<Entry>, dump: Yaml -> string)
    ensures |BankOf(folder, entries, dump)| == |entries|
    ensures forall i :: 0 <= i < |entries| ==> BankOf(folder, entries, dump)[i] == AppOf(folder, entries[i], dump)
    decreases |entries|
  {
    if entries != [] {
      var init := entries[..|entries| - 1];
      BankOfApps(folder, init, dump);
      forall i | 0 <= i < |init| ensures entries[i] == init[i] {
      }
    }
  }

  lemma BankOfSnoc(folder: string, entries: seq<Entry>, i: nat, dump: Yaml -> string)
    requires i < |entries|
    ensures BankOf(folder, entries[..i + 1], dump) == BankOf(folder, entries[..i], dump) + [AppOf(folder, entries[i], dump)]
  {
    assert entries[..i + 1][..i] == entries[..i];
  }

  /** Some app of the bank is equal to x. */
  predicate InBank(apps: seq<App>, x: App)
  {
    exists i :: 0 <= i < |apps| && Eq(x, apps[i])
  }

  /** The apps of xs that have no equal app in ys, in the order of xs. */
  function Missing(xs: seq<App>, ys: seq<App>): (r: seq<App>)
    ensures |r| <= |xs|
    decreases |xs|
  {
    if xs == [] then []
    else (if InBank(ys, xs[0]) then [] else [xs[0]]) + Missing(xs[1..], ys)
  }

  /** The missing apps are exactly the apps of xs with no equal app in ys. */
  lemma {:induction false} MissingExactly(xs: seq<App>, ys: seq<App>)
    ensures forall a :: a in Missing(xs, ys) ==> a in xs && !InBank(ys, a)
    ensures forall i :: 0 <= i < |xs| && !InBank(ys, xs[i]) ==> xs[i] in Missing(xs, ys)
    decreases |xs|
  {
    if xs != [] {
      MissingExactly(xs[1..], ys);
      assert forall a :: a in xs[1..] ==> a in xs;
      forall i | 0 < i < |xs| && !InBank(ys, xs[i]) ensures xs[i] in Missing(xs, ys) {
        assert xs[i] == xs[1..][i - 1];
      }
    }
  }

  /** Scanning xs from position i: the app at i is missing or not, then the rest. */
  lemma MissingStep(xs: seq<App>, ys: seq<App>, i: nat)
    requires i < |xs|
    ensures InBank(ys, xs[i]) ==> Missing(xs[i..], ys) == Missing(xs[i + 1..], ys)
    ensures !InBank(ys, xs[i]) ==> Missing(xs[i..], ys) == [xs[i]] + Missing(xs[i + 1..], ys)
  {
    assert xs[i..][0] == xs[i] && xs[i..][1..] == xs[i + 1..];
    assert [] + Missing(xs[i + 1..], ys) == Missing(xs[i + 1..], ys);
  }

  /** When every app of xs has an equal app in ys, nothing of xs is missing. */
  lemma {:induction false} MissingNoneWhenCovered(xs: seq<App>, ys: seq<App>)
    requires forall i :: 0 <= i < |xs| ==> InBank(ys, xs[i])
    ensures Missing(xs, ys) == []
    decreases |xs|
  {
    if xs != [] {
      assert InBank(ys, xs[0]);
      MissingNoneWhenCovered(xs[1..], ys);
    }
  }

  /** Nothing is missing from an empty bank but everything: against an empty
      bank, every app is missing. */
  lemma {:induction false} MissingFromEmpty(xs: seq<App>)
    ensures Missing(xs, []) == xs
    decreases |xs|
  {
    if xs != [] {
      MissingFromEmpty(xs[1..]);
      assert [xs[0]] + xs[1..] == xs;
    }
  }

  /** The configuration's apps in order; an empty `apps` value gives no apps and
      a missing `apps` key gives none either (the caller raises instead). */
  function EntriesOf(config: AppsField): (r: seq<Entry>)
    ensures config.Listed? ==> r == config.entries
    ensures !config.Listed? ==> r == []
  {
    if config.Listed? then config.entries else []
  }

  class AppBank {
    var apps: seq<App>

    /** Builds the bank of the entries, one app per entry, in the entries' order. */
    constructor (entries: seq<Entry>, folder: string, dump: Yaml -> string)
      ensures apps == BankOf(folder, entries, dump)
    {
      apps := [];
      new;
      for i := 0 to |entries|
        invariant apps == BankOf(folder, entries[..i], dump)
      {
        BankOfSnoc(folder, entries, i, dump);
        apps := apps + [AppOf(folder, entries[i], dump)];
      }
      assert entries[..|entries|] == entries;
    }

    /** `x in bank`: scans the bank for an app equal to x. */
    method Contains(x: App) returns (b: bool)
      ensures b <==> InBank(apps, x)
    {
      for i := 0 to |apps|
        invariant forall j :: 0 <= j < i ==> !Eq(x, apps[j])
      {
        if Eq(x, apps[i]) {
          return true;
        }
      }
      return false;
    }
  }
}
