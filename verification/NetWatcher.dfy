/** Watching for new network adapters: the difference of two sorted lists, found by binary search. */
module NetWatchers {
  import opened Options
  import opened Seqs
  import opened Strings

  function AbsentFrom(b: seq<string>): string -> bool {
    v => v !in b
  }

  /** The elements of `a` that are not in `b`, in order and with multiplicity. */
  function Difference(a: seq<string>, b: seq<string>): seq<string> {
    Keep(a, AbsentFrom(b))
  }

  /** sort.Find: the first index whose element `v` does not come after, and whether it holds `v`. */
  method Find(v: string, b: seq<string>) returns (pos: nat, found: bool)
    requires Sorted(b)
    ensures pos <= |b|
    ensures forall k :: 0 <= k < pos ==> Compare(v, b[k]) > 0
    ensures forall k :: pos <= k < |b| ==> Compare(v, b[k]) <= 0
    ensures found <==> v in b
    ensures found ==> pos < |b| && b[pos] == v
  {
    var i, j := 0, |b|;
    while i < j
      invariant 0 <= i <= j <= |b|
      invariant forall k :: 0 <= k < i ==> Compare(v, b[k]) > 0
      invariant forall k :: j <= k < |b| ==> Compare(v, b[k]) <= 0
    {
      var h := (i + j) / 2;
      if Compare(v, b[h]) > 0 {
        AfterAll(v, b, h);
        i := h + 1;
      } else {
        BeforeAll(v, b, h);
        j := h;
      }
    }
    pos := i;
    found := i < |b| && Compare(v, b[i]) == 0;
    FoundIff(v, b, i);
    if found {
      CompareZero(v, b[i]);
    }
  }

  lemma AfterAll(v: string, b: seq<string>, h: nat)
    requires Sorted(b) && h < |b| && Compare(v, b[h]) > 0
    ensures forall k :: 0 <= k <= h ==> Compare(v, b[k]) > 0
  {
    forall k | 0 <= k < h ensures Compare(v, b[k]) > 0 {
      if Before(v, b[k]) {
        BeforeTransitive(v, b[k], b[h]);
      }
    }
  }

  lemma BeforeAll(v: string, b: seq<string>, h: nat)
    requires Sorted(b) && h < |b| && Compare(v, b[h]) <= 0
    ensures forall k :: h <= k < |b| ==> Compare(v, b[k]) <= 0
  {
    forall k | h < k < |b| ensures Before(v, b[k]) {
      BeforeTransitive(v, b[h], b[k]);
    }
  }

  lemma FoundIff(v: string, b: seq<string>, pos: nat)
    requires Sorted(b) && pos <= |b|
    requires forall k :: 0 <= k < pos ==> Compare(v, b[k]) > 0
    requires forall k :: pos <= k < |b| ==> Compare(v, b[k]) <= 0
    ensures (pos < |b| && Compare(v, b[pos]) == 0) <==> v in b
  {
    forall k | 0 <= k < |b| ensures Compare(v, b[k]) == 0 <==> v == b[k] {
      CompareZero(v, b[k]);
    }
    if v in b {
      var k :| 0 <= k < |b| && b[k] == v;
      assert pos <= k;
      if pos < k {
        assert Before(b[pos], b[k]);
        CompareOpposite(v, b[pos]);
        CompareZero(b[pos], v);
      }
    }
  }

  /** Refines the linear definition for every sorted `b`; `a` may be in any order. */
  method SearchDifference(a: seq<string>, b: seq<string>) returns (diff: seq<string>)
    requires Sorted(b)
    ensures diff == Difference(a, b)
  {
    var l := |b|;
    if l == 0 {
      KeepAll(a, AbsentFrom(b));
      return a;
    }
    diff := [];
    for i := 0 to |a|
      invariant diff == Difference(a[..i], b)
    {
      var pos, found := Find(a[i], b);
      if !found || pos == l {
        diff := diff + [a[i]];
      }
      assert a[..i + 1] == a[..i] + [a[i]];
      KeepConcat(a[..i], [a[i]], AbsentFrom(b));
    }
    assert a[..|a|] == a;
  }

  /** What the difference means: nothing of `b`, and everything else of `a` as often as it is there. */
  lemma {:induction false} DifferenceCounts(a: seq<string>, b: seq<string>, v: string)
    ensures multiset(Difference(a, b))[v] == if v in b then 0 else multiset(a)[v]
  {
    if a != [] {
      assert a == [a[0]] + a[1..];
      DifferenceCounts(a[1..], b, v);
    }
  }

  lemma {:induction false} DifferenceSorted(a: seq<string>, b: seq<string>)
    requires Sorted(a)
    ensures Sorted(Difference(a, b))
  {
    if a != [] {
      DifferenceSorted(a[1..], b);
      KeepMembers(a[1..], AbsentFrom(b));
      assert forall v :: v in a[1..] ==> Before(a[0], v);
    }
  }

  /** One round of watching: the devices listed now, or a failure to list them. */
  type Listing = Option<seq<string>>

  function NameIn(nameOf: string -> Option<string>): string -> string {
    (guid: string) => match nameOf(guid) case Some(name) => name case None => ""
  }

  /** The names of the devices whose GUID is valid, sorted; None when a name cannot be looked up. */
  method ListAdapters(guids: Listing, isUuid: string -> bool, nameOf: string -> Option<string>) returns (names: Listing)
    ensures names.None? <==> guids.None? || exists g :: g in Keep(guids.value, isUuid) && nameOf(g).None?
    ensures names.Some? ==> Sorted(names.value)
    ensures names.Some? ==> multiset(names.value) == multiset(Map(NameIn(nameOf), Keep(guids.value, isUuid)))
  {
    if guids.None? {
      return None;
    }
    var adapterGuids := Keep(guids.value, isUuid);
    var found: seq<string> := [];
    ghost var expected := Map(NameIn(nameOf), adapterGuids);
    for i := 0 to |adapterGuids|
      invariant forall k :: 0 <= k < i ==> nameOf(adapterGuids[k]).Some?
      invariant found == expected[..i]
    {
      var name := nameOf(adapterGuids[i]);
      if name.None? {
        assert adapterGuids[i] in adapterGuids;
        return None;
      }
      found := found + [name.value];
    }
    assert found == expected;
    SortSorts(found);
    return Some(Sort(found));
  }

  class NetWatcher {
    var cache: seq<string>
    // What the callback was given, oldest first.
    var reports: seq<seq<string>>

    ghost predicate Valid()
      reads this
    {
      Sorted(cache)
    }

    constructor (current: seq<string>)
      requires Sorted(current)
      ensures Valid() && cache == current && reports == []
    {
      cache, reports := current, [];
    }

    // `goOn` is the callback's answer.
    method Notify(listing: Listing, goOn: bool) returns (subscribed: bool)
      requires Valid() && (listing.Some? ==> Sorted(listing.value))
      modifies this
      ensures Valid()
      ensures (cache, reports) == Notified(old(cache), old(reports), listing)
      ensures subscribed == (goOn || reports == old(reports))
    {
      if listing.None? {
        return true;
      }
      var added := SearchDifference(listing.value, cache);
      if |added| == 0 {
        return true;
      }
      cache := listing.value;
      reports := reports + [added];
      return goOn;
    }
  }

  /** The cache moves on only when something was added. */
  function Notified(cache: seq<string>, reports: seq<seq<string>>, listing: Listing): (seq<string>, seq<seq<string>>) {
    if listing.None? || Difference(listing.value, cache) == [] then (cache, reports)
    else (listing.value, reports + [Difference(listing.value, cache)])
  }

  /** An adapter is reported exactly when it is listed and missing from the cache. */
  lemma ReportedIff(cache: seq<string>, reports: seq<seq<string>>, current: seq<string>, name: string)
    ensures var (_, after) := Notified(cache, reports, Some(current));
      (exists added :: added == Difference(current, cache) && added != [] && after == reports + [added] && name in added)
      <==> name in current && name !in cache
  {
    KeepMembers(current, AbsentFrom(cache));
  }

  /** The cache and the reports after a series of listings. */
  function Watched(cache: seq<string>, reports: seq<seq<string>>, listings: seq<Listing>): (seq<string>, seq<seq<string>>)
    decreases |listings|
  {
    if listings == [] then (cache, reports) else
      var (cache', reports') := Notified(cache, reports, listings[0]);
      Watched(cache', reports', listings[1..])
  }

  predicate Lists(listing: Listing, name: string) {
    listing.Some? && name in listing.value
  }

  /** The listing holds an adapter that the cache does not know. */
  ghost predicate Adds(listing: Listing, cache: seq<string>) {
    exists other :: Lists(listing, other) && other !in cache
  }

  lemma NotifiedMoves(cache: seq<string>, reports: seq<seq<string>>, listing: Listing)
    ensures Notified(cache, reports, listing).0 == if Adds(listing, cache) then listing.value else cache
  {
    if listing.Some? {
      KeepMembers(listing.value, AbsentFrom(cache));
      var added := Difference(listing.value, cache);
      if added != [] {
        assert added[0] in added && Lists(listing, added[0]);
      }
    }
  }

  // What is neither cached nor listed does not get into the cache.
  lemma {:induction false} StaysUnknown(cache: seq<string>, reports: seq<seq<string>>, listings: seq<Listing>, name: string)
    requires name !in cache && forall l :: l in listings ==> !Lists(l, name)
    ensures name !in Watched(cache, reports, listings).0
    decreases |listings|
  {
    if listings != [] {
      NotifiedMoves(cache, reports, listings[0]);
      assert listings[0] in listings;
      var (cache', reports') := Notified(cache, reports, listings[0]);
      StaysUnknown(cache', reports', listings[1..], name);
    }
  }

  lemma {:induction false} ForgottenIff(cache: seq<string>, reports: seq<seq<string>>, listings: seq<Listing>, name: string)
    requires name in cache && forall l :: l in listings ==> !Lists(l, name)
    ensures name !in Watched(cache, reports, listings).0 <==> exists l :: l in listings && Adds(l, cache)
    decreases |listings|
  {
    if listings != [] {
      var (cache', reports') := Notified(cache, reports, listings[0]);
      NotifiedMoves(cache, reports, listings[0]);
      assert listings[0] in listings && forall l :: l in listings <==> l == listings[0] || l in listings[1..];
      if Adds(listings[0], cache) {
        StaysUnknown(cache', reports', listings[1..], name);
      } else {
        ForgottenIff(cache', reports', listings[1..], name);
      }
    }
  }

  /**
   Since removals do not move the cache, an adapter that goes away and comes back, after however many
   listings without it, is reported exactly when one of them held an adapter that was not known before.
   */
  lemma ReturningAdapterReportedIff(cache: seq<string>, reports: seq<seq<string>>, listings: seq<Listing>,
                                    again: seq<string>, name: string)
    requires name in cache && (forall l :: l in listings ==> !Lists(l, name)) && name in again
    ensures name in Difference(again, Watched(cache, reports, listings).0) <==> exists l :: l in listings && Adds(l, cache)
  {
    ForgottenIff(cache, reports, listings, name);
    KeepMembers(again, AbsentFrom(Watched(cache, reports, listings).0));
  }

  /** A watcher that starts with one adapter does not report that it went and came back. */
  lemma ReturningAdapterRun(name: string)
    ensures Watched([name], [], [Some([]), Some([name])]) == ([name], [])
  {
    var rest := [Some([name])];
    assert [Some([]), Some([name])][1..] == rest && rest[1..] == [];
    assert Notified([name], [], Some([])) == ([name], []);
    assert Difference([name], [name]) == [];
    assert Watched([name], [], rest) == Watched([name], [], []);
  }
}
