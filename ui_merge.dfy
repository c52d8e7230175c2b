/**
 * The UI-elements merger: each feature maps screen names to an entry that
 * maps attribute names (buttons, connections) to element lists; the run folds
 * all features' maps into one accumulator.
 */
module UiMerge {

  /** One screen's attributes: attribute name to element list. */
  type Entry<E> = map<string, seq<E>>

  /** Screen name to that screen's attributes. */
  type Screens<E> = map<string, Entry<E>>

  /** No element occurs twice. */
  predicate NoDup<E(==,!new)>(s: seq<E>)
  {
    forall i, j :: 0 <= i < j < |s| ==> s[i] != s[j]
  }

  /**
   * Ruby's `Array#uniq`: scanning left to right, an element is kept only if
   * it did not occur before, so each element keeps its first occurrence.
   */
  function Uniq<E(==,!new)>(s: seq<E>): (r: seq<E>)
    ensures NoDup(r)
    ensures forall x :: x in r <==> x in s
  {
    if s == [] then []
    else
      var n := |s| - 1;
      var r := Uniq(s[..n]);
      if s[n] in r then r else r + [s[n]]
  }

  /** A duplicate-free list is left as it is. */
  lemma {:induction false} UniqOfNoDup<E(!new)>(s: seq<E>)
    requires NoDup(s)
    ensures Uniq(s) == s
  {
    if s != [] {
      var n := |s| - 1;
      UniqOfNoDup(s[..n]);
      assert s[n] !in s[..n];
      assert s[..n] + [s[n]] == s;
    }
  }

  /** Deduplicating twice is deduplicating once. */
  lemma UniqIdempotent<E(!new)>(s: seq<E>)
    ensures Uniq(Uniq(s)) == Uniq(s)
  {
    UniqOfNoDup(Uniq(s));
  }

  /**
   * Appending never disturbs what is already deduplicated: `Uniq(p)` is a
   * prefix of `Uniq(p + q)`. With `p := s[..k]` this says that the result
   * lists elements in the order of their first occurrences.
   */
  lemma {:induction false} UniqPrefix<E(!new)>(p: seq<E>, q: seq<E>)
    ensures Uniq(p) <= Uniq(p + q)
    decreases |q|
  {
    if q == [] {
      assert p + q == p;
    } else {
      var n := |q| - 1;
      assert (p + q)[..|p + q| - 1] == p + q[..n];
      UniqPrefix(p, q[..n]);
    }
  }

  /** Appending elements that all occur already changes nothing. */
  lemma {:induction false} UniqCovered<E(!new)>(p: seq<E>, q: seq<E>)
    requires forall x :: x in q ==> x in p
    ensures Uniq(p + q) == Uniq(p)
    decreases |q|
  {
    if q == [] {
      assert p + q == p;
    } else {
      var n := |q| - 1;
      assert (p + q)[..|p + q| - 1] == p + q[..n];
      UniqCovered(p, q[..n]);
      assert q[n] in p;
    }
  }

  /** `data[k]`, or nothing when the incoming entry has no such attribute (Ruby's nil). */
  function Incoming<E(==,!new)>(data: Entry<E>, k: string): (r: seq<E>)
    ensures k !in data ==> r == []
    ensures k in data ==> r == data[k]
  {
    if k in data then data[k] else []
  }

  /**
   * An existing screen absorbs incoming data: the loop runs over the keys the
   * EXISTING entry has, appends the incoming list and deduplicates.
   */
  function MergeEntry<E(==,!new)>(existing: Entry<E>, data: Entry<E>): (r: Entry<E>)
    ensures r.Keys == existing.Keys
    ensures forall k :: k in r ==> NoDup(r[k])
    ensures forall k, x :: k in r ==> (x in r[k] <==> x in existing[k] || x in Incoming(data, k))
    ensures forall k :: k in r ==> Uniq(existing[k]) <= r[k]
  {
    var r := map k | k in existing :: Uniq(existing[k] + Incoming(data, k));
    assert forall k :: k in r ==> Uniq(existing[k]) <= r[k] by {
      forall k | k in r ensures Uniq(existing[k]) <= r[k] {
        UniqPrefix(existing[k], Incoming(data, k));
      }
    }
    r
  }

  /**
   * `ui_elements_merge!(all, current)` as a value: screens only in `all` are
   * untouched, screens new to `all` are stored exactly as given (no
   * deduplication), and screens in both are merged with MergeEntry.
   */
  function Merge<E(==,!new)>(all: Screens<E>, current: Screens<E>): (r: Screens<E>)
    ensures r.Keys == all.Keys + current.Keys
    ensures forall s :: s in all && s !in current ==> r[s] == all[s]
    ensures forall s :: s in current && s !in all ==> r[s] == current[s]
    ensures forall s :: s in all && s in current ==> r[s] == MergeEntry(all[s], current[s])
  {
    map s | s in all.Keys + current.Keys ::
      if s !in current then all[s]
      else if s !in all then current[s]
      else MergeEntry(all[s], current[s])
  }

  /** `collect_ui_elements`: fold the features' maps, in order, into the empty map. */
  function Collect<E(==,!new)>(perFeature: seq<Screens<E>>): (r: Screens<E>)
    ensures forall i :: 0 <= i < |perFeature| ==> perFeature[i].Keys <= r.Keys
  {
    if perFeature == [] then map[]
    else
      var n := |perFeature| - 1;
      Merge(Collect(perFeature[..n]), perFeature[n])
  }

  /** Adding one more screen of `current` to the part already merged. */
  lemma MergeOneMore<E(!new)>(all: Screens<E>, current: Screens<E>, pending: set<string>, name: string)
    requires pending <= current.Keys && name in pending
    ensures var m := Merge(all, current - pending);
      Merge(all, current - (pending - {name})) ==
        m[name := if name in m then MergeEntry(m[name], current[name]) else current[name]]
  {
  }

  /**
   * The body of the outer loop for a screen already present: for each key of
   * the existing entry, `entry[k] += data[k]` when the incoming data has the
   * key, then `entry[k].uniq!`.
   */
  method AbsorbEntry<E(==,!new)>(before: Entry<E>, data: Entry<E>) returns (entry: Entry<E>)
    ensures entry == MergeEntry(before, data)
  {
    entry := before;
    var keys := entry.Keys;
    while keys != {}
      invariant keys <= before.Keys
      invariant entry.Keys == before.Keys
      invariant forall k :: k in entry ==>
        entry[k] == if k in keys then before[k] else Uniq(before[k] + Incoming(data, k))
      decreases keys
    {
      var k :| k in keys;
      assert before[k] + Incoming(data, k) == if k in data then before[k] + data[k] else before[k];
      if k in data {
        entry := entry[k := entry[k] + data[k]];
      }
      entry := entry[k := Uniq(entry[k])];
      keys := keys - {k};
    }
  }

  /** The accumulator hash that `ui_elements_merge!` updates in place. */
  class Accumulator<E(==,!new)> {
    var screens: Screens<E>

    constructor ()
      ensures screens == map[]
    {
      screens := map[];
    }

    /** `ui_elements_merge!(screens, current)`. */
    method MergeIn(current: Screens<E>)
      modifies this
      ensures screens == Merge(old(screens), current)
    {
      var pending := current.Keys;
      assert current - pending == map[];
      while pending != {}
        invariant pending <= current.Keys
        invariant screens == Merge(old(screens), current - pending)
        decreases pending
      {
        var name :| name in pending;
        MergeOneMore(old(screens), current, pending, name);
        var data := current[name];
        if name !in screens {
          screens := screens[name := data];
        } else {
          var entry := AbsorbEntry(screens[name], data);
          screens := screens[name := entry];
        }
        pending := pending - {name};
      }
      assert current - {} == current;
    }
  }

  /** `collect_ui_elements`: merge each feature's map into a fresh accumulator, in feature order. */
  method CollectUiElements<E(==,!new)>(perFeature: seq<Screens<E>>) returns (all: Screens<E>)
    ensures all == Collect(perFeature)
  {
    var acc := new Accumulator<E>();
    var i := 0;
    while i < |perFeature|
      invariant 0 <= i <= |perFeature|
      invariant acc.screens == Collect(perFeature[..i])
    {
      assert perFeature[..i + 1][..i] == perFeature[..i];
      acc.MergeIn(perFeature[i]);
      i := i + 1;
    }
    assert perFeature[..i] == perFeature;
    all := acc.screens;
  }

  /** Every list of every screen is duplicate-free. */
  predicate EntriesNoDup<E(==,!new)>(m: Screens<E>)
  {
    forall s, k :: s in m && k in m[s] ==> NoDup(m[s][k])
  }

  /** The elements all features list under screen `s` and attribute `k`. */
  ghost function Members<E(!new)>(perFeature: seq<Screens<E>>, s: string, k: string): set<E>
  {
    if perFeature == [] then {}
    else
      var n := |perFeature| - 1;
      var last := perFeature[n];
      Members(perFeature[..n], s, k) + (if s in last && k in last[s] then set x | x in last[s][k] else {})
  }

  /** A screen is in the merged map iff some feature mentions it. */
  lemma {:induction false} CollectScreens<E(!new)>(perFeature: seq<Screens<E>>, s: string)
    ensures s in Collect(perFeature) <==> exists i :: 0 <= i < |perFeature| && s in perFeature[i]
  {
    if perFeature != [] {
      var n := |perFeature| - 1;
      CollectScreens(perFeature[..n], s);
      if s in Collect(perFeature[..n]) {
        var i :| 0 <= i < n && s in perFeature[..n][i];
        assert s in perFeature[i];
      }
      if i :| 0 <= i < |perFeature| && s in perFeature[i] {
        if i < n {
          assert s in perFeature[..n][i];
        }
      }
    }
  }

  /**
   * A merged screen has exactly the attribute keys of the FIRST feature that
   * mentions it: later features only add to those keys' lists.
   */
  lemma {:induction false} CollectKeysOfFirst<E(!new)>(perFeature: seq<Screens<E>>, s: string, i: nat)
    requires i < |perFeature| && s in perFeature[i]
    requires forall j :: 0 <= j < i ==> s !in perFeature[j]
    ensures s in Collect(perFeature) && Collect(perFeature)[s].Keys == perFeature[i][s].Keys
  {
    var n := |perFeature| - 1;
    CollectScreens(perFeature, s);
    if i < n {
      CollectKeysOfFirst(perFeature[..n], s, i);
    } else {
      CollectScreens(perFeature[..n], s);
      assert forall j :: 0 <= j < n ==> perFeature[..n][j] == perFeature[j];
    }
  }

  lemma {:induction false} MembersOfAbsent<E(!new)>(perFeature: seq<Screens<E>>, s: string, k: string)
    requires forall j :: 0 <= j < |perFeature| ==> s !in perFeature[j]
    ensures Members(perFeature, s, k) == {}
  {
    if perFeature != [] {
      var n := |perFeature| - 1;
      MembersOfAbsent(perFeature[..n], s, k);
    }
  }

  /**
   * Each merged list holds exactly the elements that any feature lists under
   * that screen and attribute: nothing is lost and nothing is invented.
   */
  lemma {:induction false} CollectMembers<E(!new)>(perFeature: seq<Screens<E>>, s: string, k: string)
    requires s in Collect(perFeature) && k in Collect(perFeature)[s]
    ensures forall x :: x in Collect(perFeature)[s][k] <==> x in Members(perFeature, s, k)
  {
    var n := |perFeature| - 1;
    var before := Collect(perFeature[..n]);
    var last := perFeature[n];
    if s !in last {
      CollectMembers(perFeature[..n], s, k);
    } else if s !in before {
      CollectScreens(perFeature[..n], s);
      forall j | 0 <= j < n ensures s !in perFeature[..n][j] {
      }
      MembersOfAbsent(perFeature[..n], s, k);
    } else {
      CollectMembers(perFeature[..n], s, k);
    }
  }

  /** If every feature's lists are duplicate-free, so is every merged list. */
  lemma {:induction false} CollectNoDup<E(!new)>(perFeature: seq<Screens<E>>)
    requires forall i :: 0 <= i < |perFeature| ==> EntriesNoDup(perFeature[i])
    ensures EntriesNoDup(Collect(perFeature))
  {
    if perFeature != [] {
      var n := |perFeature| - 1;
      CollectNoDup(perFeature[..n]);
      assert EntriesNoDup(perFeature[n]);
    }
  }

  /**
   * Merging the same map a second time changes nothing, provided its lists
   * are duplicate-free (a screen new to the accumulator is stored without
   * deduplication, so a duplicate in it survives the first merge only).
   */
  lemma MergeIdempotent<E(!new)>(all: Screens<E>, current: Screens<E>)
    requires EntriesNoDup(current)
    ensures Merge(Merge(all, current), current) == Merge(all, current)
  {
    var once := Merge(all, current);
    forall s | s in current
      ensures MergeEntry(once[s], current[s]) == once[s]
    {
      var e := once[s];
      forall k | k in e
        ensures NoDup(e[k]) && forall x :: x in Incoming(current[s], k) ==> x in e[k]
      {
        if s !in all {
          assert e[k] == Incoming(current[s], k);
        }
      }
      MergeEntryStable(e, current[s]);
    }
  }

  /** An entry that already holds every incoming element, without duplicates, absorbs it unchanged. */
  lemma MergeEntryStable<E(!new)>(e: Entry<E>, data: Entry<E>)
    requires forall k :: k in e ==> NoDup(e[k]) && forall x :: x in Incoming(data, k) ==> x in e[k]
    ensures MergeEntry(e, data) == e
  {
    forall k | k in e
      ensures Uniq(e[k] + Incoming(data, k)) == e[k]
    {
      UniqCovered(e[k], Incoming(data, k));
      UniqOfNoDup(e[k]);
    }
  }

  /** Without that proviso the merge is not idempotent. */
  lemma MergeTwiceDeduplicates()
    ensures var c: Screens<string> := map["Login" := map["buttons" := ["ok", "ok"]]];
      Merge(map[], c) == c && Merge(c, c)["Login"]["buttons"] == ["ok"]
  {
    var c: Screens<string> := map["Login" := map["buttons" := ["ok", "ok"]]];
    assert ["ok", "ok", "ok", "ok"][..3] == ["ok", "ok", "ok"];
    assert ["ok", "ok", "ok"][..2] == ["ok", "ok"];
    assert ["ok", "ok"][..1] == ["ok"];
    assert ["ok"][..0] == [];
    assert c["Login"]["buttons"] + c["Login"]["buttons"] == ["ok", "ok", "ok", "ok"];
  }

  /** Folding two maps is merging the second into the first. */
  lemma CollectPair<E(!new)>(a: Screens<E>, b: Screens<E>)
    ensures Collect([a, b]) == Merge(a, b)
  {
    assert [a, b][..1] == [a];
    assert [a][..0] == [];
    assert Collect([a]) == Merge(map[], a);
    assert Merge(map[], a) == a;
    assert Collect([a, b]) == Merge(Collect([a]), b);
  }

  /**
   * Merging two features in either order yields the same screens and, for a
   * screen both give the same attribute keys, the same members per attribute.
   */
  lemma CollectMembershipCommutes<E(!new)>(a: Screens<E>, b: Screens<E>, s: string)
    ensures s in Collect([a, b]) <==> s in Collect([b, a])
    ensures s in a && s in b && a[s].Keys == b[s].Keys ==>
      Collect([a, b])[s].Keys == Collect([b, a])[s].Keys &&
      forall k, x :: k in Collect([a, b])[s] ==> (x in Collect([a, b])[s][k] <==> x in Collect([b, a])[s][k])
    ensures s in a && s !in b ==> Collect([a, b])[s] == Collect([b, a])[s] == a[s]
  {
    CollectPair(a, b);
    CollectPair(b, a);
  }

  lemma UniqDropsRepeatedSubmit()
    ensures Uniq(["submit", "submit", "cancel"]) == ["submit", "cancel"]
  {
    var joined := ["submit", "submit", "cancel"];
    assert ["submit"][..0] == [];
    assert Uniq(["submit"]) == ["submit"];
    assert joined[..2][..1] == ["submit"];
    assert joined[..2] == ["submit", "submit"];
    assert Uniq(joined[..2]) == ["submit"];
  }

  /** Two features that both show a "Login" screen: the buttons are merged without duplicates. */
  lemma LoginButtonsMerged()
    ensures var first: Screens<string> := map["Login" := map["buttons" := ["submit"]]];
      var second: Screens<string> := map["Login" := map["buttons" := ["submit", "cancel"]]];
      var m := Collect([first, second]);
      "Login" in m && "buttons" in m["Login"] && m["Login"]["buttons"] == ["submit", "cancel"]
  {
    var first: Screens<string> := map["Login" := map["buttons" := ["submit"]]];
    var second: Screens<string> := map["Login" := map["buttons" := ["submit", "cancel"]]];
    CollectPair(first, second);
    assert first["Login"]["buttons"] + Incoming(second["Login"], "buttons") == ["submit", "submit", "cancel"];
    UniqDropsRepeatedSubmit();
  }
}
