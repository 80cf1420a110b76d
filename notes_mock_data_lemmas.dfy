/**
 * Properties of the entry store's operations, stated on the sequence the
 * store holds.
 */
module NotesMockDataLemmas {

  import opened Wrappers
  import opened NotesMockData
  import Decimal

  /** No two entries share an id. The store does not maintain this. */
  predicate IdsUnique(s: seq<NoteEntry>) {
    forall j, k :: 0 <= j < k < |s| ==> s[j].id != s[k].id
  }

  /** Filtering by date keeps store order: it distributes over concatenation. */
  lemma {:induction false} WithDateConcat(a: seq<NoteEntry>, b: seq<NoteEntry>, iso: string)
    ensures WithDate(a + b, iso) == WithDate(a, iso) + WithDate(b, iso)
  {
    if a == [] {
      assert a + b == b;
    } else {
      assert (a + b)[0] == a[0];
      assert (a + b)[1..] == a[1..] + b;
      WithDateConcat(a[1..], b, iso);
    }
  }

  /** When no entry carries date `iso`, the date filter is empty. */
  lemma {:induction false} WithDateEmpty(s: seq<NoteEntry>, iso: string)
    requires forall k :: 0 <= k < |s| ==> s[k].createdDate != Some(iso)
    ensures WithDate(s, iso) == []
  {
    if s != [] {
      WithDateEmpty(s[1..], iso);
    }
  }

  /** An append shows up in a date query exactly when the new entry carries that very date string. */
  lemma WithDateOfAppended(s: seq<NoteEntry>, name: Option<string>, createdDate: Option<string>, id: Option<string>, iso: string)
    ensures WithDate(Appended(s, name, createdDate, id), iso)
            == WithDate(s, iso) + (if createdDate == Some(iso) then [NoteEntry(name, createdDate, NextId(s, id))] else [])
  {
    var e := NoteEntry(name, createdDate, NextId(s, id));
    WithDateConcat(s, [e], iso);
    assert WithDate([e], iso) == (if createdDate == Some(iso) then [e] else []) + WithDate([], iso);
  }

  /** The seed entries have distinct ids. */
  lemma SeedIdsUnique()
    ensures IdsUnique(SeedEntries)
  {
  }

  /** An append keeps ids unique when the assigned id is not yet in use. */
  lemma AppendedKeepsIdsUnique(s: seq<NoteEntry>, name: Option<string>, createdDate: Option<string>, id: Option<string>)
    requires IdsUnique(s)
    requires forall k :: 0 <= k < |s| ==> s[k].id != NextId(s, id)
    ensures IdsUnique(Appended(s, name, createdDate, id))
  {
  }

  /**
   * The automatic id can repeat one in use: deleting "2" from the seed and
   * then adding without an id gives a second entry with id "4".
   */
  lemma SeedDeleteThenAddRepeatsId(name: Option<string>, createdDate: Option<string>)
    ensures var s := Appended(Removed(SeedEntries, "2"), name, createdDate, None);
            |s| == 4 && s[2].id == "4" && s[3].id == "4" && !IdsUnique(s)
  {
    var r := Removed(SeedEntries, "2");
    assert FindIndex(SeedEntries, "2") == Some(1);
    assert r == [SeedEntries[0], SeedEntries[2], SeedEntries[3]];
    assert Decimal.DecimalString(4) == "4";
  }

  /** An appended entry with an unused id is what a lookup of that id finds. */
  lemma FindIndexOfFreshAppend(s: seq<NoteEntry>, name: Option<string>, createdDate: Option<string>, id: Option<string>)
    requires forall k :: 0 <= k < |s| ==> s[k].id != NextId(s, id)
    ensures FindIndex(Appended(s, name, createdDate, id), NextId(s, id)) == Some(|s|)
  {
    var t := Appended(s, name, createdDate, id);
    assert t[|s|].id == NextId(s, id);
  }

  /** Cutting out position `i` takes exactly one occurrence of `s[i]` out of the multiset. */
  lemma SpliceMultiset(s: seq<NoteEntry>, i: nat)
    requires i < |s|
    ensures multiset(s[..i] + s[i + 1..]) + multiset{s[i]} == multiset(s)
  {
    var front, back := s[..i], s[i + 1..];
    assert s == front + [s[i]] + back;
    calc {
      multiset(s);
    ==
      multiset(front) + multiset([s[i]]) + multiset(back);
    ==
      multiset(front + back) + multiset{s[i]};
    }
  }

  /** A deletion takes out one occurrence of the first matching entry and leaves every other entry. */
  lemma RemovedMultiset(s: seq<NoteEntry>, id: string)
    requires FindIndex(s, id).Some?
    ensures multiset(Removed(s, id)) + multiset{s[FindIndex(s, id).value]} == multiset(s)
  {
    var i := FindIndex(s, id).value;
    assert Removed(s, id) == s[..i] + s[i + 1..];
    SpliceMultiset(s, i);
  }

  /** With unique ids, an id is no longer found once its entry is deleted. */
  lemma RemovedUniqueIdGone(s: seq<NoteEntry>, id: string)
    requires IdsUnique(s)
    ensures FindIndex(Removed(s, id), id).None?
  {
    match FindIndex(s, id)
    case None =>
    case Some(i) =>
      var r := Removed(s, id);
      forall k | 0 <= k < |r| ensures r[k].id != id {
        if k < i {
          assert r[k] == s[k];
        } else {
          assert r[k] == s[k + 1];
        }
      }
  }

  /** With a repeated id, deleting it exposes the next entry that carries it. */
  lemma RemovedDuplicateStillFound(s: seq<NoteEntry>, id: string, j: nat, k: nat)
    requires j < k < |s| && s[j].id == id && s[k].id == id
    ensures FindIndex(Removed(s, id), id).Some?
  {
    var i := FindIndex(s, id).value;
    var r := Removed(s, id);
    assert r[k - 1] == s[k];
  }

  /** An update never changes the number of entries nor any entry but the first match. */
  lemma UpdatedFrame(s: seq<NoteEntry>, id: string, p: Patch, k: nat)
    requires k < |s|
    ensures |Updated(s, id, p)| == |s|
    ensures FindIndex(s, id) != Some(k) ==> Updated(s, id, p)[k] == s[k]
    ensures FindIndex(s, id) == Some(k) ==> Updated(s, id, p)[k] == Merge(s[k], p)
  {
  }

  /** Merging an empty update leaves an entry as it was. */
  lemma MergeEmpty(e: NoteEntry)
    ensures Merge(e, Patch(None, None, None)) == e
  {
  }
}
