/**
 * The in-memory entry store that stands in for the hosted notes backend
 * (mocks/notesMockData.ts). The store is one ordered collection of entries,
 * shared by every request handler and changed in place.
 *
 * Nothing here keeps identifiers unique: lookups, updates and deletions act
 * on the FIRST entry whose id matches.
 */
module NotesMockData {

  import opened Wrappers
  import Decimal

  /**
   * A stored note. `name` and `createdDate` (the wire field `Created_date`)
   * are optional because the fixed-answer mocks store whatever the request
   * body held, including nothing; `id` is always a string.
   */
  datatype NoteEntry = NoteEntry(name: Option<string>, createdDate: Option<string>, id: string)

  /**
   * The fields of a partial update: `Some` is a property present in the
   * updates object, `None` one that is absent.
   */
  datatype Patch = Patch(name: Option<string>, createdDate: Option<string>, id: Option<string>)

  /**
   * Date canonicalisation, `new Date(d).toISOString()`: the canonical
   * ISO-8601 instant, or `None` where the date library throws.
   */
  type Canonicalizer = string -> Option<string>

  /** JavaScript truthiness of an optional string: present and not empty. */
  predicate Truthy(v: Option<string>) {
    v.Some? && v.value != ""
  }

  // The note texts of the test data set.
  const ShortNote: string := "GB"
  const MediumNote: string := "This is a test note"
  const LongNote: string := "This is a very long note that should test the character limit of the text field. It contains multiple sentences and should be properly saved and retrieved."
  const SpecialNote: string := "Special chars: !@#$%^&*()_+"

  /** The four entries the store starts with. */
  const SeedEntries: seq<NoteEntry> := [
    NoteEntry(Some(ShortNote), Some("2025-04-14T00:00:00.000Z"), "1"),
    NoteEntry(Some(MediumNote), Some("2013-09-25T00:00:00.000Z"), "2"),
    NoteEntry(Some(LongNote), Some("2024-01-01T00:00:00.000Z"), "3"),
    NoteEntry(Some(SpecialNote), Some("2024-02-15T00:00:00.000Z"), "4")
  ]

  /**
   * The id a new entry gets: the supplied one when it is truthy, otherwise
   * the decimal string of the store's length before the append, plus one.
   */
  function NextId(s: seq<NoteEntry>, id: Option<string>): (r: string)
    ensures r != ""
    ensures Truthy(id) ==> r == id.value
    ensures !Truthy(id) ==> Decimal.IsDigits(r) && Decimal.DigitsValue(r) == |s| + 1 && r[0] != '0'
  {
    if Truthy(id) then id.value
    else
      Decimal.DigitsValueOfDecimalString(|s| + 1);
      Decimal.DecimalString(|s| + 1)
  }

  /** The store after appending an entry. */
  function Appended(s: seq<NoteEntry>, name: Option<string>, createdDate: Option<string>, id: Option<string>): (r: seq<NoteEntry>)
    ensures |r| == |s| + 1 && r[..|s|] == s
    ensures r[|s|].name == name && r[|s|].createdDate == createdDate && r[|s|].id == NextId(s, id)
  {
    s + [NoteEntry(name, createdDate, NextId(s, id))]
  }

  /** The entries whose date is exactly `iso`, in store order. */
  function WithDate(s: seq<NoteEntry>, iso: string): (r: seq<NoteEntry>)
    ensures |r| <= |s|
    ensures forall k :: 0 <= k < |r| ==> r[k].createdDate == Some(iso)
  {
    if s == [] then []
    else (if s[0].createdDate == Some(iso) then [s[0]] else []) + WithDate(s[1..], iso)
  }

  /** The index of the first entry with the given id (`findIndex`), if any. */
  function FindIndex(s: seq<NoteEntry>, id: string): (r: Option<nat>)
    ensures r.Some? ==> r.value < |s| && s[r.value].id == id
    ensures r.Some? ==> forall k :: 0 <= k < r.value ==> s[k].id != id
    ensures r.None? ==> forall k :: 0 <= k < |s| ==> s[k].id != id
  {
    if s == [] then None
    else if s[0].id == id then Some(0)
    else match FindIndex(s[1..], id)
      case None => None
      case Some(i) => Some(i + 1)
  }

  /** `{ ...e, ...p }`: the fields present in `p` replace those of `e`. */
  function Merge(e: NoteEntry, p: Patch): (r: NoteEntry)
    ensures r.name == (if p.name.Some? then p.name else e.name)
    ensures r.createdDate == (if p.createdDate.Some? then p.createdDate else e.createdDate)
    ensures p.id.Some? ==> r.id == p.id.value
    ensures p.id.None? ==> r.id == e.id
  {
    NoteEntry(
      if p.name.Some? then p.name else e.name,
      if p.createdDate.Some? then p.createdDate else e.createdDate,
      if p.id.Some? then p.id.value else e.id)
  }

  /** The store after merging `p` into the first entry with id `id`. */
  function Updated(s: seq<NoteEntry>, id: string, p: Patch): (r: seq<NoteEntry>)
    ensures |r| == |s|
    ensures forall k :: 0 <= k < |s| && s[k].id != id ==> r[k] == s[k]
    ensures (forall k :: 0 <= k < |s| ==> s[k].id != id) ==> r == s
    ensures (exists k :: 0 <= k < |s| && s[k].id == id) ==> exists k :: 0 <= k < |s| && s[k].id == id && r[k] == Merge(s[k], p)
  {
    match FindIndex(s, id)
    case None => s
    case Some(i) => s[i := Merge(s[i], p)]
  }

  /** The store after removing the first entry with id `id`. */
  function Removed(s: seq<NoteEntry>, id: string): (r: seq<NoteEntry>)
    ensures (forall k :: 0 <= k < |s| ==> s[k].id != id) ==> r == s
    ensures (exists k :: 0 <= k < |s| && s[k].id == id) ==> |r| == |s| - 1
    ensures forall e :: e in r ==> e in s
  {
    match FindIndex(s, id)
    case None => s
    case Some(i) => s[..i] + s[i + 1..]
  }

  /** The store's multiplicities restricted to the entries dated `iso`. */
  lemma {:induction false} WithDateCount(s: seq<NoteEntry>, iso: string, e: NoteEntry)
    ensures multiset(WithDate(s, iso))[e] == if e.createdDate == Some(iso) then multiset(s)[e] else 0
  {
    if s != [] {
      WithDateCount(s[1..], iso, e);
      assert s == [s[0]] + s[1..];
    }
  }

  /** The shared `mockEntries` array. */
  class NotesStore {
    var entries: seq<NoteEntry>

    /** A store holding the four seed entries. */
    constructor ()
      ensures entries == SeedEntries
    {
      entries := SeedEntries;
    }

    /** `addMockEntry`: push a new entry, its id assigned before the push. */
    method AddMockEntry(name: Option<string>, createdDate: Option<string>, id: Option<string>)
      modifies this
      ensures entries == Appended(old(entries), name, createdDate, id)
      ensures |entries| == |old(entries)| + 1
      ensures entries[..|old(entries)|] == old(entries)
      ensures entries[|old(entries)|] == NoteEntry(name, createdDate, NextId(old(entries), id))
    {
      entries := entries + [NoteEntry(name, createdDate, NextId(entries, id))];
    }

    /**
     * `getMockEntriesForDate`: the entries dated exactly `canon(date)`, in
     * store order; `None` where canonicalisation throws.
     */
    function GetMockEntriesForDate(canon: Canonicalizer, date: string): (r: Option<seq<NoteEntry>>)
      reads this
      ensures r.None? <==> canon(date).None?
      ensures r.Some? ==> r.value == WithDate(entries, canon(date).value)
      ensures r.Some? ==> forall k :: 0 <= k < |r.value| ==> r.value[k].createdDate == canon(date)
      ensures r.Some? ==> forall e :: multiset(r.value)[e] == if e.createdDate == canon(date) then multiset(entries)[e] else 0
    {
      match canon(date)
      case None => None
      case Some(iso) =>
        var r := WithDate(entries, iso);
        assert forall e :: multiset(r)[e] == if e.createdDate == Some(iso) then multiset(entries)[e] else 0 by {
          forall e ensures multiset(r)[e] == if e.createdDate == Some(iso) then multiset(entries)[e] else 0 {
            WithDateCount(entries, iso, e);
          }
        }
        Some(r)
    }

    /** `clearMockData`: empty the store. */
    method ClearMockData()
      modifies this
      ensures entries == []
    {
      entries := [];
    }

    /** `getAllEntries`: a copy of the store, same entries in the same order. */
    function GetAllEntries(): (r: seq<NoteEntry>)
      reads this
      ensures |r| == |entries|
      ensures forall k :: 0 <= k < |r| ==> r[k] == entries[k]
    {
      entries
    }

    /** `getEntryById`: the first entry whose id is `id`, if any. */
    function GetEntryById(id: string): (r: Option<NoteEntry>)
      reads this
      ensures r.None? <==> forall k :: 0 <= k < |entries| ==> entries[k].id != id
      ensures r.Some? ==> r.value.id == id
      ensures r.Some? ==> exists k :: 0 <= k < |entries| && entries[k] == r.value
                                      && forall j :: 0 <= j < k ==> entries[j].id != id
    {
      match FindIndex(entries, id)
      case None => None
      case Some(i) => Some(entries[i])
    }

    /**
     * `updateEntry`: merge `updates` into the first entry with id `id`;
     * false, with nothing changed, when there is none.
     */
    method UpdateEntry(id: string, updates: Patch) returns (found: bool)
      modifies this
      ensures entries == Updated(old(entries), id, updates)
      ensures found <==> exists k :: 0 <= k < |old(entries)| && old(entries)[k].id == id
      ensures !found ==> entries == old(entries)
      ensures found ==> FindIndex(old(entries), id).Some?
                        && var i := FindIndex(old(entries), id).value;
                           entries == old(entries)[i := Merge(old(entries)[i], updates)]
    {
      var index := FindIndex(entries, id);
      if index.None? {
        return false;
      }
      entries := entries[index.value := Merge(entries[index.value], updates)];
      found := true;
    }

    /**
     * `deleteEntry`: splice out the first entry with id `id`; false, with
     * nothing changed, when there is none.
     */
    method DeleteEntry(id: string) returns (found: bool)
      modifies this
      ensures entries == Removed(old(entries), id)
      ensures found <==> exists k :: 0 <= k < |old(entries)| && old(entries)[k].id == id
      ensures !found ==> entries == old(entries)
      ensures found ==> |entries| == |old(entries)| - 1
      ensures found ==> FindIndex(old(entries), id).Some?
                        && var i := FindIndex(old(entries), id).value;
                           entries == old(entries)[..i] + old(entries)[i + 1..]
    {
      var index := FindIndex(entries, id);
      if index.None? {
        return false;
      }
      entries := entries[..index.value] + entries[index.value + 1..];
      found := true;
    }
  }
}
