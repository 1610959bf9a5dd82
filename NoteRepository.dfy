/** NoteRepository.swift: the CoreData-backed note collection. The managed object context
    and the persistent store are modelled as two sequences of record values. */
module Repository {
  import opened Wrappers
  import opened Model
  import opened Seqs
  import opened TagCodec
  import opened Mapper

  // ---------------------------------------------------------------------------
  // fetch()

  /** The sort descriptors of `fetch()`: `isPinned` descending, then `createdAt`
      descending. */
  predicate FetchOrder(a: Note, b: Note) {
    (a.isPinned && !b.isPinned) || (a.isPinned == b.isPinned && a.createdAt >= b.createdAt)
  }

  lemma FetchOrderIsTotalPreorder()
    ensures TotalPreorder(FetchOrder)
  {
  }

  function ToNotes(rs: seq<CDNote>): (r: seq<Note>)
    ensures |r| == |rs| && forall i :: 0 <= i < |rs| ==> r[i] == ToNote(rs[i])
  {
    seq(|rs|, i requires 0 <= i < |rs| => ToNote(rs[i]))
  }

  /** What a successful `fetch()` returns for the records `rs`: every record as a note,
      pinned notes before unpinned ones, and newest first within each group. (The sort
      is applied after mapping; `toNote` copies both sort keys, so the order is the
      same.) */
  function FetchAll(rs: seq<CDNote>): (r: seq<Note>)
    ensures multiset(r) == multiset(ToNotes(rs))
    ensures SortedBy(r, FetchOrder)
    ensures forall i, j :: 0 <= i < j < |r| && r[j].isPinned ==> r[i].isPinned
    ensures forall i, j :: 0 <= i < j < |r| && r[i].isPinned == r[j].isPinned ==>
              r[i].createdAt >= r[j].createdAt
  {
    FetchOrderIsTotalPreorder();
    var r := SortBy(ToNotes(rs), FetchOrder);
    assert forall i, j :: 0 <= i < j < |r| ==> FetchOrder(r[i], r[j]);
    r
  }

  /** Mapping records to notes distributes over appending one record. */
  lemma ToNotesAppend(rs: seq<CDNote>, cd: CDNote)
    ensures ToNotes(rs + [cd]) == ToNotes(rs) + [ToNote(cd)]
  {
  }

  /** A note that was added is among the fetched notes, with the tag it was added with. */
  lemma AddedNoteIsFetched(rs: seq<CDNote>, n: Note)
    ensures multiset(FetchAll(rs + [From(n)])) == multiset(FetchAll(rs)) + multiset{n}
    ensures n in FetchAll(rs + [From(n)])
  {
    RoundTrip(n);
    ToNotesAppend(rs, From(n));
    var before, after := ToNotes(rs), ToNotes(rs + [From(n)]);
    assert multiset(after) == multiset(before) + multiset{n};
    var fetched := FetchAll(rs + [From(n)]);
    assert multiset(fetched) == multiset(after);
    assert n in multiset(fetched);
  }

  // ---------------------------------------------------------------------------
  // The records after each mutation

  /** The id predicate of the fetch requests in update, togglePin and delete; the first
      record it matches is the one `fetch(request).first` yields. */
  function HasId(id: Uuid): CDNote -> bool {
    (cd: CDNote) => cd.id == id
  }

  /** `cd` after `update(n)` assigns title, content, createdAt, isPinned, reminderDate
      and the tag snapshot. Reading it back gives `n` under the record's own id. */
  function Overwritten(cd: CDNote, n: Note): (r: CDNote)
    ensures r.id == cd.id
    ensures r.tagData == SnapshotData(n.tag)
    ensures ToNote(r) == n.(id := cd.id)
  {
    RoundTrip(n);
    cd.(title := n.title, content := n.content, createdAt := n.createdAt,
        isPinned := n.isPinned, reminderDate := n.reminderDate, tagData := SnapshotData(n.tag))
  }

  /** The records after `update(n)`: the first record with `n.id` is overwritten, all
      others are unchanged, and nothing changes when no record has that id. */
  function Updated(rs: seq<CDNote>, n: Note): (r: seq<CDNote>)
    ensures |r| == |rs|
    ensures (forall k :: 0 <= k < |rs| ==> rs[k].id != n.id) ==> r == rs
    ensures forall k :: 0 <= k < |rs| ==>
              r[k] == if IsFirst(rs, k, HasId(n.id)) then Overwritten(rs[k], n) else rs[k]
  {
    UpdateFirst(rs, HasId(n.id), (cd: CDNote) => Overwritten(cd, n))
  }

  /** `cd` with `isPinned` flipped. */
  function Flipped(cd: CDNote): (r: CDNote)
    ensures r.id == cd.id && r.isPinned == !cd.isPinned
    ensures r.(isPinned := cd.isPinned) == cd
  {
    cd.(isPinned := !cd.isPinned)
  }

  /** The records after `togglePin`: the first record with `id` has its pin flipped,
      all others are unchanged, and nothing changes when no record has that id. */
  function Toggled(rs: seq<CDNote>, id: Uuid): (r: seq<CDNote>)
    ensures |r| == |rs|
    ensures (forall k :: 0 <= k < |rs| ==> rs[k].id != id) ==> r == rs
    ensures forall k :: 0 <= k < |rs| ==>
              r[k] == if IsFirst(rs, k, HasId(id)) then Flipped(rs[k]) else rs[k]
  {
    UpdateFirst(rs, HasId(id), Flipped)
  }

  /** Toggling the same note twice restores the records. */
  lemma TogglePinTwice(rs: seq<CDNote>, id: Uuid)
    ensures Toggled(Toggled(rs, id), id) == rs
  {
    UpdateFirstTwice(rs, HasId(id), Flipped);
  }

  /** The records after `delete`: the first record with `id` is removed, the rest keep
      their order, and nothing changes when no record has that id. */
  function Deleted(rs: seq<CDNote>, id: Uuid): (r: seq<CDNote>)
    ensures (forall k :: 0 <= k < |rs| ==> rs[k].id != id) ==> r == rs
    ensures forall k :: IsFirst(rs, k, HasId(id)) ==> r == rs[..k] + rs[k + 1..]
  {
    RemoveFirst(rs, HasId(id))
  }

  // ---------------------------------------------------------------------------
  // The repository

  class NoteRepository {
    /** The objects registered in the managed object context. */
    var context: seq<CDNote>
    /** The records in the persistent store. */
    var store: seq<CDNote>

    /** Between calls, the store holds exactly what the context holds. */
    ghost predicate Valid()
      reads this
    {
      store == context
    }

    constructor (persisted: seq<CDNote>)
      ensures Valid() && context == persisted
    {
      context, store := persisted, persisted;
    }

    /** `fetch()`: the sorted notes, or none at all when the fetch request fails. */
    function Fetch(fetchFails: bool): (r: seq<Note>)
      reads this
      ensures fetchFails ==> r == []
      ensures !fetchFails ==> r == FetchAll(context)
    {
      if fetchFails then [] else FetchAll(context)
    }

    /** `save()`: writes the context to the store only when it has changes. */
    method Save()
      modifies this`store
      ensures Valid()
    {
      if context == store {
        return;
      }
      store := context;
    }

    /** `add`: inserts the record built by `from(note:context:)`; ids are not checked. */
    method Add(n: Note)
      requires Valid()
      modifies this
      ensures Valid()
      ensures context == old(context) + [From(n)]
    {
      context := context + [From(n)];
      Save();
    }

    /** `update`: overwrites the first record with `n.id`; no-op when there is none. */
    method Update(n: Note)
      requires Valid()
      modifies this
      ensures Valid()
      ensures context == Updated(old(context), n)
    {
      var found := FirstIndex(context, HasId(n.id));
      if found.None? {
        return;
      }
      var i := found.value;
      var cd := context[i];
      cd := cd.(title := n.title);
      cd := cd.(content := n.content);
      cd := cd.(createdAt := n.createdAt);
      cd := cd.(isPinned := n.isPinned);
      cd := cd.(reminderDate := n.reminderDate);
      if n.tag.Some? {
        cd := cd.(tagData := Some(EncodeTag(n.tag.value)));
      } else {
        cd := cd.(tagData := None);
      }
      context := context[i := cd];
      Save();
    }

    /** `togglePin`: flips `isPinned` of the first record with `n.id`; no-op when there is
        none. */
    method TogglePin(n: Note)
      requires Valid()
      modifies this
      ensures Valid()
      ensures context == Toggled(old(context), n.id)
    {
      var found := FirstIndex(context, HasId(n.id));
      if found.None? {
        return;
      }
      var i := found.value;
      context := context[i := context[i].(isPinned := !context[i].isPinned)];
      Save();
    }

    /** `delete`: removes the first record with `n.id`; no-op when there is none. */
    method Delete(n: Note)
      requires Valid()
      modifies this
      ensures Valid()
      ensures context == Deleted(old(context), n.id)
    {
      var found := FirstIndex(context, HasId(n.id));
      if found.Some? {
        var i := found.value;
        context := context[..i] + context[i + 1..];
        Save();
      }
    }

    /** `deleteAll`: a batch delete on the store, merged back into the context. */
    method DeleteAll()
      requires Valid()
      modifies this
      ensures Valid()
      ensures context == [] && Fetch(false) == []
    {
      store := [];
      context := [];
    }
  }
}
