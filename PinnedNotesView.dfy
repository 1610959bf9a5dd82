/** PinnedNotesView.swift: the pinned-only list with its own search box. */
module PinnedList {
  import opened Wrappers
  import opened Model
  import opened Seqs
  import opened Mapper
  import opened Repository
  import opened NoteList

  function PinnedSearcher(text: string): Note -> bool {
    (n: Note) => SearchKeeps(n, text)
  }

  /** `filteredPinnedNotes`: exactly the pinned notes that pass the search. */
  function FilteredPinnedNotes(notes: seq<Note>, text: string): (r: seq<Note>)
    ensures forall n :: n in r ==> n.isPinned
    ensures forall n :: n in r <==> n in notes && n.isPinned && SearchKeeps(n, text)
  {
    Filter(PinnedSearcher(text), Filter(Pinned(), notes))
  }

  /** `filteredPinnedNotes` keeps each note it keeps as often as in `notes`, in the
      original order. */
  lemma FilteredPinnedNotesCounts(notes: seq<Note>, text: string)
    ensures var r := FilteredPinnedNotes(notes, text);
            forall n :: multiset(r)[n] ==
              if n.isPinned && SearchKeeps(n, text) then multiset(notes)[n] else 0
    ensures IsSubseq(FilteredPinnedNotes(notes, text), notes)
  {
    FilterFilterIsSubseq(Pinned(), PinnedSearcher(text), notes);
  }

  /** With no tag selected, the pinned tab shows exactly the pinned section of the note
      list for the same search text. */
  lemma SameAsContentViewPinned(notes: seq<Note>, text: string)
    ensures FilteredPinnedNotes(notes, text) == PinnedNotes(notes, text, None)
  {
    var pinned := Filter(Pinned(), notes);
    if text == [] {
      FilterKeepsAll(PinnedSearcher(text), pinned);
    } else {
      FilterExt(PinnedSearcher(text), Searcher(text), pinned);
      FilterCommute(Pinned(), Searcher(text), notes);
    }
  }

  /** On the output of `fetch()` the pinned tab is newest first. */
  lemma NewestFirst(rs: seq<CDNote>, text: string)
    ensures var r := FilteredPinnedNotes(FetchAll(rs), text);
            forall i, j :: 0 <= i < j < |r| ==> r[i].createdAt >= r[j].createdAt
  {
    var notes := FetchAll(rs);
    FilterSorted(Pinned(), notes, FetchOrder);
    FilterSorted(PinnedSearcher(text), Filter(Pinned(), notes), FetchOrder);
    var r := FilteredPinnedNotes(notes, text);
    forall i, j | 0 <= i < j < |r| ensures r[i].createdAt >= r[j].createdAt {
      assert r[i] in r && r[j] in r;
      assert FetchOrder(r[i], r[j]);
    }
  }

  class PinnedNotesView {
    var notes: seq<Note>
    const repository: NoteRepository

    constructor (repository: NoteRepository)
      ensures notes == [] && this.repository == repository
    {
      notes := [];
      this.repository := repository;
    }

    /** `loadNotes`. */
    method LoadNotes(fetchFails: bool)
      modifies this`notes
      ensures notes == repository.Fetch(fetchFails)
    {
      notes := repository.Fetch(fetchFails);
    }
  }
}
