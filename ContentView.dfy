/** ContentView.swift: the note list's search and tag filters, the pinned/unpinned
    split, and the reload after every repository mutation. */
module NoteList {
  import opened Wrappers
  import opened Model
  import opened Text
  import opened Seqs
  import opened Mapper
  import opened Repository

  /** `title.localizedCaseInsensitiveContains(text) ||
      content.localizedCaseInsensitiveContains(text)`. */
  predicate MatchesSearch(n: Note, text: string) {
    ContainsIgnoringCase(n.title, text) || ContainsIgnoringCase(n.content, text)
  }

  /** An empty search keeps every note; otherwise the note must match it. */
  predicate SearchKeeps(n: Note, text: string) {
    text == [] || MatchesSearch(n, text)
  }

  /** The case of the search text does not matter: typing it in lower case keeps the
      same notes. */
  lemma SearchIgnoresCaseOfText(n: Note, text: string)
    ensures SearchKeeps(n, Lower(text)) == SearchKeeps(n, text)
  {
    ContainsIgnoringCaseOfLower(n.title, text);
    ContainsIgnoringCaseOfLower(n.content, text);
  }

  /** `$0.tag?.name == tag.name`: the match is on the name, and an untagged note never
      matches. */
  predicate HasTagNamed(n: Note, name: string) {
    n.tag.Some? && n.tag.value.name == name
  }

  /** No tag selected keeps every note; otherwise the note's tag must carry its name. */
  predicate TagKeeps(n: Note, selectedTag: Option<Tag>) {
    selectedTag.None? || HasTagNamed(n, selectedTag.value.name)
  }

  /** What `filteredNotes` keeps. */
  predicate Kept(n: Note, text: string, selectedTag: Option<Tag>) {
    SearchKeeps(n, text) && TagKeeps(n, selectedTag)
  }

  function Searcher(text: string): Note -> bool {
    (n: Note) => MatchesSearch(n, text)
  }

  function TagMatcher(name: string): Note -> bool {
    (n: Note) => HasTagNamed(n, name)
  }

  function Pinned(): Note -> bool {
    (n: Note) => n.isPinned
  }

  function Unpinned(): Note -> bool {
    (n: Note) => !n.isPinned
  }

  /** The search step of `filteredNotes`. */
  function SearchFiltered(notes: seq<Note>, text: string): (r: seq<Note>)
    ensures text == [] ==> r == notes
    ensures forall n :: multiset(r)[n] == if SearchKeeps(n, text) then multiset(notes)[n] else 0
  {
    if text == [] then notes else Filter(Searcher(text), notes)
  }

  /** `filteredNotes`: the notes that pass the search and then the tag filter, each as
      often as in `notes`. */
  function FilteredNotes(notes: seq<Note>, text: string, selectedTag: Option<Tag>): (r: seq<Note>)
    ensures forall n :: multiset(r)[n] ==
              if Kept(n, text, selectedTag) then multiset(notes)[n] else 0
    ensures forall n :: n in r <==> n in notes && Kept(n, text, selectedTag)
  {
    var searched := SearchFiltered(notes, text);
    var r := if selectedTag.None? then searched
             else Filter(TagMatcher(selectedTag.value.name), searched);
    assert forall n :: n in r <==> multiset(r)[n] > 0;
    r
  }

  /** `filteredNotes` keeps the notes it keeps in their original order. */
  lemma FilteredNotesIsSubseq(notes: seq<Note>, text: string, selectedTag: Option<Tag>)
    ensures IsSubseq(FilteredNotes(notes, text, selectedTag), notes)
  {
    if text == [] && selectedTag.None? {
      IsSubseqRefl(notes);
    } else if text == [] {
      FilterIsSubseq(TagMatcher(selectedTag.value.name), notes);
    } else if selectedTag.None? {
      FilterIsSubseq(Searcher(text), notes);
    } else {
      FilterFilterIsSubseq(Searcher(text), TagMatcher(selectedTag.value.name), notes);
    }
  }

  /** `pinnedNotes`. */
  function PinnedNotes(notes: seq<Note>, text: string, selectedTag: Option<Tag>): (r: seq<Note>)
    ensures forall n :: n in r <==> n in notes && Kept(n, text, selectedTag) && n.isPinned
    ensures IsSubseq(r, FilteredNotes(notes, text, selectedTag))
  {
    FilterIsSubseq(Pinned(), FilteredNotes(notes, text, selectedTag));
    Filter(Pinned(), FilteredNotes(notes, text, selectedTag))
  }

  /** `unpinnedNotes`. */
  function UnpinnedNotes(notes: seq<Note>, text: string, selectedTag: Option<Tag>): (r: seq<Note>)
    ensures forall n :: n in r <==> n in notes && Kept(n, text, selectedTag) && !n.isPinned
    ensures IsSubseq(r, FilteredNotes(notes, text, selectedTag))
  {
    FilterIsSubseq(Unpinned(), FilteredNotes(notes, text, selectedTag));
    Filter(Unpinned(), FilteredNotes(notes, text, selectedTag))
  }

  /** The two sections split the filtered notes: every occurrence lands in exactly one
      of them. */
  lemma PinnedUnpinnedPartition(notes: seq<Note>, text: string, selectedTag: Option<Tag>)
    ensures multiset(PinnedNotes(notes, text, selectedTag)) +
            multiset(UnpinnedNotes(notes, text, selectedTag)) ==
            multiset(FilteredNotes(notes, text, selectedTag))
    ensures forall n :: !(n in PinnedNotes(notes, text, selectedTag) &&
                          n in UnpinnedNotes(notes, text, selectedTag))
  {
    var f := FilteredNotes(notes, text, selectedTag);
    var p := PinnedNotes(notes, text, selectedTag);
    var u := UnpinnedNotes(notes, text, selectedTag);
    assert forall n :: (multiset(p) + multiset(u))[n] == multiset(f)[n];
  }

  /** `filteredNotes` keeps any order the notes were in. */
  lemma FilteredKeepsOrder(notes: seq<Note>, text: string, selectedTag: Option<Tag>,
                           le: (Note, Note) -> bool)
    requires SortedBy(notes, le)
    ensures SortedBy(FilteredNotes(notes, text, selectedTag), le)
  {
    if text != [] {
      FilterSorted(Searcher(text), notes, le);
    }
    if selectedTag.Some? {
      FilterSorted(TagMatcher(selectedTag.value.name), SearchFiltered(notes, text), le);
    }
  }

  /** Helper: notes in fetch order that are all pinned, or all unpinned, are newest
      first. */
  lemma OneGroupNewestFirst(s: seq<Note>)
    requires SortedBy(s, FetchOrder)
    requires (forall n :: n in s ==> n.isPinned) || (forall n :: n in s ==> !n.isPinned)
    ensures forall i, j :: 0 <= i < j < |s| ==> s[i].createdAt >= s[j].createdAt
  {
    forall i, j | 0 <= i < j < |s| ensures s[i].createdAt >= s[j].createdAt {
      assert s[i] in s && s[j] in s;
      assert FetchOrder(s[i], s[j]);
    }
  }

  /** On the output of `fetch()` the filtered list keeps the fetch order, and each
      section is newest first. */
  lemma FilteredKeepsFetchOrder(rs: seq<CDNote>, text: string, selectedTag: Option<Tag>)
    ensures SortedBy(FilteredNotes(FetchAll(rs), text, selectedTag), FetchOrder)
    ensures var p := PinnedNotes(FetchAll(rs), text, selectedTag);
            forall i, j :: 0 <= i < j < |p| ==> p[i].createdAt >= p[j].createdAt
    ensures var u := UnpinnedNotes(FetchAll(rs), text, selectedTag);
            forall i, j :: 0 <= i < j < |u| ==> u[i].createdAt >= u[j].createdAt
  {
    var f := FilteredNotes(FetchAll(rs), text, selectedTag);
    FilteredKeepsOrder(FetchAll(rs), text, selectedTag, FetchOrder);
    FilterSorted(Pinned(), f, FetchOrder);
    FilterSorted(Unpinned(), f, FetchOrder);
    OneGroupNewestFirst(PinnedNotes(FetchAll(rs), text, selectedTag));
    OneGroupNewestFirst(UnpinnedNotes(FetchAll(rs), text, selectedTag));
  }

  /** The screen's `notes` state and its data functions. */
  class ContentView {
    var notes: seq<Note>
    const repository: NoteRepository

    constructor (repository: NoteRepository)
      ensures notes == [] && this.repository == repository
    {
      notes := [];
      this.repository := repository;
    }

    /** `loadNotes`. */
    method LoadNotes(fetchFails: bool)
      modifies this`notes
      ensures notes == repository.Fetch(fetchFails)
    {
      notes := repository.Fetch(fetchFails);
    }

    /** `addNote`: add, then reload. */
    method AddNote(n: Note, fetchFails: bool)
      requires repository.Valid()
      modifies this`notes, repository
      ensures repository.Valid()
      ensures repository.context == old(repository.context) + [From(n)]
      ensures notes == repository.Fetch(fetchFails)
    {
      repository.Add(n);
      LoadNotes(fetchFails);
    }

    /** `updateNote`: update, then reload. */
    method UpdateNote(n: Note, fetchFails: bool)
      requires repository.Valid()
      modifies this`notes, repository
      ensures repository.Valid()
      ensures repository.context == Updated(old(repository.context), n)
      ensures notes == repository.Fetch(fetchFails)
    {
      repository.Update(n);
      LoadNotes(fetchFails);
    }

    /** `togglePin`: toggle, then reload. */
    method TogglePin(n: Note, fetchFails: bool)
      requires repository.Valid()
      modifies this`notes, repository
      ensures repository.Valid()
      ensures repository.context == Toggled(old(repository.context), n.id)
      ensures notes == repository.Fetch(fetchFails)
    {
      repository.TogglePin(n);
      LoadNotes(fetchFails);
    }

    /** `deleteNoteDirect`: delete, then reload. */
    method DeleteNoteDirect(n: Note, fetchFails: bool)
      requires repository.Valid()
      modifies this`notes, repository
      ensures repository.Valid()
      ensures repository.context == Deleted(old(repository.context), n.id)
      ensures notes == repository.Fetch(fetchFails)
    {
      repository.Delete(n);
      LoadNotes(fetchFails);
    }
  }
}
