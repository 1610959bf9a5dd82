/** RemindersView.swift: the list of notes with a reminder, sorted by reminder date, and
    the labels shown on each card. */
module ReminderList {
  import opened Wrappers
  import opened Model
  import opened Seqs
  import opened Repository
  import opened NoteList

  /** `Date.distantFuture`, in seconds after the 2001-01-01 reference date. */
  const DistantFuture: Time := 63113904000

  /** `reminderDate ?? .distantFuture`. */
  function ReminderKey(n: Note): Time {
    n.reminderDate.GetOr(DistantFuture)
  }

  /** The sort comparator, as a total preorder: the `<` of the source induces it. */
  predicate ReminderOrder(a: Note, b: Note) {
    ReminderKey(a) <= ReminderKey(b)
  }

  lemma ReminderOrderIsTotalPreorder()
    ensures TotalPreorder(ReminderOrder)
  {
  }

  function HasReminder(): Note -> bool {
    (n: Note) => n.reminderDate.Some?
  }

  function ReminderSearcher(text: string): Note -> bool {
    (n: Note) => SearchKeeps(n, text)
  }

  /** The two filter steps of `filteredReminderNotes`. */
  function ReminderCandidates(notes: seq<Note>, text: string): (r: seq<Note>)
    ensures forall n :: multiset(r)[n] ==
              if n.reminderDate.Some? && SearchKeeps(n, text) then multiset(notes)[n] else 0
  {
    Filter(ReminderSearcher(text), Filter(HasReminder(), notes))
  }

  /** Helper: a sequence of notes that all have a reminder, sorted by the comparator,
      is ordered by reminder date. */
  lemma SortedByReminderDate(r: seq<Note>)
    requires SortedBy(r, ReminderOrder)
    requires forall n :: multiset(r)[n] > 0 ==> n.reminderDate.Some?
    ensures forall i, j :: 0 <= i < j < |r| ==>
              r[i].reminderDate.value <= r[j].reminderDate.value
  {
    forall i, j | 0 <= i < j < |r|
      ensures r[i].reminderDate.value <= r[j].reminderDate.value
    {
      assert r[i] in multiset(r) && r[j] in multiset(r);
      assert ReminderOrder(r[i], r[j]);
    }
  }

  /** `filteredReminderNotes`: exactly the notes that have a reminder and pass the
      search, each as often as in `notes`, earliest reminder first. */
  function FilteredReminderNotes(notes: seq<Note>, text: string): (r: seq<Note>)
    ensures forall n :: n in r ==> n.reminderDate.Some?
    ensures forall n :: multiset(r)[n] ==
              if n.reminderDate.Some? && SearchKeeps(n, text) then multiset(notes)[n] else 0
    ensures forall i, j :: 0 <= i < j < |r| ==>
              r[i].reminderDate.value <= r[j].reminderDate.value
  {
    ReminderOrderIsTotalPreorder();
    var r := SortBy(ReminderCandidates(notes, text), ReminderOrder);
    assert forall n :: n in r <==> multiset(r)[n] > 0;
    SortedByReminderDate(r);
    r
  }

  // ---------------------------------------------------------------------------
  // Card labels

  /** The calendar day of a time, as `Calendar.current` would assign it. */
  ghost predicate Monotone(dayOf: Time -> int) {
    forall a, b :: a <= b ==> dayOf(a) <= dayOf(b)
  }

  /** `relativeDateText`: today, else tomorrow, else overdue if before now, else
      upcoming. */
  function RelativeDateText(date: Time, now: Time, dayOf: Time -> int): (r: string)
    ensures r == "Bugün" <==> dayOf(date) == dayOf(now)
    ensures r == "Yarın" <==> dayOf(date) != dayOf(now) && dayOf(date) == dayOf(now) + 1
    ensures r == "Gecikmiş" <==>
              dayOf(date) != dayOf(now) && dayOf(date) != dayOf(now) + 1 && date < now
    ensures r == "Yaklaşan" <==>
              dayOf(date) != dayOf(now) && dayOf(date) != dayOf(now) + 1 && date >= now
  {
    if dayOf(date) == dayOf(now) then "Bugün"
    else if dayOf(date) == dayOf(now) + 1 then "Yarın"
    else if date < now then "Gecikmiş"
    else "Yaklaşan"
  }

  /** `isPast` in `reminderCard`: `(reminderDate ?? Date()) < Date()`. */
  function IsPast(reminderDate: Option<Time>, now: Time): (r: bool)
    ensures r <==> reminderDate.Some? && reminderDate.value < now
  {
    reminderDate.GetOr(now) < now
  }

  /** With a calendar whose days do not run backwards, the label agrees with the card's
      past marking: a past date is labelled today or overdue, an overdue date is past
      and on an earlier day, and an upcoming date is at least two days ahead. */
  lemma LabelAgreesWithIsPast(date: Time, now: Time, dayOf: Time -> int)
    requires Monotone(dayOf)
    ensures IsPast(Some(date), now) ==>
              RelativeDateText(date, now, dayOf) == "Bugün" ||
              RelativeDateText(date, now, dayOf) == "Gecikmiş"
    ensures RelativeDateText(date, now, dayOf) == "Gecikmiş" ==>
              IsPast(Some(date), now) && dayOf(date) < dayOf(now)
    ensures RelativeDateText(date, now, dayOf) == "Yaklaşan" ==>
              !IsPast(Some(date), now) && dayOf(date) >= dayOf(now) + 2
  {
    if date < now {
      assert dayOf(date) <= dayOf(now);
    } else {
      assert dayOf(now) <= dayOf(date);
    }
  }

  class RemindersView {
    var notes: seq<Note>
    const repository: NoteRepository

    constructor (repository: NoteRepository)
      ensures notes == [] && this.repository == repository
    {
      notes := [];
      this.repository := repository;
    }

    /** `loadNotes`. */
    method LoadNotes(fetchFails: bool)
      modifies this`notes
      ensures notes == repository.Fetch(fetchFails)
    {
      notes := repository.Fetch(fetchFails);
    }
  }
}
