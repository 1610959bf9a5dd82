/** AddNoteView.swift: the new-note form, its save rule and the note it builds. */
module AddNote {
  import opened Wrappers
  import opened Model
  import opened Text

  /** The form state shared by the add and edit screens: title, plain content, the
      selected tag, the pin switch, the reminder switch and the picked date. */
  datatype NoteDraft = NoteDraft(
    title: string,
    content: string,
    selectedTag: Option<Tag>,
    isPinned: bool,
    hasReminder: bool,
    reminderDate: Time
  )

  /** The `@State` initial values; the date picker starts at the time the form opens. */
  function InitialDraft(now: Time): (d: NoteDraft)
    ensures d.title == [] && d.content == [] && d.selectedTag.None?
    ensures !d.isPinned && !d.hasReminder && d.reminderDate == now
  {
    NoteDraft("", "", None, false, false, now)
  }

  /** `canSave`: the trimmed title or the trimmed content is non-empty. */
  predicate CanSave(d: NoteDraft) {
    Trim(d.title) != [] || Trim(d.content) != []
  }

  /** A draft can be saved exactly when title and content are not both whitespace. */
  lemma CanSaveUnlessBothBlank(d: NoteDraft)
    ensures CanSave(d) <==> !(Blank(d.title) && Blank(d.content))
  {
    TrimEmptyIffBlank(d.title);
    TrimEmptyIffBlank(d.content);
  }

  /** `hasReminder ? reminderDate : nil`. */
  function ChosenReminder(d: NoteDraft): (r: Option<Time>)
    ensures r.None? <==> !d.hasReminder
    ensures r.Some? ==> r.value == d.reminderDate
  {
    if d.hasReminder then Some(d.reminderDate) else None
  }

  /** `save`: the note handed to `onSave`, with a fresh id and `createdAt` = now. Title
      and content are kept exactly as typed. */
  function NewNote(d: NoteDraft, id: Uuid, now: Time): (n: Note)
    ensures n.id == id && n.createdAt == now
    ensures n.title == d.title && n.content == d.content
    ensures n.tag == d.selectedTag && n.isPinned == d.isPinned
    ensures n.reminderDate == ChosenReminder(d)
  {
    Note(id, d.title, d.content, now, d.selectedTag, d.isPinned, ChosenReminder(d))
  }

  /** A note whose title or content has visible text. */
  predicate HasText(n: Note) {
    Trim(n.title) != [] || Trim(n.content) != []
  }

  /** The form as opened cannot be saved, and whatever it saves has visible text. */
  lemma SaveRule(d: NoteDraft, id: Uuid, now: Time)
    ensures !CanSave(InitialDraft(now))
    ensures CanSave(d) ==> HasText(NewNote(d, id, now))
  {
    assert Trim("") == [];
  }
}
