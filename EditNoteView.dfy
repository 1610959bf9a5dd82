/** EditNoteView.swift: the edit form seeded from a note, and the updated note it
    builds. */
module EditNote {
  import opened Wrappers
  import opened Model
  import opened Text
  import opened AddNote

  /** `init(note:)`: the form state seeded from the note; the date picker falls back to
      the time the form opens. */
  function EditDraft(n: Note, now: Time): (d: NoteDraft)
    ensures d.title == n.title && d.content == n.content
    ensures d.selectedTag == n.tag && d.isPinned == n.isPinned
    ensures d.hasReminder <==> n.reminderDate.Some?
    ensures d.reminderDate == n.reminderDate.GetOr(now)
  {
    NoteDraft(n.title, n.content, n.tag, n.isPinned, n.reminderDate.Some?, n.reminderDate.GetOr(now))
  }

  /** `save`: the updated note keeps the original id and creation time, and stores the
      trimmed title and content. `canSave` is the rule `AddNote.CanSave`. */
  function EditedNote(d: NoteDraft, original: Note): (n: Note)
    ensures n.id == original.id && n.createdAt == original.createdAt
    ensures n.title == Trim(d.title) && n.content == Trim(d.content)
    ensures n.tag == d.selectedTag && n.isPinned == d.isPinned
    ensures n.reminderDate == ChosenReminder(d)
  {
    Note(original.id, Trim(d.title), Trim(d.content), original.createdAt,
         d.selectedTag, d.isPinned, ChosenReminder(d))
  }

  /** The edited note's text is already trimmed, and it has visible text whenever the
      form could be saved. */
  lemma EditedNoteIsTrimmed(d: NoteDraft, original: Note)
    ensures var n := EditedNote(d, original);
            Trim(n.title) == n.title && Trim(n.content) == n.content
    ensures CanSave(d) ==> HasText(EditedNote(d, original))
  {
    TrimIdempotent(d.title);
    TrimIdempotent(d.content);
  }

  /** Saving with only whitespace added around the title and content gives back the
      original note, when its title and content were trimmed to begin with. */
  lemma SaveWithoutEditsIsIdentity(n: Note, now: Time, pre: string, post: string)
    requires Trim(n.title) == n.title && Trim(n.content) == n.content
    requires Blank(pre) && Blank(post)
    ensures EditedNote(EditDraft(n, now), n) == n
    ensures EditedNote(EditDraft(n, now).(title := pre + n.title + post,
                                          content := pre + n.content + post), n) == n
  {
    PaddedTrim(pre, n.title, post);
    PaddedTrim(pre, n.content, post);
  }
}
