/** The app's value types: `Tag` (Tag.swift) and `Note` (Note.swift). */
module Model {
  import opened Wrappers

  /** A UUID; only equality between identifiers is ever used. */
  type Uuid = nat

  /** A point in time (Foundation's `Date`), in whole seconds. */
  type Time = int

  datatype Tag = Tag(id: Uuid, name: string, color: string, icon: string)

  datatype Note = Note(
    id: Uuid,
    title: string,
    content: string,
    createdAt: Time,
    tag: Option<Tag>,       // an embedded copy of the tag, not a reference
    isPinned: bool,
    reminderDate: Option<Time>
  )
}
