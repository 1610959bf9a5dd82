/** NoteMapper.swift: converting between the app's `Note` and the stored `CDNote`
    record, whose tag is kept as an encoded snapshot. */
module Mapper {
  import opened Wrappers
  import opened Model
  import opened TagCodec

  /** The CoreData entity (CDNote+CoreDataProperties.swift), as a value. */
  datatype CDNote = CDNote(
    id: Uuid,
    title: string,
    content: string,
    createdAt: Time,
    tagData: Option<Data>,
    isPinned: bool,
    reminderDate: Option<Time>
  )

  /** `if let tag = note.tag { try? JSONEncoder().encode(tag) } else { nil }`. */
  function SnapshotData(tag: Option<Tag>): (d: Option<Data>)
    ensures d.None? <==> tag.None?
    ensures tag.Some? ==> DecodeTag(d.value) == tag
  {
    match tag
    case None => None
    case Some(t) =>
      DecodeEncodeTag(t);
      Some(EncodeTag(t))
  }

  /** `toNote()`: the tag is decoded from the snapshot, and is nil when there is no
      snapshot or it does not decode. */
  function ToNote(cd: CDNote): (n: Note)
    ensures n.id == cd.id && n.title == cd.title && n.content == cd.content
    ensures n.createdAt == cd.createdAt && n.isPinned == cd.isPinned
    ensures n.reminderDate == cd.reminderDate
    ensures cd.tagData.None? ==> n.tag.None?
    ensures cd.tagData.Some? ==> n.tag == DecodeTag(cd.tagData.value)
  {
    var decodedTag := match cd.tagData
      case Some(data) => DecodeTag(data)
      case None => None;
    Note(cd.id, cd.title, cd.content, cd.createdAt, decodedTag, cd.isPinned, cd.reminderDate)
  }

  /** `from(note:context:)`: the record that is inserted for `n`. */
  function From(n: Note): (cd: CDNote)
    ensures cd.id == n.id && cd.title == n.title && cd.content == n.content
    ensures cd.createdAt == n.createdAt && cd.isPinned == n.isPinned
    ensures cd.reminderDate == n.reminderDate
    ensures cd.tagData.None? <==> n.tag.None?
  {
    CDNote(n.id, n.title, n.content, n.createdAt, SnapshotData(n.tag), n.isPinned, n.reminderDate)
  }

  /** Storing a note and reading it back gives the same note, tag snapshot included. */
  lemma RoundTrip(n: Note)
    ensures ToNote(From(n)) == n
  {
    var cd := From(n);
    if n.tag.Some? {
      assert DecodeTag(cd.tagData.value) == n.tag;
    }
  }

  /** The tag is stored as a snapshot, not a reference: a record written while the note
      carried `t` still reads back as `t` after the tag with that id has been changed to
      `edited` in the tag store, until the note itself is saved again. */
  lemma SnapshotSurvivesTagEdit(n: Note, t: Tag, edited: Tag)
    requires n.tag == Some(t) && edited.id == t.id
    ensures ToNote(From(n)).tag == Some(t)
    ensures edited != t ==> ToNote(From(n)).tag != Some(edited)
    ensures ToNote(From(n.(tag := Some(edited)))).tag == Some(edited)
  {
    RoundTrip(n);
    RoundTrip(n.(tag := Some(edited)));
  }
}
