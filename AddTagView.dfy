/** AddTagView.swift: the new-tag form; it has no duplicate-name check. */
module AddTag {
  import opened Model
  import opened Text
  import opened Tags

  /** The form state: name, icon and color asset name. */
  datatype TagDraft = TagDraft(name: string, icon: string, color: string)

  /** The `@State` initial values. */
  const InitialTagDraft: TagDraft := TagDraft("", "tag.fill", "TagBlue")

  /** `canSave`: the trimmed name is non-empty; the existing tags play no part. */
  predicate CanSave(d: TagDraft) {
    Trim(d.name) != []
  }

  /** The tag `save` builds: a fresh id and the trimmed name. */
  function NewTag(d: TagDraft, id: Uuid): (t: Tag)
    ensures t.id == id && t.name == Trim(d.name)
    ensures t.color == d.color && t.icon == d.icon
  {
    Tag(id, Trim(d.name), d.color, d.icon)
  }

  /** The form can be saved exactly when the typed name is not all whitespace; the
      stored name is trimmed, compares like the typed one, and is non-empty when the
      form could be saved; the form as opened cannot be saved. */
  lemma NewTagName(d: TagDraft, id: Uuid)
    ensures Trim(NewTag(d, id).name) == NewTag(d, id).name
    ensures Normalize(NewTag(d, id).name) == Normalize(d.name)
    ensures CanSave(d) <==> !Blank(d.name)
    ensures CanSave(d) ==> NewTag(d, id).name != []
    ensures !CanSave(InitialTagDraft)
  {
    TrimEmptyIffBlank(d.name);
    TrimIdempotent(d.name);
    NormalizeTrim(d.name);
  }

  /** `save`: appends the new tag to the store, even when its name duplicates one. */
  method Save(store: TagStore, d: TagDraft, id: Uuid)
    requires store.Valid()
    modifies store
    ensures store.Valid()
    ensures store.tags == old(store.tags) + [NewTag(d, id)]
  {
    store.Add(NewTag(d, id));
  }
}
