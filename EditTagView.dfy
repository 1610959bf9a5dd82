/** EditTagView.swift: the edit form seeded from a tag, its duplicate-aware save rule and
    the in-place replacement it makes. */
module EditTag {
  import opened Wrappers
  import opened Model
  import opened Text
  import opened Tags
  import opened AddTag

  /** `init(tag:)`. */
  function EditDraft(t: Tag): (d: TagDraft)
    ensures d.name == t.name && d.icon == t.icon && d.color == t.color
  {
    TagDraft(t.name, t.icon, t.color)
  }

  /** `canSave`: the trimmed name is non-empty and no other tag has the same name. */
  predicate CanSave(tags: seq<Tag>, d: TagDraft, t: Tag) {
    Trim(d.name) != [] && !IsNameDuplicate(tags, Trim(d.name), Some(t.id))
  }

  /** Trimming before the duplicate check makes no difference: a name can be saved
      exactly when it is not blank and no other tag has it, up to case and
      surrounding whitespace. */
  lemma CanSaveMeans(tags: seq<Tag>, d: TagDraft, t: Tag)
    ensures CanSave(tags, d, t) <==>
              !Blank(d.name) && !IsNameDuplicate(tags, d.name, Some(t.id))
  {
    TrimEmptyIffBlank(d.name);
    NormalizeTrim(d.name);
    DuplicateByNormalForm(tags, Trim(d.name), d.name, Some(t.id));
  }

  /** Renaming a tag to any name that normalizes like its own (a case or whitespace
      variant of it) is allowed when no other tag already has that name. */
  lemma RenameToOwnVariantAllowed(tags: seq<Tag>, t: Tag, typed: string)
    requires Normalize(typed) == Normalize(t.name)
    requires !Blank(t.name)
    requires !IsNameDuplicate(tags, t.name, Some(t.id))
    ensures CanSave(tags, EditDraft(t).(name := typed), t)
  {
    CanSaveMeans(tags, EditDraft(t).(name := typed), t);
    DuplicateByNormalForm(tags, typed, t.name, Some(t.id));
    TrimEmptyIffBlank(typed);
    TrimEmptyIffBlank(t.name);
  }

  /** The tag `save` passes to `TagStore.update`: the original id, the trimmed name and
      the chosen color and icon. */
  function EditedTag(d: TagDraft, t: Tag): (r: Tag)
    ensures r.id == t.id && r.name == Trim(d.name)
    ensures r.color == d.color && r.icon == d.icon
  {
    Tag(t.id, Trim(d.name), d.color, d.icon)
  }

  /** `save`: replaces the tag in place, so the list keeps its length. */
  method Save(store: TagStore, d: TagDraft, t: Tag)
    requires store.Valid()
    modifies store
    ensures store.Valid()
    ensures store.tags == ReplaceById(old(store.tags), EditedTag(d, t))
    ensures |store.tags| == |old(store.tags)|
  {
    store.Update(EditedTag(d, t));
  }
}
