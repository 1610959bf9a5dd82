/** TagStore.swift: the ordered list of tags, persisted as a whole after every change. */
module Tags {
  import opened Wrappers
  import opened Model
  import opened Text
  import opened Seqs
  import opened TagCodec

  /** The seven tags installed when nothing (or nothing readable) is stored. */
  const DefaultTags: seq<Tag> := [
    Tag(0x11111111_1111_1111_1111_111111111111, "İş", "TagBlue", "briefcase.fill"),
    Tag(0x22222222_2222_2222_2222_222222222222, "Kişisel", "TagGreen", "person.fill"),
    Tag(0x33333333_3333_3333_3333_333333333333, "Fikir", "TagPurple", "lightbulb.fill"),
    Tag(0x44444444_4444_4444_4444_444444444444, "Acil", "TagOrange", "exclamationmark.triangle.fill"),
    Tag(0x55555555_5555_5555_5555_555555555555, "Hata", "TagRed", "ant.fill"),
    Tag(0x66666666_6666_6666_6666_666666666666, "Öğrenme", "TagYellow", "book.fill"),
    Tag(0x77777777_7777_7777_7777_777777777777, "Araştırma", "TagTeal", "magnifyingglass.circle.fill")
  ]

  /** There are seven default tags, with distinct identifiers. */
  lemma DefaultTagsDistinct()
    ensures |DefaultTags| == 7
    ensures forall i, j :: 0 <= i < j < |DefaultTags| ==> DefaultTags[i].id != DefaultTags[j].id
  {
  }

  /** The tag list `load()` produces from what is stored under the storage key: the
      defaults when nothing is stored or the data does not decode, the decoded list
      verbatim otherwise. */
  function LoadedTags(stored: Option<Data>): (r: seq<Tag>)
    ensures stored.None? ==> r == DefaultTags
    ensures stored.Some? ==> r == DecodeTags(stored.value).GetOr(DefaultTags)
  {
    match stored
    case None => DefaultTags
    case Some(d) =>
      match DecodeTags(d)
      case None => DefaultTags
      case Some(ts) => ts
  }

  /** Loading what was saved gives back the saved list. */
  lemma LoadAfterSave(ts: seq<Tag>)
    ensures LoadedTags(Some(EncodeTags(ts))) == ts
  {
    DecodeEncodeTags(ts);
  }

  // ---------------------------------------------------------------------------
  // Pure queries

  /** `isNameDuplicate(name, excluding:)`: some tag whose id is not the excluded one has
      the same normalized name as `name`. With no id excluded, every tag is considered. */
  function IsNameDuplicate(tags: seq<Tag>, name: string, excluding: Option<Uuid>): (r: bool)
    ensures r <==> exists i :: 0 <= i < |tags| && Some(tags[i].id) != excluding
                                && Normalize(tags[i].name) == Normalize(name)
    decreases tags
  {
    if tags == [] then false
    else
      var rest := IsNameDuplicate(tags[1..], name, excluding);
      assert forall i :: 1 <= i < |tags| ==> tags[i] == tags[1..][i - 1];
      (Some(tags[0].id) != excluding && Normalize(tags[0].name) == Normalize(name)) || rest
  }

  /** The check looks only at the normalized form of the name. */
  lemma DuplicateByNormalForm(tags: seq<Tag>, a: string, b: string, excluding: Option<Uuid>)
    requires Normalize(a) == Normalize(b)
    ensures IsNameDuplicate(tags, a, excluding) == IsNameDuplicate(tags, b, excluding)
  {
  }

  /** Excluding an id is the same as checking against the list without that id; in
      particular a tag is never a duplicate of itself when its own id is excluded. */
  lemma {:induction false} ExcludingIsRemoving(tags: seq<Tag>, name: string, id: Uuid)
    ensures IsNameDuplicate(tags, name, Some(id)) == IsNameDuplicate(WithoutId(tags, id), name, None)
    decreases tags
  {
    if tags != [] {
      ExcludingIsRemoving(tags[1..], name, id);
      FilterCons((x: Tag) => x.id != id, tags[0], tags[1..]);
      assert tags == [tags[0]] + tags[1..];
    }
  }

  /** A name that normalizes like another tag's name is a duplicate for any other id. */
  lemma DuplicateOfOtherTag(tags: seq<Tag>, other: Tag, name: string, id: Uuid)
    requires other in tags && other.id != id
    requires Normalize(other.name) == Normalize(name)
    ensures IsNameDuplicate(tags, name, Some(id))
  {
    var i :| 0 <= i < |tags| && tags[i] == other;
  }

  /** The duplicate check ignores ASCII case and surrounding whitespace of the name. */
  lemma DuplicateIgnoresCaseAndPadding(tags: seq<Tag>, pre: string, name: string, post: string,
                                       excluding: Option<Uuid>)
    requires Blank(pre) && Blank(post)
    ensures IsNameDuplicate(tags, pre + Lower(name) + post, excluding)
            == IsNameDuplicate(tags, name, excluding)
  {
    NormalizeIgnoresPadding(pre, Lower(name), post);
    NormalizeIgnoresCase(name);
  }

  /** `linkedNotesCount(for:)`: how many of `notes` embed a tag with this tag's id. */
  function LinkedNotesCount(notes: seq<Note>, tag: Tag): (r: nat)
    ensures r <= |notes|
    ensures r == 0 <==> forall n :: n in notes ==> !(n.tag.Some? && n.tag.value.id == tag.id)
  {
    var linked := Filter((n: Note) => n.tag.Some? && n.tag.value.id == tag.id, notes);
    assert linked != [] ==> linked[0] in linked;
    |linked|
  }

  // ---------------------------------------------------------------------------
  // The list after each mutation

  /** The predicate of `firstIndex(where: { $0.id == tag.id })`. */
  function TagHasId(id: Uuid): Tag -> bool {
    (x: Tag) => x.id == id
  }

  /** `tags` with the first tag carrying `t.id` replaced by `t`; unchanged when no tag
      carries that id. */
  function ReplaceById(tags: seq<Tag>, t: Tag): (r: seq<Tag>)
    ensures |r| == |tags|
    ensures (forall k :: 0 <= k < |tags| ==> tags[k].id != t.id) ==> r == tags
    ensures forall k :: 0 <= k < |tags| ==> r[k] == if IsFirst(tags, k, TagHasId(t.id)) then t else tags[k]
  {
    UpdateFirst(tags, TagHasId(t.id), (_: Tag) => t)
  }

  /** `tags` without any tag carrying `id`, the others in their original order. */
  function WithoutId(tags: seq<Tag>, id: Uuid): (r: seq<Tag>)
    ensures forall x :: x in r <==> x in tags && x.id != id
    ensures forall x: Tag :: x.id != id ==> multiset(r)[x] == multiset(tags)[x]
    ensures IsSubseq(r, tags)
    ensures (forall k :: 0 <= k < |tags| ==> tags[k].id != id) ==> r == tags
  {
    var r := Filter((x: Tag) => x.id != id, tags);
    FilterIsSubseq((x: Tag) => x.id != id, tags);
    if forall k :: 0 <= k < |tags| ==> tags[k].id != id then
      FilterKeepsAll((x: Tag) => x.id != id, tags);
      r
    else r
  }

  // ---------------------------------------------------------------------------
  // The store

  class TagStore {
    /** The published tag list. */
    var tags: seq<Tag>
    /** What UserDefaults holds under the key "saved_tags". */
    var saved: Option<Data>

    /** Every change to `tags` has been written through. */
    ghost predicate Valid()
      reads this
    {
      saved == Some(EncodeTags(tags))
    }

    /** `init`: runs `load()` on whatever the defaults database holds. */
    constructor (stored: Option<Data>)
      ensures Valid()
      ensures tags == LoadedTags(stored)
    {
      tags, saved := [], stored;
      new;
      Load(stored);
    }

    /** `load()`; assigning `tags` runs its `didSet`, which saves. */
    method Load(stored: Option<Data>)
      modifies this
      ensures Valid()
      ensures tags == LoadedTags(stored)
    {
      tags := LoadedTags(stored);
      Save();
    }

    /** `save()`: the whole list is encoded and stored. */
    method Save()
      modifies this`saved
      ensures Valid()
    {
      saved := Some(EncodeTags(tags));
    }

    /** `add`: appends, with no check on ids or names. */
    method Add(t: Tag)
      requires Valid()
      modifies this
      ensures Valid()
      ensures tags == old(tags) + [t]
    {
      tags := tags + [t];
      Save();
    }

    /** `update`: replaces the first tag with the same id; no-op when there is none. */
    method Update(t: Tag)
      requires Valid()
      modifies this
      ensures Valid()
      ensures tags == ReplaceById(old(tags), t)
    {
      var index := FirstIndex(tags, TagHasId(t.id));
      if index.None? {
        return;
      }
      tags := tags[index.value := t];
      Save();
    }

    /** `delete`: removes every tag with the same id. */
    method Delete(t: Tag)
      requires Valid()
      modifies this
      ensures Valid()
      ensures tags == WithoutId(old(tags), t.id)
    {
      tags := Filter((x: Tag) => x.id != t.id, tags);
      Save();
    }
  }
}
