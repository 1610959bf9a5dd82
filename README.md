# DevNotes data layer in Dafny

DevNotes is an iOS notes app for developers. Notes have a title, content, a creation time,
an optional tag, a pin flag and an optional reminder date; tags have an id, a name, a
color asset and an SF Symbol icon. This project models the app's data layer and the pure
derivations its screens compute over it, and proves what they promise:

- **Tag store** (`Tags`, TagStore.swift). The class `TagStore` holds the tag list and the
  user-defaults entry. Every mutation re-persists the whole list. Loading falls back to
  the seven default tags when nothing is stored or the data does not decode. The
  duplicate-name check compares names trimmed and lower-cased, and it can exclude one id.
- **Tag serialisation** (`TagCodec`). This stands in for `JSONEncoder`/`JSONDecoder` on
  `Tag` and `[Tag]`. It is a length-prefixed encoding over integers, with decode ∘ encode
  = identity and rejection of malformed data.
- **Note records** (`Mapper`, NoteMapper.swift). The CoreData entity is a value
  `CDNote`. Its tag is an embedded snapshot, not a reference; the mapping round-trips.
- **Note repository** (`Repository`, NoteRepository.swift). The class `NoteRepository`
  holds the managed object context and the persistent store as two sequences of records.
  - `fetch` is pinned-first and newest-first, and a failing fetch returns nothing.
  - add, update, togglePin, delete and deleteAll are modelled, with the `hasChanges`
    guard of `save`.
- **Screens.**
  - The note list's search and tag filters and its pinned/unpinned split (`NoteList`,
    ContentView.swift).
  - The pinned tab (`PinnedList`).
  - The reminders tab, with its sort and card labels (`ReminderList`).
  - The add/edit forms for notes and tags, with `canSave` and the value `save` builds
    (`AddNote`, `EditNote`, `AddTag`, `EditTag`).
  - Each screen's reload after a repository call is a method of a class holding the
    screen's `notes`.
- **User session** (`Session`, UserSession.swift). The free-note quota; the limit,
  clamped to at least one and persisted; the PRO flag, which is always persisted but
  announced only on change.
- **Appearance** (`Appearance`, SettingsView.swift and DevNotesApp.swift). The three
  themes, parsing their raw values with the fallback to the system theme, icons, and
  colour schemes.

The support modules are:

- `Seqs`: filter, order-preserving subsequence, first-match update and removal, and
  insertion sort by a total preorder.
- `Text`: trimming of Unicode whitespace and newlines, ASCII lower-casing and
  case-insensitive containment.

The reminders screen has no filter modes, such as all, overdue or upcoming, and no
grouping into sections. It shows one list, sorted ascending by reminder date.

## Model

| member | source | states |
|---|---|---|
| Seqs.Filter | DevNotes/DevNotes/ContentView.swift:297-300 | The filtered sequence keeps an element exactly when the predicate holds, with each kept element occurring as often as in the input. |
| Seqs.FilterIsSubseq | DevNotes/DevNotes/ContentView.swift:293-308 | A filter's result is an order-preserving subsequence of its input. |
| Seqs.FilterSorted | DevNotes/DevNotes/PinnedNotesView.swift:162-170 | Filtering a sequence sorted by some order leaves it sorted by that order. |
| Seqs.UpdateFirst | DevNotes/DevNotes/TagStore.swift:75-78 | Only the first element matching the predicate is replaced. Every other position and the length stay the same, and nothing changes when nothing matches. |
| Seqs.RemoveFirst | DevNotes/DevNotes/NoteRepository.swift:78-86 | The first matching element is removed and the others keep their order. Nothing changes when nothing matches. |
| Seqs.UpdateFirstTwice | DevNotes/DevNotes/NoteRepository.swift:66-74 | Applying an involution to the first match twice restores the sequence. |
| Seqs.SortBy | DevNotes/DevNotes/RemindersView.swift:197-200 | The result is a permutation of the input that is sorted by the given total preorder. |
| Text.Trim | DevNotes/DevNotes/TagStore.swift:103 | `trimmingCharacters(in: .whitespacesAndNewlines)`: drops leading and trailing whitespace; the result is never longer than the input. |
| Text.TrimStartShape | DevNotes/DevNotes/TagStore.swift:103 | Trimming the front drops an all-whitespace prefix and stops at a character that is not whitespace. |
| Text.TrimEndShape | DevNotes/DevNotes/TagStore.swift:103 | Trimming the back drops an all-whitespace suffix and stops at a character that is not whitespace. |
| Text.TrimEnds | DevNotes/DevNotes/TagStore.swift:103 | A trimmed string is empty or starts and ends with a character that is not whitespace. |
| Text.TrimIsBlock | DevNotes/DevNotes/TagStore.swift:103 | The trimmed string is a contiguous block of the input with blank text on both sides. |
| Text.TrimIdempotent | DevNotes/DevNotes/TagStore.swift:103 | Trimming twice is the same as trimming once. |
| Text.TrimEmptyIffBlank | DevNotes/DevNotes/AddNoteView.swift:98-101 | The trimmed string is empty exactly when the input is all whitespace. |
| Text.PaddedTrim | DevNotes/DevNotes/EditNoteView.swift:166-167 | Whitespace added around a string is removed again by trimming. |
| Text.TrimLowerCommute | DevNotes/DevNotes/TagStore.swift:101-105 | Trimming and lower-casing commute. |
| Text.Lower | DevNotes/DevNotes/TagStore.swift:104 | `lowercased()`: keeps the length and lower-cases each character on its own. |
| Text.LowerIdempotent | DevNotes/DevNotes/TagStore.swift:104 | Lower-casing twice is the same as lower-casing once. |
| Text.ContainsIgnoringCase | DevNotes/DevNotes/ContentView.swift:298-299 | `localizedCaseInsensitiveContains`: the text occurs at some position of the string, letters compared without regard to case. |
| Text.StartsWithIgnoringCaseMeans | DevNotes/DevNotes/ContentView.swift:298-299 | The case-insensitive prefix test is exactly the prefix test on the lower-cased strings. |
| Text.ContainsIgnoringCaseMeans | DevNotes/DevNotes/ContentView.swift:298-299 | The case-insensitive containment test holds exactly when the lower-cased needle occurs in the lower-cased text. |
| Text.ContainsInfixAt | DevNotes/DevNotes/ContentView.swift:298-299 | Containment holds exactly when the needle occurs at some position of the text. |
| Text.Normalize | DevNotes/DevNotes/TagStore.swift:101-105 | `normalize`: trim, then lower-case. |
| Text.NormalizeIdempotent | DevNotes/DevNotes/TagStore.swift:101-105 | `normalize` is idempotent. |
| Text.NormalizeTrim | DevNotes/DevNotes/TagStore.swift:101-105 | Normalising a trimmed string gives the same result as normalising the original. |
| Text.NormalizeIgnoresCase | DevNotes/DevNotes/TagStore.swift:101-105 | Names differing only in ASCII case normalise alike. |
| Text.NormalizeIgnoresPadding | DevNotes/DevNotes/TagStore.swift:101-105 | Names differing only in surrounding whitespace normalise alike. |
| TagCodec.EncodeTag | DevNotes/DevNotes/NoteMapper.swift:41 | `JSONEncoder().encode(tag)`: a tag's fields in a fixed order. |
| TagCodec.DecodeTag | DevNotes/DevNotes/NoteMapper.swift:11 | `JSONDecoder().decode(Tag.self, from:)`: succeeds only when the whole data is one well-formed tag. |
| TagCodec.EncodeTags | DevNotes/DevNotes/TagStore.swift:111 | `JSONEncoder().encode(tags)`: a count, then each tag in list order. |
| TagCodec.DecodeTags | DevNotes/DevNotes/TagStore.swift:125 | `JSONDecoder().decode([Tag].self, from:)`: succeeds only when the whole data is a well-formed tag list. |
| TagCodec.DecodeEncodeTag | DevNotes/DevNotes/NoteMapper.swift:9-12 | Decoding an encoded tag gives the tag back. |
| TagCodec.EncodeTagInjective | DevNotes/DevNotes/NoteMapper.swift:40-41 | Different tags have different encodings. |
| TagCodec.DecodeEncodeTags | DevNotes/DevNotes/TagStore.swift:109-130 | Decoding an encoded tag list gives the list back. |
| TagCodec.DecodeChars | DevNotes/DevNotes/TagStore.swift:125 | Decoding fails exactly when some code point is not a Unicode scalar. Otherwise it yields those characters. |
| Tags.DefaultTags | DevNotes/DevNotes/TagStore.swift:16-60 | The seven built-in tags, with their fixed ids, names, colors and icons. |
| Tags.DefaultTagsDistinct | DevNotes/DevNotes/TagStore.swift:16-60 | There are seven default tags, and their ids are pairwise distinct. |
| Tags.LoadedTags | DevNotes/DevNotes/TagStore.swift:118-130 | With missing data, or data that does not decode, the result is exactly the default tags. Otherwise it is the decoded list verbatim. |
| Tags.LoadAfterSave | DevNotes/DevNotes/TagStore.swift:109-130 | Loading what `save` wrote gives back the saved list. |
| Tags.IsNameDuplicate | DevNotes/DevNotes/TagStore.swift:86-93 | True exactly when some tag whose id is not the excluded one has the same normalised name. With no id excluded, every tag is considered. |
| Tags.DuplicateByNormalForm | DevNotes/DevNotes/TagStore.swift:87 | Two names with the same normal form get the same answer from the duplicate check. |
| Tags.ExcludingIsRemoving | DevNotes/DevNotes/TagStore.swift:90-91 | Excluding an id gives the same answer as checking the list without that id's tags, so a tag is never a duplicate of itself. |
| Tags.DuplicateOfOtherTag | DevNotes/DevNotes/TagStore.swift:89-92 | A name normalising like another tag's name is a duplicate, even when the editing tag's id is excluded. |
| Tags.DuplicateIgnoresCaseAndPadding | DevNotes/DevNotes/TagStore.swift:86-93 | A case and whitespace variant of a name gets the same duplicate answer as the name itself. |
| Tags.LinkedNotesCount | DevNotes/DevNotes/TagStore.swift:97-99 | The count is at most the number of notes. It is zero exactly when no note embeds a tag with this tag's id. |
| Tags.ReplaceById | DevNotes/DevNotes/TagStore.swift:75-78 | The tag at the first position with the id is replaced and every other position is kept. The length is unchanged, and nothing changes when the id is absent. |
| Tags.WithoutId | DevNotes/DevNotes/TagStore.swift:80-82 | Every tag with the id is removed. The others keep their order and multiplicity, and nothing changes when the id is absent. |
| Tags.TagStore.constructor | DevNotes/DevNotes/TagStore.swift:8-10 | The store starts with the loaded tags and the list is persisted. |
| Tags.TagStore.Load | DevNotes/DevNotes/TagStore.swift:118-130 | The tags become the loaded list, and assigning them persists them. |
| Tags.TagStore.Save | DevNotes/DevNotes/TagStore.swift:109-116 | The stored data becomes the encoding of the current list. |
| Tags.TagStore.Add | DevNotes/DevNotes/TagStore.swift:71-73 | The tag is appended at the end with no duplicate check, and the new list is persisted. |
| Tags.TagStore.Update | DevNotes/DevNotes/TagStore.swift:75-78 | The first tag with the id is replaced, and the new list is persisted. |
| Tags.TagStore.Delete | DevNotes/DevNotes/TagStore.swift:80-82 | Every tag with the id is removed, and the new list is persisted. |
| Mapper.SnapshotData | DevNotes/DevNotes/NoteMapper.swift:40-44 | The record's tag data is absent exactly when the note has no tag. Otherwise it decodes to the note's tag. |
| Mapper.ToNote | DevNotes/DevNotes/NoteMapper.swift:7-23 | Six fields are copied verbatim. The tag is absent when there is no tag data, and otherwise it is whatever the data decodes to (absent on failure). |
| Mapper.From | DevNotes/DevNotes/NoteMapper.swift:26-47 | Id, title, content, createdAt, isPinned and reminderDate are copied verbatim. The tag data is absent exactly when the note has no tag. |
| Mapper.RoundTrip | DevNotes/DevNotes/NoteMapper.swift:7-47 | Reading back a record built from a note gives the note. |
| Mapper.SnapshotSurvivesTagEdit | DevNotes/DevNotes/NoteMapper.swift:40-41 | The round trip for any tag value: a record reads back as the tag value it was written with, whatever tag with the same id exists later. Only re-saving the note with the edited tag changes it. |
| Repository.FetchOrderIsTotalPreorder | DevNotes/DevNotes/NoteRepository.swift:17-20 | The two sort descriptors form a total preorder. |
| Repository.FetchAll | DevNotes/DevNotes/NoteRepository.swift:14-24 | The notes of all records, as a permutation. Pinned notes come before unpinned ones, and createdAt is non-increasing within each group. |
| Repository.AddedNoteIsFetched | DevNotes/DevNotes/NoteRepository.swift:33-36 | After adding a note, the fetched notes are the old ones plus that note, which is among them. |
| Repository.Overwritten | DevNotes/DevNotes/NoteRepository.swift:46-59 | The overwritten record keeps its id. Its tag data is the snapshot of the note's tag, so it is cleared when the note has no tag. It reads back as the given note under that id. |
| Repository.Updated | DevNotes/DevNotes/NoteRepository.swift:40-62 | Only the first record with the note's id is overwritten. The length and all other records are unchanged, and nothing changes when no record has the id. |
| Repository.Flipped | DevNotes/DevNotes/NoteRepository.swift:72 | Only isPinned changes, and it is negated. |
| Repository.Toggled | DevNotes/DevNotes/NoteRepository.swift:66-74 | Only the first record with the id has its pin flipped, and nothing changes when no record has the id. |
| Repository.TogglePinTwice | DevNotes/DevNotes/NoteRepository.swift:66-74 | Toggling the same note twice restores the records. |
| Repository.Deleted | DevNotes/DevNotes/NoteRepository.swift:78-86 | The first record with the id is removed and the rest keep their order. Nothing changes when no record has the id. |
| Repository.NoteRepository.constructor | DevNotes/DevNotes/NoteRepository.swift:10 | The context starts as the persisted records, and the store and the context agree. |
| Repository.NoteRepository.Fetch | DevNotes/DevNotes/NoteRepository.swift:14-29 | A failing fetch returns the empty sequence. Otherwise the result is the sorted notes of the context. |
| Repository.NoteRepository.Save | DevNotes/DevNotes/NoteRepository.swift:115-123 | Afterwards the store holds exactly the context. It is written only when the context has changes. |
| Repository.NoteRepository.Add | DevNotes/DevNotes/NoteRepository.swift:33-36 | One record is appended, with no id check, and the records are saved. |
| Repository.NoteRepository.Update | DevNotes/DevNotes/NoteRepository.swift:40-62 | The context becomes `Updated` of the old one, and it is saved. |
| Repository.NoteRepository.TogglePin | DevNotes/DevNotes/NoteRepository.swift:66-74 | The context becomes `Toggled` of the old one, and it is saved. |
| Repository.NoteRepository.Delete | DevNotes/DevNotes/NoteRepository.swift:78-86 | The context becomes `Deleted` of the old one, and it is saved. |
| Repository.NoteRepository.DeleteAll | DevNotes/DevNotes/NoteRepository.swift:90-111 | No records remain, and a successful fetch returns the empty sequence. |
| NoteList.SearchFiltered | DevNotes/DevNotes/ContentView.swift:296-301 | An empty search keeps every note. Otherwise a note is kept, as often as it occurs, exactly when its title or content contains the text case-insensitively. |
| NoteList.SearchIgnoresCaseOfText | DevNotes/DevNotes/ContentView.swift:296-301 | The case of the search text does not matter: searching for its lower-cased form keeps the same notes. |
| NoteList.FilteredNotes | DevNotes/DevNotes/ContentView.swift:293-308 | A note is kept exactly when it passes the search and the tag filter, as often as it occurs. The tag filter matches on name, drops untagged notes, and keeps everything when no tag is selected. |
| NoteList.FilteredNotesIsSubseq | DevNotes/DevNotes/ContentView.swift:293-308 | `filteredNotes` is an order-preserving subsequence of `notes`. |
| NoteList.PinnedNotes | DevNotes/DevNotes/ContentView.swift:310-312 | Exactly the pinned notes of `filteredNotes`, in their filtered order. |
| NoteList.UnpinnedNotes | DevNotes/DevNotes/ContentView.swift:314-316 | Exactly the unpinned notes of `filteredNotes`, in their filtered order. |
| NoteList.PinnedUnpinnedPartition | DevNotes/DevNotes/ContentView.swift:310-316 | The two sections together have the occurrences of `filteredNotes`, and no note is in both. |
| NoteList.FilteredKeepsOrder | DevNotes/DevNotes/ContentView.swift:293-308 | Filtering keeps any order the notes were sorted by. |
| NoteList.FilteredKeepsFetchOrder | DevNotes/DevNotes/ContentView.swift:293-316 | On fetched notes the filtered list keeps the fetch order, and each section is newest first. |
| NoteList.ContentView.LoadNotes | DevNotes/DevNotes/ContentView.swift:320-322 | `notes` becomes the repository's fetch. |
| NoteList.ContentView.AddNote | DevNotes/DevNotes/ContentView.swift:324-327 | The repository adds the note, and afterwards `notes` equals its fetch. |
| NoteList.ContentView.UpdateNote | DevNotes/DevNotes/ContentView.swift:329-332 | The repository updates the note, and afterwards `notes` equals its fetch. |
| NoteList.ContentView.TogglePin | DevNotes/DevNotes/ContentView.swift:334-337 | The repository toggles the pin, and afterwards `notes` equals its fetch. |
| NoteList.ContentView.DeleteNoteDirect | DevNotes/DevNotes/ContentView.swift:339-342 | The repository deletes the note, and afterwards `notes` equals its fetch. |
| PinnedList.FilteredPinnedNotes | DevNotes/DevNotes/PinnedNotesView.swift:162-170 | Every kept note is pinned. A pinned note is kept exactly when the search is empty or its title or content contains the text case-insensitively. |
| PinnedList.FilteredPinnedNotesCounts | DevNotes/DevNotes/PinnedNotesView.swift:162-170 | Each kept note appears as often as in `notes`, and the result is an order-preserving subsequence of `notes`. |
| PinnedList.SameAsContentViewPinned | DevNotes/DevNotes/PinnedNotesView.swift:162-170 | With no tag selected, the pinned tab equals ContentView's pinned section for the same search. |
| PinnedList.NewestFirst | DevNotes/DevNotes/PinnedNotesView.swift:162-175 | On fetched notes the pinned tab is newest first. |
| PinnedList.PinnedNotesView.LoadNotes | DevNotes/DevNotes/PinnedNotesView.swift:173-175 | `notes` becomes the repository's fetch. |
| ReminderList.ReminderOrderIsTotalPreorder | DevNotes/DevNotes/RemindersView.swift:197-200 | The comparator on `reminderDate ?? .distantFuture` induces a total preorder. |
| ReminderList.FilteredReminderNotes | DevNotes/DevNotes/RemindersView.swift:189-201 | Every kept note has a reminder. The result is a permutation of the notes that have a reminder and pass the search (an empty search keeps all), sorted ascending by reminder date. |
| ReminderList.RelativeDateText | DevNotes/DevNotes/RemindersView.swift:132-144 | "Bugün" exactly on the current day, even for a past time. Otherwise "Yarın" exactly on the next day. Otherwise "Gecikmiş" exactly when the date is before now, and "Yaklaşan" in all other cases. |
| ReminderList.IsPast | DevNotes/DevNotes/RemindersView.swift:76-77 | A card is past exactly when it has a reminder date before now. |
| ReminderList.LabelAgreesWithIsPast | DevNotes/DevNotes/RemindersView.swift:76-77 | When days never run backwards, a past card is labelled today or overdue. An overdue label means past, on an earlier day, and an upcoming label means two or more days ahead. |
| ReminderList.RemindersView.LoadNotes | DevNotes/DevNotes/RemindersView.swift:204-206 | `notes` becomes the repository's fetch. |
| AddNote.InitialDraft | DevNotes/DevNotes/AddNoteView.swift:11-17 | The form opens empty, with no tag, not pinned and no reminder. |
| AddNote.CanSave | DevNotes/DevNotes/AddNoteView.swift:98-101 | `canSave`: the trimmed title or the trimmed content is non-empty. |
| AddNote.CanSaveUnlessBothBlank | DevNotes/DevNotes/AddNoteView.swift:98-101 | The note can be saved exactly when the title or the content is not all whitespace. |
| AddNote.ChosenReminder | DevNotes/DevNotes/AddNoteView.swift:111 | The reminder is absent exactly when the reminder switch is off. Otherwise it is the picked date. |
| AddNote.NewNote | DevNotes/DevNotes/AddNoteView.swift:103-115 | The note gets the fresh id and createdAt = now. Title and content are stored untrimmed, and the selected tag and the pin flag are carried as they are. |
| AddNote.SaveRule | DevNotes/DevNotes/AddNoteView.swift:98-115 | The form as opened cannot be saved. A saveable form yields a note with visible text. |
| EditNote.EditDraft | DevNotes/DevNotes/EditNoteView.swift:41-48 | The editor is seeded from the note, and the reminder switch is on exactly when the note has a reminder. |
| EditNote.EditedNote | DevNotes/DevNotes/EditNoteView.swift:162-176 | Id and createdAt are kept and title and content are trimmed. Tag and pin come from the form, and the reminder is absent exactly when the switch is off. |
| EditNote.EditedNoteIsTrimmed | DevNotes/DevNotes/EditNoteView.swift:157-167 | The saved title and content are already trimmed, and a saveable form yields a note with visible text. |
| EditNote.SaveWithoutEditsIsIdentity | DevNotes/DevNotes/EditNoteView.swift:41-48 | Saving without edits, or with only whitespace added around the text, gives back the original note when its text was trimmed. |
| AddTag.NewTag | DevNotes/DevNotes/AddTagView.swift:190-202 | The new tag has the fresh id, the trimmed name, and the chosen color and icon. |
| AddTag.CanSave | DevNotes/DevNotes/AddTagView.swift:186-188 | `canSave`: the trimmed name is non-empty; no duplicate check is made. |
| AddTag.NewTagName | DevNotes/DevNotes/AddTagView.swift:186-196 | The form can be saved exactly when the name is not all whitespace. The stored name is trimmed and non-empty, and it normalises like the typed name. The form as opened, with "tag.fill" and "TagBlue", cannot be saved. |
| AddTag.Save | DevNotes/DevNotes/AddTagView.swift:190-202 | Exactly one tag is appended at the end of the store, even when its name duplicates another. |
| EditTag.EditDraft | DevNotes/DevNotes/EditTagView.swift:14-19 | The editor is seeded with the tag's name, icon and color. |
| EditTag.CanSave | DevNotes/DevNotes/EditTagView.swift:130-134 | `canSave`: the trimmed name is non-empty and is not a duplicate when the tag's own id is excluded. |
| EditTag.CanSaveMeans | DevNotes/DevNotes/EditTagView.swift:130-134 | The tag can be saved exactly when the name is not all whitespace and is not a duplicate of another tag's name. |
| EditTag.RenameToOwnVariantAllowed | DevNotes/DevNotes/EditTagView.swift:130-134 | Renaming a tag to any name that normalises like its own (any case or whitespace variant of it) is allowed, when no other tag already has that name. |
| EditTag.EditedTag | DevNotes/DevNotes/EditTagView.swift:137-143 | The saved tag keeps the id and has the trimmed name and the chosen color and icon. |
| EditTag.Save | DevNotes/DevNotes/EditTagView.swift:137-146 | The tag is replaced in place through `update`, so the list length is unchanged. |
| Session.InitialLimit | DevNotes/DevNotes/UserSession.swift:31-32 | A positive stored limit is kept and anything else becomes 3. The limit is always at least one. |
| Session.ClampedLimit | DevNotes/DevNotes/UserSession.swift:62-64 | The new limit is at least one and at least the requested value. It is either that value or 1. |
| Session.ClampedLimitSurvivesRelaunch | DevNotes/DevNotes/UserSession.swift:25-32 | A persisted clamped limit is read back unchanged at the next launch. |
| Session.UserSession.constructor | DevNotes/DevNotes/UserSession.swift:29-33 | The session takes the stored flag and the initial limit. Nothing is written and no event is sent. |
| Session.UserSession.GuardCanCreateNote | DevNotes/DevNotes/UserSession.swift:41-51 | Exactly one callback runs, and it is `onAllowed` exactly when a note may be created. |
| Session.UserSession.SetIsPro | DevNotes/DevNotes/UserSession.swift:10-16 | The flag is set and always persisted. An event is sent only when the value changed, so consecutive events always differ and the last one is the current status. |
| Session.UserSession.SetPro | DevNotes/DevNotes/UserSession.swift:67-69 | Afterwards `isPro` is the given value, with the observer's effects. |
| Session.UserSession.UpdateFreeNoteLimit | DevNotes/DevNotes/UserSession.swift:62-64 | The limit becomes `max(1, v)` and is persisted. Nothing else changes. |
| Session.UserSession.CanCreateNote | DevNotes/DevNotes/UserSession.swift:36-38 | `canCreateNote`: a PRO user, or a count below the free limit. |
| Session.QuotaRule | DevNotes/DevNotes/UserSession.swift:36-38 | A free user may create a note exactly while below the limit, and a PRO user always may. |
| Session.FirstNoteAllowed | DevNotes/DevNotes/UserSession.swift:36-38 | Since the limit is at least one, the first note can always be created. |
| Session.QuotaMonotone | DevNotes/DevNotes/UserSession.swift:36-38 | Having fewer notes never takes the permission away. |
| Appearance.AppTheme.RawValue | DevNotes/DevNotes/SettingsView.swift:5-8 | Each theme's raw value is its Turkish name. |
| Appearance.AppTheme.Icon | DevNotes/DevNotes/SettingsView.swift:12-18 | "gearshape" for the system theme, "sun.max.fill" for light and "moon.fill" for dark. |
| Appearance.AppTheme.Scheme | DevNotes/DevNotes/SettingsView.swift:20-26 | The system theme leaves the colour scheme unset, light forces the light scheme and dark the dark one. |
| Appearance.FromRawValue | DevNotes/DevNotes/SettingsView.swift:5-10 | Parsing yields a theme with exactly that raw value, and it fails exactly when no theme has it. |
| Appearance.RawValueRoundTrip | DevNotes/DevNotes/SettingsView.swift:5-10 | Parsing a theme's raw value gives back the theme. |
| Appearance.AllThemesComplete | DevNotes/DevNotes/SettingsView.swift:5 | `allCases` lists every theme exactly once. |
| Appearance.IdsUnique | DevNotes/DevNotes/SettingsView.swift:10 | The id is the raw value, and distinct themes have distinct ids. |
| Appearance.IconsDistinct | DevNotes/DevNotes/SettingsView.swift:12-18 | Distinct themes have distinct icons. |
| Appearance.SelectedTheme | DevNotes/DevNotes/SettingsView.swift:43-45 | A recognised stored value gives its theme, and an unrecognised one falls back to the system theme. |
| Appearance.SelectThenRead | DevNotes/DevNotes/SettingsView.swift:55-59 | Choosing a theme in the picker and reading the setting back gives the chosen theme. |
| Appearance.AppColorScheme | DevNotes/DevNotes/DevNotesApp.swift:12-21 | The app forces light or dark exactly for the light or dark theme, and forces nothing otherwise. |
| Appearance.AppAgreesWithSettings | DevNotes/DevNotes/DevNotesApp.swift:12-21 | The app's colour scheme is the scheme of the theme the settings screen shows. |

## Left out

- Every SwiftUI `body` is left out: layout, navigation, sheets, alerts and toolbars. So
  are the rich-text container and its coordinator in the add-note screen. They are
  presentation only.
- The CoreData store and the user defaults are left out. Records are values in
  sequences, and managed-object identity and faulting are not modelled.
- CoreData's id lookup (`fetch(request).first`) is not modelled. The model takes the
  first record with the id in the order of the sequence.
- Tag serialisation uses a length-prefixed integer codec, not JSON. The JSON text
  format is out of scope. The codec covers only what the app relies on: the round
  trip, and the failure of decoding on malformed data.
- The model assumes every save succeeds. The app only logs the errors of `TagStore.save`,
  `NoteRepository.save` and `deleteAll` and keeps the in-memory state. A failing
  `JSONEncoder` that would leave a note's tag data empty is not modelled.
- The error paths that are modelled:
  - the failing fetch of `fetch()`, as the parameter `fetchFails`;
  - the `try?` decode of a record's tag data, which gives no tag (`Mapper.ToNote`);
  - the decode failure of the stored tag list, which falls back to the defaults
    (`Tags.LoadedTags`);
  - the rejection of malformed data by the codec (`TagCodec.DecodeChars`).
- Repository.NoteRepository.Update, TogglePin and Delete: a failing
  `try? context.fetch(request).first` lookup (NoteRepository.swift:44, 70, 82) turns the
  call into a no-op in the app. It is not modelled: the lookup always succeeds, and the
  call is a no-op only when no record has the id.
- Repository.FetchAll: the order among notes with equal sort keys is left open. The
  model fixes one order, produced by an insertion sort. CoreData and Swift's `sorted`
  are not stable, so the model states only the sort order and the permutation.
- ReminderList.FilteredReminderNotes: like `FetchAll`, it says nothing about the order
  of notes with equal reminder dates.
- Times are integers, not `Date` doubles.
- The calendar's "today" and "tomorrow" go through a parameter `dayOf`, not
  `Calendar.current` and a time zone.
- ReminderList.IsPast: the card reads the clock twice. For a note without a reminder it
  computes `Date() < Date()`, which is practically always true, while
  `IsPast(None, now)` is false. The difference never shows, because only notes with a
  reminder reach `reminderCard`.
- Tags.IsNameDuplicate: names compare by code point. Swift's `==` compares strings by
  Unicode canonical equivalence, so canonically equivalent names are duplicates in the
  app but not in the model, e.g. a precomposed "é" (U+00E9) and "e" followed by U+0301.
  The tag-name filter (`NoteList.HasTagNamed`) and the theme parse
  (`Appearance.FromRawValue`) share this gap.
- Text.Lower: case-insensitive matching folds only the ASCII letters A–Z. The app's
  locale-aware Unicode case folding is out of reach.
- The empty needle: the search predicate holds for it, while
  `localizedCaseInsensitiveContains("")` is false. The difference never shows, because
  every screen handles an empty search before searching.
- Tags.LinkedNotesCount: this takes the notes as a parameter. In the app it reads
  `NoteStore.shared.notes`, which is never populated, so the app's count is always 0.
  NoteStore.swift is not part of this model.
- Tags.LinkedNotesCount: the ensures state the count's bound and when it is zero, not
  the exact count.
- NotificationManager.swift is not part of this model. It is a private wrapper over the
  notification center that is never called.
- NoteStorage.swift is not part of this model. It is an unused wrapper over the user
  defaults.
- Combine publishers are left out: the PRO event stream is a sequence of the values
  sent.
- Also left out: haptics, the paywall notification, and version strings.
