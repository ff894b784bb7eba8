# Lofi radio desktop: a Dafny model of its playback and mood logic

The desktop app plays internet radio by "mood". Each mood is a stored record:
title, subtitle, energy level, tags, icon, colour accent and position. A
mood's id picks a list of audio sources from a catalogue, and a playback
engine drives one audio element through a small state machine. Fades use a
generation token, so a newer fade or a stop cancels an older one.
Embedded SoundCloud tracks go through a widget controller. Moods and
settings are normalised before they are stored.

The model covers:

- **Playback engine** (`audio_engine.dfy`). A class with the engine's own
  fields: the state record, the audio element as a record (`src`,
  `currentTime`, `volume`, `paused`), the target volume, the fade token and
  the subscribed listeners. Each operation is proved equal to a pure
  function of the old snapshot, and the promised behaviour is proved about
  those functions. The engine also logs every state push to its listeners,
  and its invariant says each listener's last push is the current state.
- **Widget controller** (`widget_controller.dfy`). A class with the three
  listener registries, the widget, iframe and build-once flag, a log of
  commands sent to the widget, and a log of listener calls. `loadTrack`'s
  race between the load callback, a widget error and the 15 s timeout is a
  loop over the events in the order they arrive.
- **Source catalogues** (`catalog.dfy`, `mock_provider.dfy`): the station
  table, mood-key resolution, station ids, `slugify` and the placeholder
  provider.
- **Normalisation** (`validation.dfy`, over the string helpers in
  `strings.dfy`): clamping, tag cleaning and de-duplication, accent and icon
  checks, and the draft, patch, mood and settings normalisers.
- **Storage** (`mood_repository.dfy`, `settings_repository.dfy`,
  `default_moods.dfy`). Each repository is a class whose stored data is a
  field; `reorder`'s loops are a method over a map.
- **UI logic** (`moods_screen.dfy`, `mood_form.dfy`, `app.dfy`):
  - drag-and-drop `moveItem` and `handleDrop`, and the search filter;
  - tag-text parsing, submit and reset, and the accent guard of the mood form;
  - next/previous mood, the initial mood at start-up, and the App handlers
    as a log of engine calls.

JavaScript values are modelled explicitly:

- A number is `JsNumber`: NaN, ±Infinity or a finite `real`.
- A key that may be present but `undefined` is `Option<Option<T>>`.
- An object spread is a field-wise `Over`.
- A string is a sequence of characters; upper case means ASCII `A`–`Z`.

## Model

| member | source | states |
|---|---|---|
| `Types.Over` | electron/storage/settings-repository.ts:30 | a spread key that is present replaces the base value, an absent key keeps it |
| `Types.Ids` | electron/storage/mood-repository.ts:104 | the id list has one entry per mood, in list order |
| `Types.SourceIds` | renderer/src/services/source-provider/internet-radio-catalog.ts:62-67 | the id list has one entry per source, in list order |
| `Strings.TrimStart` | shared/utils/validation.ts:21 | the result is a suffix of the input that does not start with white space, and everything it drops is white space |
| `Strings.TrimEnd` | shared/utils/validation.ts:21 | the result is a prefix of the input that does not end with white space, and everything it drops is white space |
| `Strings.Trim` | shared/utils/validation.ts:21 | `trim()` yields an infix of the input, trimmed at both ends, with only white space cut away before and after it |
| `Strings.TrimOfTrimmed` | shared/utils/validation.ts:21 | trimming an already trimmed string changes nothing |
| `Strings.TrimIdempotent` | shared/utils/validation.ts:21 | trimming twice is trimming once |
| `Strings.TrimKeepsSpaceFree` | shared/utils/validation.ts:21 | a string without white space trims to itself |
| `Strings.ToLower` | shared/utils/validation.ts:23 | `toLowerCase()` keeps the length and lowers each character on its own |
| `Strings.ToLowerFacts` | shared/utils/validation.ts:23 | the result is lower case, lower-case input is unchanged, trimmedness is kept, and only the empty string maps to empty |
| `Strings.ToLowerIdempotent` | shared/utils/validation.ts:23 | lowering twice is lowering once |
| `Strings.ToLowerAppend` | shared/utils/validation.ts:23 | lowering distributes over concatenation |
| `Strings.ToLowerKeepsWhitespace` | shared/utils/validation.ts:23 | lowering a character neither creates nor removes white space |
| `Strings.TrimStartToLower` | renderer/src/features/moods/MoodsScreen.tsx:53 | trimming the start commutes with lowering |
| `Strings.TrimEndToLower` | renderer/src/features/moods/MoodsScreen.tsx:53 | trimming the end commutes with lowering |
| `Strings.TrimToLower` | renderer/src/features/moods/MoodsScreen.tsx:53 | `trim().toLowerCase()` equals `toLowerCase().trim()` |
| `Strings.Split` | shared/utils/validation.ts:19 | `split(sep)` yields at least one piece and no piece holds the separator |
| `Strings.SplitNoSeparator` | shared/utils/validation.ts:19 | a string without the separator splits into itself alone |
| `Strings.SplitAtSeparator` | shared/utils/validation.ts:19 | a separator after a separator-free prefix cuts the prefix off as the first piece |
| `Strings.SplitJoin` | renderer/src/features/moods/MoodForm.tsx:29 | splitting pieces joined with separator-plus-padding gives the first piece, then each later piece behind the padding |
| `Strings.Join` | renderer/src/features/moods/MoodForm.tsx:29 | the joined text is empty for no pieces and starts with the first piece, followed by the separator when there are more |
| `Strings.SplitPrefix` | shared/utils/validation.ts:19 | a separator-free prefix sticks to the first piece of the split |
| `Strings.ContainsInfix` | renderer/src/features/moods/MoodsScreen.tsx:59 | a string that occurs at some position is contained (`includes`) |
| `Strings.InfixOfContains` | renderer/src/features/moods/MoodsScreen.tsx:59 | conversely, a contained string occurs at some position |
| `Strings.NatToString` | renderer/src/services/source-provider/internet-radio-catalog.ts:63 | the decimal form of a number is a non-empty digit string, with at least two digits from 10 up |
| `Strings.NatToStringInjective` | renderer/src/services/source-provider/internet-radio-catalog.ts:63 | different numbers have different decimal forms |
| `Validation.Clamp01` | shared/utils/validation.ts:5-16 | NaN and negatives give 0, values above 1 give 1, values in [0,1] are kept; always in [0,1] |
| `Validation.CleanTag` | shared/utils/validation.ts:20-23 | a kept tag is non-empty, trimmed and lower case |
| `Validation.FilterMap` | shared/utils/validation.ts:20-23 | the map-then-filter pipeline never yields more entries than it was given |
| `Validation.FilterMapOnlyFrom` | shared/utils/validation.ts:20-23 | every kept value is the mapped value of some entry |
| `Validation.FilterMapKeeps` | shared/utils/validation.ts:20-23 | every entry whose mapped value is present has that value kept |
| `Validation.CleanTags` | shared/utils/validation.ts:20-23 | the trim/filter/lower pipeline keeps only clean tags and never grows the list |
| `Validation.CleanTagsMembers` | shared/utils/validation.ts:20-23 | a tag is in the output exactly when some input entry trims and lowers to it |
| `Validation.Dedup` | shared/utils/validation.ts:25 | `Array.from(new Set(...))` is duplicate-free, has the same members and is no longer |
| `Validation.DedupOfDistinct` | shared/utils/validation.ts:25 | a duplicate-free list is unchanged |
| `Validation.FirstIndex` | shared/utils/validation.ts:25 | the position of the first occurrence of a member |
| `Validation.FilterMapAppend` | shared/utils/validation.ts:20-23 | mapping and filtering a concatenation gives the two parts' results one after the other |
| `Validation.FirstSource` | shared/utils/validation.ts:20-23 | the first entry whose mapped value is the given kept value |
| `Validation.FilterMapFirstOrder` | shared/utils/validation.ts:20-23 | one kept value first occurs before another exactly when its first source entry comes first |
| `Validation.DedupFirstOccurrenceOrder` | shared/utils/validation.ts:25 | de-duplicated elements appear in the order of their first occurrence |
| `Validation.NormalizeTags` | shared/utils/validation.ts:18-26 | the tags are clean (non-empty, trimmed, lower case) and pairwise distinct |
| `Validation.NormalizeTagsOrder` | shared/utils/validation.ts:18-26 | the normalised tags keep raw order: of two tags the earlier is the one whose first raw entry that cleans to it comes first |
| `Validation.NormalizeTagsMembers` | shared/utils/validation.ts:18-26 | a tag is kept exactly when some raw entry, array element or comma piece, cleans to it |
| `Validation.CleanTagOfClean` | shared/utils/validation.ts:20-23 | a clean tag cleans to itself |
| `Validation.CleanTagsOfClean` | shared/utils/validation.ts:20-23 | a list of clean tags passes the pipeline unchanged |
| `Validation.NormalizeTagsIdempotent` | shared/utils/validation.ts:18-26 | normalising normalised tags changes nothing |
| `Validation.NormalizeAccent` | shared/utils/validation.ts:28-36 | the accent is kept exactly when it is in the accent list, otherwise undefined |
| `Validation.NormalizeIcon` | shared/utils/validation.ts:38-54 | absent, blank and all-`?` icons become undefined, any other icon is trimmed |
| `Validation.NormalizeIconOfClean` | shared/utils/validation.ts:38-54 | a clean icon is kept as it is |
| `Validation.NormalizeTitle` | shared/utils/validation.ts:58 | the trimmed title, or "Untitled" when that is blank |
| `Validation.NormalizeTitleOfClean` | shared/utils/validation.ts:58 | a non-empty trimmed title is kept |
| `Validation.NormalizeMoodDraft` | shared/utils/validation.ts:56-65 | each draft field normalised: title, trimmed subtitle, clamped energy, tags, icon, accent |
| `Validation.NormalizeMoodPatch` | shared/utils/validation.ts:67-95 | exactly the keys present in the patch are present in the result, each normalised; `order` passes through |
| `Validation.NormalizeMood` | shared/utils/validation.ts:97-108 | keeps the id, sets `order` to the argument, normalises every other field; the result is a normal mood |
| `Validation.NormalizeMoodOfNormal` | shared/utils/validation.ts:97-108 | a normal mood only gets its new `order` |
| `Validation.NormalizeMoodIdempotent` | shared/utils/validation.ts:97-108 | normalising a normalised mood with the same order changes nothing |
| `Validation.NormalizeSettings` | shared/utils/validation.ts:110-119 | volume clamped (0.6 when absent); remember on, other flags off; `lastMoodId` kept |
| `Validation.NormalizeSettingsIdempotent` | shared/utils/validation.ts:110-119 | normalising normalised settings changes nothing |
| `RadioCatalog.StationsFor` | renderer/src/services/source-provider/internet-radio-catalog.ts:5-45 | every mood key has at least one station |
| `RadioCatalog.KeyOf` | renderer/src/services/source-provider/internet-radio-catalog.ts:51 | a string is a catalogue key exactly when some key has that name |
| `RadioCatalog.ResolveMoodKey` | renderer/src/services/source-provider/internet-radio-catalog.ts:49-55 | the key named by the trimmed lower-cased id, or `focus` when no key has that name |
| `RadioCatalog.ResolveKeyName` | renderer/src/services/source-provider/internet-radio-catalog.ts:49-55 | each key's own name resolves to that key |
| `RadioCatalog.ResolveMoodKeyNormalForm` | renderer/src/services/source-provider/internet-radio-catalog.ts:50 | surrounding white space and letter case do not change the key |
| `RadioCatalog.ResolveMoodKeyIgnoresCase` | renderer/src/services/source-provider/internet-radio-catalog.ts:50 | lower-casing the id first does not change the key |
| `RadioCatalog.GetStationsForMood` | renderer/src/services/source-provider/internet-radio-catalog.ts:57-68 | one source per station of the resolved key, in table order, with id `key-station-(i+1)`, the key's kind, and the station's label and uri; never empty |
| `RadioCatalog.StationIdsDistinct` | renderer/src/services/source-provider/internet-radio-catalog.ts:62-63 | the ids in one list are pairwise distinct |
| `RadioCatalog.StationIdInjective` | renderer/src/services/source-provider/internet-radio-catalog.ts:63 | two positions with the same station id are the same position |
| `RadioCatalog.StationId` | renderer/src/services/source-provider/internet-radio-catalog.ts:63 | the id is the key's name and `-station-` followed by the decimal position counted from 1 |
| `RadioCatalog.KindIsEmbedIffFocus` | renderer/src/services/source-provider/internet-radio-catalog.ts:60 | a source is `embed` exactly when the key is `focus`, and never `local` |
| `RadioCatalog.GetMoodOrder` | renderer/src/services/source-provider/internet-radio-catalog.ts:70-72 | four distinct key names, every key listed, each naming a key |
| `MockProvider.Collapse` | renderer/src/services/source-provider/mock-source-provider.ts:3 | `replace(/[^a-z0-9]+/g, "-")` leaves no two dashes in a row, is empty only for empty input, and starts with a dash exactly when the input starts with a non-slug character |
| `MockProvider.StripDashes` | renderer/src/services/source-provider/mock-source-provider.ts:3 | dropping a leading and a trailing dash from a collapsed string yields a slug |
| `MockProvider.Slugify` | renderer/src/services/source-provider/mock-source-provider.ts:3 | the result holds only `[a-z0-9-]`, has no leading or trailing dash and no `--` |
| `MockProvider.SlugChars` | renderer/src/services/source-provider/mock-source-provider.ts:3 | the letters and digits of a string, in order |
| `MockProvider.SlugCharsCollapse` | renderer/src/services/source-provider/mock-source-provider.ts:3 | collapsing keeps every letter and digit in order |
| `MockProvider.StripDashesKeepsSlugChars` | renderer/src/services/source-provider/mock-source-provider.ts:3 | stripping the end dashes keeps every letter and digit |
| `MockProvider.SlugifyKeepsAlphanumerics` | renderer/src/services/source-provider/mock-source-provider.ts:3 | the slug holds exactly the letters and digits of the lower-cased input, in order |
| `MockProvider.CollapseOfCollapsed` | renderer/src/services/source-provider/mock-source-provider.ts:3 | a string without non-slug characters other than single dashes collapses to itself |
| `MockProvider.SlugIsLowerCase` | renderer/src/services/source-provider/mock-source-provider.ts:3 | a slug is already lower case |
| `MockProvider.SlugifyOfSlug` | renderer/src/services/source-provider/mock-source-provider.ts:3 | a slug slugifies to itself |
| `MockProvider.SlugifyIdempotent` | renderer/src/services/source-provider/mock-source-provider.ts:3 | `slugify(slugify(x)) == slugify(x)` |
| `MockProvider.Placeholder` | renderer/src/services/source-provider/mock-source-provider.ts:10-27 | placeholder `n` is a `stream` source with id `${slug}-stream-n`, label `Placeholder stream #n` and uri `https://example.com/stream/${slug}-n` |
| `MockProvider.ListSourcesForMood` | renderer/src/services/source-provider/mock-source-provider.ts:6-43 | the last three sources are placeholders 1, 2 and 3 of the mood's slug; DEV puts the local test file in front, making four |
| `MockProvider.ThreePlaceholderStreams` | renderer/src/services/source-provider/mock-source-provider.ts:9-28 | outside DEV the ids are `${slug}-stream-1` to `-3` in order, with the matching uris, all `stream` |
| `MockProvider.DevAddsOneLocalSource` | renderer/src/services/source-provider/mock-source-provider.ts:30-40 | DEV puts one `local` source with uri `/audio/dev-test.mp3` before the unchanged placeholders, which are all `stream` |
| `MockProvider.SourceIdsStartWithSlug` | renderer/src/services/source-provider/mock-source-provider.ts:11-33 | every id starts with the mood's slug |
| `MockProvider.SourceIdsDistinct` | renderer/src/services/source-provider/mock-source-provider.ts:11-33 | the ids of one list are pairwise distinct, with or without DEV |
| `DefaultMoods.CreateDefaultMoods` | electron/storage/default-moods.ts:52-63 | four moods, the seeds in order, each with `order` equal to its index |
| `DefaultMoods.DefaultIdsAreCatalogOrder` | electron/storage/default-moods.ts:13-50 | the ids are jazz, energy, paradise, focus: the catalogue's mood order |
| `DefaultMoods.DefaultMoodsResolveToOwnKey` | electron/storage/default-moods.ts:13-50 | every default id resolves to the catalogue key of that name, so none falls back to `focus` |
| `DefaultMoods.DefaultIdsDistinct` | electron/storage/default-moods.ts:13-50 | default ids are pairwise distinct |
| `DefaultMoods.SeedFieldsNormal` | electron/storage/default-moods.ts:52-63 | a seed that passes the field checks becomes a normal mood |
| `DefaultMoods.SeedChecksHold` | electron/storage/default-moods.ts:13-50 | every seed passes the field checks: clean title, subtitle, energy, tags, icon and accent |
| `DefaultMoods.SeedIsNormal` | electron/storage/default-moods.ts:13-63 | every default mood is normal |
| `DefaultMoods.DefaultMoodsAreNormal` | electron/storage/default-moods.ts:13-63 | every default mood is a fixed point of `normalizeMood(m, index)` |
| `MoodRepository.InsertByOrder` | electron/storage/mood-repository.ts:44 | one insertion step of the stable sort: the list with the mood added |
| `MoodRepository.InsertKeepsSorted` | electron/storage/mood-repository.ts:44 | inserting into a list sorted by `order` keeps it sorted |
| `MoodRepository.SortByOrder` | electron/storage/mood-repository.ts:44 | `sort((a, b) => a.order - b.order)` yields a sorted permutation |
| `MoodRepository.SortOfSorted` | electron/storage/mood-repository.ts:44 | a list already sorted by `order` is unchanged, so the sort is stable on it |
| `MoodRepository.SortKeepsIds` | electron/storage/mood-repository.ts:44 | sorting keeps the multiset of ids |
| `MoodRepository.Renumber` | electron/storage/mood-repository.ts:45 | each mood normalised in place with its index as `order`: a normal list with the same ids in the same order |
| `MoodRepository.Normalized` | electron/storage/mood-repository.ts:42-49 | what `write` stores: the moods sorted by their prior `order`, then each normalised with its index as `order`; a normal list with the same ids as the sorted input |
| `MoodRepository.Reindexed` | electron/storage/mood-repository.ts:45 | the same moods with `order` set to their index |
| `MoodRepository.NormalListIsSorted` | electron/storage/mood-repository.ts:42-57 | a normal list is sorted by `order` |
| `MoodRepository.NormalizedOfSortedNormal` | electron/storage/mood-repository.ts:42-49 | for sorted normal moods, `write` only renumbers |
| `MoodRepository.ReindexedOfNormalList` | electron/storage/mood-repository.ts:45 | a normal list is already numbered by index |
| `MoodRepository.NormalizedOfNormalList` | electron/storage/mood-repository.ts:42-57 | writing or listing a normal list changes nothing |
| `MoodRepository.NormalizedIdempotent` | electron/storage/mood-repository.ts:42-57 | `list` after `write` returns what `write` returned |
| `MoodRepository.NewMood` | electron/storage/mood-repository.ts:60-72 | the created mood is normal and has the fresh id and the given order |
| `MoodRepository.ApplyPatch` | electron/storage/mood-repository.ts:87-90 | the spread keeps the id; each of title, subtitle, energy, tags, icon, accent and order is the patch's value when the key is present and the mood's otherwise; an empty patch changes nothing |
| `MoodRepository.FindById` | electron/storage/mood-repository.ts:80 | `findIndex`: the first position with that id, or none when no mood has it |
| `MoodRepository.RemoveId` | electron/storage/mood-repository.ts:98 | exactly the moods with a different id are kept |
| `MoodRepository.RemoveIdKeepsSorted` | electron/storage/mood-repository.ts:98 | filtering keeps the list sorted, so the rest keep their relative order through `write` |
| `MoodRepository.RemoveIdCount` | electron/storage/mood-repository.ts:98 | every occurrence of the id goes and every other id stays as often |
| `MoodRepository.AppendKeepsNormal` | electron/storage/mood-repository.ts:63-74 | appending a normal mood numbered `length` keeps the list normal, and `write` stores it unchanged |
| `MoodRepository.UpdateKeepsNormal` | electron/storage/mood-repository.ts:86-94 | replacing one mood by its normalised patch, with its old order, keeps the list normal and `write` stores it unchanged |
| `MoodRepository.ById` | electron/storage/mood-repository.ts:104 | the map's keys are the ids, and each entry is a mood of the list with that id |
| `MoodRepository.ByIdOfDistinct` | electron/storage/mood-repository.ts:104 | with distinct ids the map sends each id to its own mood |
| `MoodRepository.KeyOrder` | electron/storage/mood-repository.ts:116 | the map's key order: each id once |
| `MoodRepository.KeepKnown` | electron/storage/mood-repository.ts:108-110 | the requested ids that are known, in request order |
| `MoodRepository.PickedIds` | electron/storage/mood-repository.ts:108-114 | the ids the first loop moves: requested and known, each once |
| `MoodRepository.Without` | electron/storage/mood-repository.ts:112 | the ids that were not deleted, in order |
| `MoodRepository.WithoutNothing` | electron/storage/mood-repository.ts:112 | deleting nothing keeps the list |
| `MoodRepository.WithoutTwice` | electron/storage/mood-repository.ts:112 | two rounds of deletes equal one delete of both sets |
| `MoodRepository.WithoutKeepsDistinct` | electron/storage/mood-repository.ts:112 | deleting keeps the ids distinct |
| `MoodRepository.ReorderedIds` | electron/storage/mood-repository.ts:106-118 | every id the loops push is a key of the map |
| `MoodRepository.CollectOrder` | electron/storage/mood-repository.ts:106-118 | the two loops only push known or remaining ids |
| `MoodRepository.CollectReordered` | electron/storage/mood-repository.ts:106-118 | the two loops (pick and delete, then the rest of the map) push the moods of the picked ids followed by the remaining keys |
| `MoodRepository.Lookup` | electron/storage/mood-repository.ts:109 | `byId.get` of each id, in order |
| `MoodRepository.LookupIds` | electron/storage/mood-repository.ts:109-117 | looked-up moods carry the ids asked for |
| `MoodRepository.ReorderedIdsPermutation` | electron/storage/mood-repository.ts:102-121 | with distinct ids, the reordered ids are a permutation of the store's ids |
| `MoodRepository.ReorderResult` | electron/storage/mood-repository.ts:102-121 | the corrected reorder's list holds the moods in the reordered id order, each numbered by its new position |
| `MoodRepository.ReorderAsWritten` | electron/storage/mood-repository.ts:102-121 | the reorder as written hands the collected moods to `write`, which sorts them by their old `order`: a normal list in sorted order |
| `MoodRepository.ReorderPutsRequestedFirst` | electron/storage/mood-repository.ts:108-114 | the requested known ids come first, in request order, duplicates and unknown ids dropped |
| `MoodRepository.ReorderKeepsRestInOrder` | electron/storage/mood-repository.ts:116-118 | the unrequested moods follow in their prior order |
| `MoodRepository.ReorderWriteKeeps` | electron/storage/mood-repository.ts:120 | once renumbered by position, the reordered list passes `write` unchanged |
| `MoodRepository.SwapReorderedIds` | electron/storage/mood-repository.ts:102-118 | requesting two moods swapped yields the swapped id order |
| `MoodRepository.ReorderAsWrittenChangesNothing` | electron/storage/mood-repository.ts:102-121 | as written, any reorder request on a normalised list with distinct ids returns that list unchanged |
| `MoodRepository.ReorderAsWrittenIgnoresSwap` | electron/storage/mood-repository.ts:102-121 | as written, a swap request on two moods returns them in their old order; the corrected reorder returns them swapped |
| `MoodRepository.CorrectedSwap` | electron/storage/mood-repository.ts:102-121 | the corrected reorder returns a swapped pair swapped, renumbered 0 and 1 |
| `MoodRepository.ImportEntry` | electron/storage/mood-repository.ts:141-164 | a valid entry becomes a normal mood with its id and `order == index` |
| `MoodRepository.ImportMoods` | electron/storage/mood-repository.ts:130-171 | each of the four error messages exactly when its condition holds (first failing check wins); on success one normal mood per entry, in order |
| `MoodRepository.ImportOfExport` | electron/storage/mood-repository.ts:123-171 | importing an exported payload of a normal, non-empty list with non-empty ids gives the list back |
| `MoodRepository.ImportEntryOfExport` | electron/storage/mood-repository.ts:141-164 | an exported normal mood imports back to itself |
| `MoodRepository.MoodRepository.constructor` | electron/storage/mood-repository.ts:18-30 | construction installs the defaults when the flag is off or the list empty, else keeps the stored list |
| `MoodRepository.MoodRepository.EnsureDefaults` | electron/storage/mood-repository.ts:32-40 | installs the seed moods and sets the flag when the flag is off or the list empty, otherwise changes nothing |
| `MoodRepository.MoodRepository.List` | electron/storage/mood-repository.ts:51-57 | a normal list (sorted, `order == index`) with the stored ids |
| `MoodRepository.MoodRepository.Write` | electron/storage/mood-repository.ts:42-49 | stores and returns the sorted, renumbered, normalised list |
| `MoodRepository.MoodRepository.Create` | electron/storage/mood-repository.ts:59-75 | the list grows by exactly the new mood, appended at the end with the fresh id |
| `MoodRepository.MoodRepository.Update` | electron/storage/mood-repository.ts:77-95 | an unknown id returns the list and writes nothing; a known id replaces that mood in place with its patched, normalised self, keeping id and position |
| `MoodRepository.MoodRepository.Delete` | electron/storage/mood-repository.ts:97-100 | removes exactly the moods with that id and renumbers the rest in order |
| `MoodRepository.MoodRepository.Reorder` | electron/storage/mood-repository.ts:102-121 | stores the corrected reorder: requested moods first, the rest after, renumbered by position |
| `MoodRepository.MoodRepository.ToExportPayload` | electron/storage/mood-repository.ts:123-128 | schema version 1 and the listed moods |
| `MoodRepository.MoodRepository.ImportPayload` | electron/storage/mood-repository.ts:130-171 | returns the import's result; stores the moods only on success |
| `SettingsRepository.SetResult` | electron/storage/settings-repository.ts:29-33 | whatever the patch, remember is on, the other flags off, and the volume in [0,1] |
| `SettingsRepository.DefaultSettingsNormal` | electron/storage/settings-repository.ts:5-11 | the defaults (volume 0.6, no last mood) are already normal, so `get` on a fresh store returns them |
| `SettingsRepository.Merge` | electron/storage/settings-repository.ts:30 | `{ ...current, ...partial }`: every key present in the patch wins, every absent key keeps the current value |
| `SettingsRepository.SetVolume` | electron/storage/settings-repository.ts:30 | an absent volume key keeps the volume, an undefined one resets it to 0.6, a number is clamped |
| `SettingsRepository.SetLastMood` | electron/storage/settings-repository.ts:30 | `lastMoodId` comes from the patch when the key is present, else the previous value is kept |
| `SettingsRepository.FlagsOnlyPatchChangesNothing` | electron/storage/settings-repository.ts:30 | a patch of flags only leaves normalised settings as they were |
| `SettingsRepository.SetIdempotent` | electron/storage/settings-repository.ts:29-33 | setting the same patch twice is setting it once |
| `SettingsRepository.SettingsRepository.constructor` | electron/storage/settings-repository.ts:16-23 | the store starts with the defaults, and `get` returns them |
| `SettingsRepository.SettingsRepository.Get` | electron/storage/settings-repository.ts:25-27 | the stored settings normalised: flags fixed, volume in [0,1] (0.6 when missing), `lastMoodId` as stored |
| `SettingsRepository.SettingsRepository.Set` | electron/storage/settings-repository.ts:29-34 | stores and returns the patch merged over `get()` and normalised; `get` afterwards returns the same record |
| `MoodsScreen.ToDraft` | renderer/src/features/moods/MoodsScreen.tsx:15-22 | the draft carries the mood's six editable fields |
| `MoodsScreen.DraftPatch` | renderer/src/features/moods/MoodsScreen.tsx:169 | the patch sent on edit has every draft key and no `order` |
| `MoodsScreen.SaveUntouchedEditKeepsMood` | renderer/src/features/moods/MoodsScreen.tsx:164-169 | opening the edit form on a stored mood and saving it untouched stores the same mood, provided no tag holds a comma |
| `MoodsScreen.RemoveAt` | renderer/src/features/moods/MoodsScreen.tsx:33 | `splice(i, 1)` removes one element and nothing else |
| `MoodsScreen.Move` | renderer/src/features/moods/MoodsScreen.tsx:33-34 | the two splices keep the length and the multiset of elements |
| `MoodsScreen.MoveIds` | renderer/src/features/moods/MoodsScreen.tsx:33-34 | moving moods moves their ids the same way |
| `MoodsScreen.MoveItem` | renderer/src/features/moods/MoodsScreen.tsx:24-37 | same length; the very same list when an id is missing or both ids sit at one index |
| `MoodsScreen.MoveItemPlacesItem` | renderer/src/features/moods/MoodsScreen.tsx:33-34 | the moved mood ends up at the target's former index |
| `MoodsScreen.MoveItemKeepsOthersInOrder` | renderer/src/features/moods/MoodsScreen.tsx:33-34 | every other mood keeps its relative order |
| `MoodsScreen.MoveItemPermutation` | renderer/src/features/moods/MoodsScreen.tsx:24-37 | the result is a permutation of the list |
| `MoodsScreen.MoveItemChangesIffMoves` | renderer/src/features/moods/MoodsScreen.tsx:29-36 | the list changes exactly when both ids are present at different indexes |
| `MoodsScreen.HandleDrop` | renderer/src/features/moods/MoodsScreen.tsx:65-76 | nothing without a dragged id; otherwise the drag ends, and the new id order is sent exactly when `moveItem` changed the list |
| `MoodsScreen.DropRequestIsPermutation` | renderer/src/features/moods/MoodsScreen.tsx:70-74 | a requested id order is a permutation of the shown ids |
| `MoodsScreen.FilterMatching` | renderer/src/features/moods/MoodsScreen.tsx:58-62 | `filter` keeps at most the moods it is given |
| `MoodsScreen.FilterMatchingMembers` | renderer/src/features/moods/MoodsScreen.tsx:58-62 | a mood is kept exactly when its lower-cased title or one lower-cased tag contains the query |
| `MoodsScreen.MatchesEmpty` | renderer/src/features/moods/MoodsScreen.tsx:58-62 | every mood matches the empty query |
| `MoodsScreen.MatchesByTitleOrTag` | renderer/src/features/moods/MoodsScreen.tsx:58-62 | a query contained in the lower-cased title or in any lower-cased tag matches |
| `MoodsScreen.FilterMatchingEmpty` | renderer/src/features/moods/MoodsScreen.tsx:52-62 | filtering on the empty query keeps every mood, so the blank-query early return agrees with the filter |
| `MoodsScreen.FilterMatchingAppend` | renderer/src/features/moods/MoodsScreen.tsx:58-62 | filtering distributes over concatenation, so the kept moods stay in list order |
| `MoodsScreen.FilterMoods` | renderer/src/features/moods/MoodsScreen.tsx:52-63 | a blank query (after trim) shows the whole list unchanged |
| `MoodsScreen.FilterMoodsMembers` | renderer/src/features/moods/MoodsScreen.tsx:52-63 | a non-blank query shows exactly the moods whose title or a tag contains the trimmed lower-cased query |
| `MoodsScreen.FilterMoodsIgnoresCase` | renderer/src/features/moods/MoodsScreen.tsx:53 | the letter case of the query does not matter |
| `MoodForm.OrEmpty` | renderer/src/features/moods/MoodForm.tsx:30-31 | `value ?? ""`: the value when present, else the empty string |
| `MoodForm.NonEmpty` | renderer/src/features/moods/MoodForm.tsx:46-47 | an empty field is submitted as undefined, any other as itself |
| `MoodForm.TrimmedPiece` | renderer/src/features/moods/MoodForm.tsx:38-39 | a piece is dropped exactly when it trims to nothing, and kept as its trimmed text otherwise |
| `MoodForm.TrimmedParts` | renderer/src/features/moods/MoodForm.tsx:38-39 | every kept piece is non-empty and trimmed |
| `MoodForm.TrimmedPartsMembers` | renderer/src/features/moods/MoodForm.tsx:38-39 | a string is kept exactly when some piece trims to it and is not blank |
| `MoodForm.TrimmedPartsAppend` | renderer/src/features/moods/MoodForm.tsx:38-39 | the pieces of a concatenation come out as the first part's kept pieces followed by the second's, so order is kept |
| `MoodForm.TrimmedPartsOne` | renderer/src/features/moods/MoodForm.tsx:38-39 | a single piece gives its trimmed text, or nothing when blank |
| `MoodForm.ParseTags` | renderer/src/features/moods/MoodForm.tsx:36-39 | every submitted tag is non-empty and trimmed; no lower-casing or de-duplication here |
| `MoodForm.ParseTagsMembers` | renderer/src/features/moods/MoodForm.tsx:36-39 | a tag is submitted exactly when some comma piece of the text trims to it and is not blank |
| `MoodForm.TrimPadded` | renderer/src/features/moods/MoodForm.tsx:29 | a trimmed tag behind the join's space trims back to itself |
| `MoodForm.TrimmedPartsOfTrimmingTo` | renderer/src/features/moods/MoodForm.tsx:38-39 | pieces that each trim to a non-empty tag come out as those tags |
| `MoodForm.ParseTagsOfJoin` | renderer/src/features/moods/MoodForm.tsx:29-39 | parsing `tags.join(", ")` gives the tags back when they are non-empty, trimmed and comma-free |
| `MoodForm.JoinedParts` | renderer/src/features/moods/MoodForm.tsx:29 | the comma pieces of the joined text are the first tag, then each later tag behind a space |
| `MoodForm.SubmitDraft` | renderer/src/features/moods/MoodForm.tsx:41-48 | title, subtitle and energy as typed, the parsed tags, and an empty icon or accent submitted as undefined |
| `MoodForm.OpenedDraftRoundTrip` | renderer/src/features/moods/MoodForm.tsx:24-48 | submitting an untouched form gives back the draft it was opened on |
| `MoodForm.MoodForm.constructor` | renderer/src/features/moods/MoodForm.tsx:24-31 | the fields start from `initial`, or from the empty draft |
| `MoodForm.MoodForm.HandleSubmit` | renderer/src/features/moods/MoodForm.tsx:33-58 | with an empty title nothing is submitted and nothing changes (the title input is `required`, line 68); otherwise submits the draft of the current fields, and only once `onSubmit` has succeeded, and only when there is no `initial`, resets to the empty draft (energy 0.5); a rejected submission leaves every field as typed |
| `MoodForm.MoodForm.Clear` | renderer/src/features/moods/MoodForm.tsx:51-56 | after the reset the form shows exactly the empty draft |
| `MoodForm.EmptyDraftCleared` | renderer/src/features/moods/MoodForm.tsx:14-21 | the empty draft's fields are the blanks the reset writes, with energy 0.5 and no tags |
| `MoodForm.MoodForm.SelectAccent` | renderer/src/features/moods/MoodForm.tsx:88-97 | blank clears, a listed accent is taken, anything else is ignored, so the field only ever holds "" or a listed accent |
| `App.ActiveIndex` | renderer/src/App.tsx:115 | the position of the active mood, or none when there is no active mood or it is not listed |
| `App.NextMoodIndex` | renderer/src/App.tsx:115-116 | an unknown active mood gives 0; otherwise the next index, wrapping to 0 |
| `App.PrevMoodIndex` | renderer/src/App.tsx:131-132 | an unknown active mood gives 0; otherwise the previous index, wrapping to the last |
| `App.PrevAfterNext` | renderer/src/App.tsx:104-134 | with distinct ids, going to the previous mood after the next one returns to the start |
| `App.NextAfterPrev` | renderer/src/App.tsx:104-134 | with distinct ids, going to the next mood after the previous one returns to the start |
| `App.InitialMood` | renderer/src/App.tsx:169-175 | none exactly when there are no moods; the remembered last mood when it is listed, else the first |
| `App.InitialMoodFromStore` | renderer/src/App.tsx:164-175 | a stored last mood id that is listed is the mood the app starts on |
| `App.App.constructor` | renderer/src/App.tsx:11-41 | the app starts with no moods, no active mood and its default settings |
| `App.App.PersistLastMood` | renderer/src/App.tsx:46-57 | writes nothing without a mood id or with remember off; otherwise stores `lastMoodId` and adopts the stored settings |
| `App.LastMoodPatch` | renderer/src/App.tsx:53 | the patch `persistLastMood` sends carries `lastMoodId` and no other key |
| `App.App.SelectMood` | renderer/src/App.tsx:46-69 | sets the active mood and asks the engine for it; when saving is asked for, the id is non-empty and remember is on, the store receives `lastMoodId` and the app adopts what the store returns; otherwise neither the settings nor the store change |
| `App.App.HandlePlayPause` | renderer/src/App.tsx:91-102 | when playing only pauses; otherwise selects the first mood when none is active, then plays; only that selection can persist the first mood as last mood, and every other branch leaves the settings and the store as they were |
| `App.App.HandleNextMood` | renderer/src/App.tsx:104-118 | the focus queue goes to the engine's next-source call and leaves the settings and the store; no moods, nothing; otherwise selects the next mood and persists it as last mood when remember is on and its id is non-empty |
| `App.FocusQueueOnlyForFocusEmbed` | renderer/src/App.tsx:105 | the queue branch is taken only for the focus mood with an embedded current source; any other mood or kind steps moods |
| `App.App.HandlePrevMood` | renderer/src/App.tsx:120-134 | the focus queue goes to the engine's previous-source call and leaves the settings and the store; no moods, nothing; otherwise selects the previous mood and persists it as last mood when remember is on and its id is non-empty |
| `App.App.Bootstrap` | renderer/src/App.tsx:163-184 | loads settings and moods, sets the engine volume, selects the initial mood when there is one, and never plays, because autoplay is always off |
| `Listeners.Added` | renderer/src/services/audio-engine.ts:69 | `Set.add`: the listener is in, the others stay, an existing one is not repeated |
| `Listeners.Unlisted` | renderer/src/services/audio-engine.ts:73 | `Set.delete`: only that listener goes, absent listeners change nothing |
| `Listeners.UnlistedDistinct` | renderer/src/services/soundcloud-widget-controller.ts:54-73 | calling the unsubscribe handle twice is harmless |
| `Listeners.UnlistedAdded` | renderer/src/services/soundcloud-widget-controller.ts:54-73 | subscribing a new listener and unsubscribing it restores the registry |
| `AudioEngine.Merge` | renderer/src/services/audio-engine.ts:220-224 | the shallow merge leaves every key absent from the patch unchanged |
| `AudioEngine.MergeIdempotent` | renderer/src/services/audio-engine.ts:220-224 | merging the same patch twice is merging once |
| `AudioEngine.Progress` | renderer/src/services/audio-engine.ts:250-251 | `min(1, elapsed / duration)` lies in (0, 1] and is 1 exactly when the duration has elapsed |
| `AudioEngine.FadeValue` | renderer/src/services/audio-engine.ts:252-253 | the written volume lies in [0,1] |
| `AudioEngine.FadeValueBetween` | renderer/src/services/audio-engine.ts:252-253 | the written volume lies between start and end; it is the end at progress 1 and the start at 0 |
| `AudioEngine.FramesToFinish` | renderer/src/services/audio-engine.ts:244-260 | a fade ends after finitely many frames |
| `AudioEngine.FrameBeforeFinish` | renderer/src/services/audio-engine.ts:255-260 | a frame before the duration has elapsed is not the last one |
| `AudioEngine.Fade` | renderer/src/services/audio-engine.ts:231-265 | a fade bumps the token and leaves the state record and target volume alone |
| `AudioEngine.PlayResult` | renderer/src/services/audio-engine.ts:81-97 | play keeps volumes in [0,1] and the target volume unchanged |
| `AudioEngine.PauseResult` | renderer/src/services/audio-engine.ts:99-108 | pause keeps volumes in [0,1] and the target volume unchanged |
| `AudioEngine.StopResult` | renderer/src/services/audio-engine.ts:110-116 | stop keeps volumes in [0,1] and the target volume unchanged |
| `AudioEngine.SetVolumeResult` | renderer/src/services/audio-engine.ts:118-124 | setting the volume keeps volumes in [0,1] |
| `AudioEngine.FadeOut` | renderer/src/services/audio-engine.ts:129-132 | fading out before a switch leaves the state record and target volume alone |
| `AudioEngine.Bound` | renderer/src/services/audio-engine.ts:207-209 | binding points the element at the source's uri, rewound to 0, volume untouched |
| `AudioEngine.FindSource` | renderer/src/services/audio-engine.ts:143 | `find` by id: the first source with that id, or none |
| `AudioEngine.Chosen` | renderer/src/services/audio-engine.ts:142-146 | the listed source with the current source's id if there is one, else the first source |
| `AudioEngine.ReadyUnlessLocal` | renderer/src/services/audio-engine.ts:207-213 | stream and embed sources bind at once; a local source binds exactly when the element becomes playable |
| `AudioEngine.SetMoodResult` | renderer/src/services/audio-engine.ts:126-167 | switching mood keeps volumes in [0,1] and the target volume unchanged |
| `AudioEngine.SetSourceResult` | renderer/src/services/audio-engine.ts:169-187 | switching source keeps volumes in [0,1] and the target volume unchanged |
| `AudioEngine.RetryResult` | renderer/src/services/audio-engine.ts:189-205 | retry keeps volumes in [0,1] |
| `AudioEngine.SetVolumeClamps` | renderer/src/services/audio-engine.ts:118-124 | target and state volume become `clamp01(v)` in any status; the element's volume changes only while playing |
| `AudioEngine.PlayWithoutSource` | renderer/src/services/audio-engine.ts:82-85 | without a current source, play sets error "Source unavailable" and touches nothing else |
| `AudioEngine.PlayWithSource` | renderer/src/services/audio-engine.ts:87-96 | with a source, a successful start fades up to the target and ends `playing` with no error; a failed start ends in error "Source unavailable" at volume 0 |
| `AudioEngine.PauseOnlyWhenPlaying` | renderer/src/services/audio-engine.ts:99-108 | pause is a no-op unless playing; then the element is paused at the target volume and the status is `paused` |
| `AudioEngine.StopRewinds` | renderer/src/services/audio-engine.ts:110-116 | stop raises the token, pauses, rewinds to 0, restores the target volume and goes `idle` with no error |
| `AudioEngine.SetMoodFails` | renderer/src/services/audio-engine.ts:159-165 | with no usable source list, setMood ends in error with no sources and no current source, but keeps the new mood id |
| `AudioEngine.SetMoodWithoutSourcesKeepsElement` | renderer/src/services/audio-engine.ts:137-140 | a failed or empty listing leaves the element's source alone |
| `AudioEngine.SetMoodBinds` | renderer/src/services/audio-engine.ts:142-158 | binds the preferred source (same id as before, else the first), lists the sources, ends paused, or playing exactly when the restart works if it was playing |
| `AudioEngine.SetSourceKeepsAvailable` | renderer/src/services/audio-engine.ts:169-187 | setSource never touches the source list or mood; a ready source becomes current, otherwise error with the old current source |
| `AudioEngine.PickResult` | renderer/src/services/audio-engine.ts:177-186 | binding a faded-out source keeps volumes in [0,1] and the target volume unchanged |
| `AudioEngine.PickPushes` | renderer/src/services/audio-engine.ts:177-186 | the part of setSource after the fade always pushes at least one record |
| `AudioEngine.FailedSourceReportedTwice` | renderer/src/services/audio-engine.ts:59-61 | a local source that fails to bind makes setSource push the same error record twice: `status "error"`, `Source unavailable`, sources unchanged |
| `AudioEngine.FailedMoodSourceReportedFirst` | renderer/src/services/audio-engine.ts:59-61 | in setMood, a chosen local source that fails to bind pushes loading, then the error with the listing still in place, then the emptied listing |
| `AudioEngine.RetryWithoutTarget` | renderer/src/services/audio-engine.ts:190-193 | with neither source nor mood, retry only sets the error |
| `AudioEngine.RetryWithSource` | renderer/src/services/audio-engine.ts:195-198 | with a source, retry keeps it and ends playing exactly when playback starts |
| `AudioEngine.RetryWithMood` | renderer/src/services/audio-engine.ts:201-204 | with only a mood, retry reloads that mood and ends playing exactly when its listing is usable and playback starts |
| `AudioEngine.Notify` | renderer/src/services/audio-engine.ts:226-228 | one push of the new state to each listener, in registry order |
| `AudioEngine.LastDeliverySnoc` | renderer/src/services/audio-engine.ts:226-228 | the last push to a listener is the newest one addressed to it |
| `AudioEngine.BroadcastAppend` | renderer/src/services/audio-engine.ts:220-229 | the pushes of two runs of `setState` calls, one after the other, are the pushes of the first run followed by those of the second |
| `AudioEngine.PlayPushesLoadingFirst` | renderer/src/services/audio-engine.ts:87-96 | with a source, play pushes exactly two records: first loading with no error, then playing with no error when the element starts, else error "Source unavailable" |
| `AudioEngine.SetMoodPushesLoadingFirst` | renderer/src/services/audio-engine.ts:134 | setMood's first push is loading with the new mood id and no error, everything else as before |
| `AudioEngine.LastPushIsResult` | renderer/src/services/audio-engine.ts:81-205 | for play, setSource, setMood and retry the last record pushed is the state the operation ends in |
| `AudioEngine.LastDeliveryNotify` | renderer/src/services/audio-engine.ts:226-228 | after a notification every subscribed listener's last push is the new state, and others are unaffected |
| `AudioEngine.AudioEngine.constructor` | renderer/src/services/audio-engine.ts:41-58 | target and element volume are `clamp01(initialVolume)`, but the state volume starts at 0.6 |
| `AudioEngine.AudioEngine.Subscribe` | renderer/src/services/audio-engine.ts:68-75 | adds the listener and calls it once at once with the current state |
| `AudioEngine.AudioEngine.Unsubscribe` | renderer/src/services/audio-engine.ts:72-74 | removes only that listener |
| `AudioEngine.AudioEngine.GetState` | renderer/src/services/audio-engine.ts:77-79 | the current state record |
| `AudioEngine.AudioEngine.SetState` | renderer/src/services/audio-engine.ts:220-229 | merges the patch and pushes the new state to every listener, changing nothing else |
| `AudioEngine.AudioEngine.FadeTick` | renderer/src/services/audio-engine.ts:244-258 | a stale token ends the fade without writing; otherwise writes the interpolated volume and ends exactly at progress 1 |
| `AudioEngine.AudioEngine.FadeTo` | renderer/src/services/audio-engine.ts:231-265 | the frame loop ends with the token bumped and the element at the clamped target |
| `AudioEngine.AudioEngine.Play` | renderer/src/services/audio-engine.ts:81-97 | the new state is `PlayResult` of the old (see `PlayWithSource`, `PlayWithoutSource`), and the listeners receive the `PlayPushes` records in order (see `PlayPushesLoadingFirst`) |
| `AudioEngine.AudioEngine.Pause` | renderer/src/services/audio-engine.ts:99-108 | the new state is `PauseResult` of the old (see `PauseOnlyWhenPlaying`); the listeners receive the paused record only when it was playing, and nothing otherwise |
| `AudioEngine.AudioEngine.Stop` | renderer/src/services/audio-engine.ts:110-116 | the new state is `StopResult` of the old (see `StopRewinds`), pushed once to every listener |
| `AudioEngine.AudioEngine.SetVolume` | renderer/src/services/audio-engine.ts:118-124 | the new state is `SetVolumeResult` of the old (see `SetVolumeClamps`), pushed once to every listener |
| `AudioEngine.AudioEngine.BindSource` | renderer/src/services/audio-engine.ts:207-218 | points the element at the source and succeeds unless a local source fails to become ready; in that case the element's error listener (lines 59-61) has already published the error, so the state gets the error and the listeners receive it |
| `AudioEngine.AudioEngine.SetMood` | renderer/src/services/audio-engine.ts:126-167 | the new state is `SetMoodResult` for the provider's listing (see `SetMoodBinds`, `SetMoodFails`); the listeners receive loading first (see `SetMoodPushesLoadingFirst`), then the `SettleMoodPushes` records; for a local source that fails to bind, the error with the listing still in place and then the emptied listing (see `FailedMoodSourceReportedFirst`) |
| `AudioEngine.AudioEngine.Settle` | renderer/src/services/audio-engine.ts:136-165 | after loading is published, the new state is `SettleMood` for the listing: the error with no sources, or the listing adopted (and played again when it was playing), with the matching records pushed in order; a failed local bind pushes the listener's error before the emptied listing |
| `AudioEngine.AudioEngine.SetSource` | renderer/src/services/audio-engine.ts:169-187 | the new state is `SetSourceResult` (see `SetSourceKeepsAvailable`), and the listeners receive the error twice (from the element's listener, then from the catch; see `FailedSourceReportedTwice`), or the picked source followed by what play pushes when it was playing |
| `AudioEngine.AudioEngine.PickSource` | renderer/src/services/audio-engine.ts:177-186 | after the fade, the new state is `PickResult` and the listeners receive the `PickPushes` records |
| `AudioEngine.AudioEngine.Retry` | renderer/src/services/audio-engine.ts:189-205 | the new state is `RetryResult` (see the three `Retry` lemmas), and the listeners receive the `RetryPushes` records: the error alone, or setSource's or setMood's pushes (including the error pushes of a failed local bind) followed by play's |
| `AudioEngine.AudioEngine.ReplaySource` | renderer/src/services/audio-engine.ts:195-198 | with a source, the state after setSource and then play, and the pushes of both in order, a failed local bind's doubled error included |
| `AudioEngine.AudioEngine.ReplayMood` | renderer/src/services/audio-engine.ts:201-204 | with only a mood id, the state after setMood and then play, and the pushes of both in order, a failed local bind's error push included |
| `AudioEngine.AudioEngine.OnAudioError` | renderer/src/services/audio-engine.ts:59-61 | an element error sets error "Source unavailable" and nothing else, pushed once to every listener |
| `AudioEngine.AudioEngine.OnAudioEnded` | renderer/src/services/audio-engine.ts:63-65 | the end of the media sets `paused` and nothing else, pushed once to every listener |
| `WidgetController.Each` | renderer/src/services/soundcloud-widget-controller.ts:190-192 | one call per registered listener, in registry order |
| `WidgetController.EachSnoc` | renderer/src/services/soundcloud-widget-controller.ts:208-210 | a listener added last is called last |
| `WidgetController.WidgetClamp01` | renderer/src/services/soundcloud-widget-controller.ts:43 | `max(0, min(1, v))`: NaN stays NaN, anything else lands in [0,1], values in [0,1] are kept |
| `WidgetController.Round` | renderer/src/services/soundcloud-widget-controller.ts:142 | `Math.round`: the nearest integer, halves rounded up |
| `WidgetController.VolumeLevel` | renderer/src/services/soundcloud-widget-controller.ts:142 | the widget level is NaN only for NaN; for every other input, infinities included, it is an integer in 0..100 within half a step of 100 times the clamped volume |
| `WidgetController.VolumeLevelNearest` | renderer/src/services/soundcloud-widget-controller.ts:142 | for v in [0,1] the level is within half a step of 100·v |
| `WidgetController.VolumeLevelMonotone` | renderer/src/services/soundcloud-widget-controller.ts:142 | a louder volume never gives a lower level |
| `WidgetController.FirstSettle` | renderer/src/services/soundcloud-widget-controller.ts:88-121 | pending exactly when nothing happened; resolved exactly when the load callback came first; any rejection says "Source unavailable" |
| `WidgetController.FirstSettleIgnoresLater` | renderer/src/services/soundcloud-widget-controller.ts:92-115 | once settled, later events change nothing |
| `WidgetController.ErrorRounds` | renderer/src/services/soundcloud-widget-controller.ts:200-210 | no events, no error calls |
| `WidgetController.LoadNotices` | renderer/src/services/soundcloud-widget-controller.ts:98-104 | no events, no listener calls |
| `WidgetController.LoadDelta` | renderer/src/services/soundcloud-widget-controller.ts:98-104 | an event other than a widget error calls no listener; a widget error calls every error listener, plus the load's own one only on the first event |
| `WidgetController.LoadNoticesSnoc` | renderer/src/services/soundcloud-widget-controller.ts:98-104 | a widget error reaches the load's own listener only while the load is unsettled, and every other error listener always |
| `WidgetController.ReadyMount` | renderer/src/services/soundcloud-widget-controller.ts:75-82 | `ensureReady` builds a widget only when not yet initialised, and is initialised afterwards |
| `WidgetController.DestroyedMount` | renderer/src/services/soundcloud-widget-controller.ts:149-154 | destroy drops the widget, the iframe and the flag |
| `WidgetController.ReadyMountOnce` | renderer/src/services/soundcloud-widget-controller.ts:75-82 | a second `ensureReady` builds nothing: at most one widget until destroy |
| `WidgetController.ReadyAfterDestroy` | renderer/src/services/soundcloud-widget-controller.ts:75-82 | after destroy, `ensureReady` builds a new widget |
| `WidgetController.SoundCloudWidgetController.constructor` | renderer/src/services/soundcloud-widget-controller.ts:47-52 | no listeners, no widget, no iframe, not initialised |
| `WidgetController.SoundCloudWidgetController.OnFinish` | renderer/src/services/soundcloud-widget-controller.ts:54-59 | adds the listener to the finish set and nothing else |
| `WidgetController.SoundCloudWidgetController.OffFinish` | renderer/src/services/soundcloud-widget-controller.ts:56-58 | the handle removes only that finish listener |
| `WidgetController.SoundCloudWidgetController.OnReady` | renderer/src/services/soundcloud-widget-controller.ts:61-66 | adds the listener to the ready set and nothing else |
| `WidgetController.SoundCloudWidgetController.OffReady` | renderer/src/services/soundcloud-widget-controller.ts:63-65 | the handle removes only that ready listener |
| `WidgetController.SoundCloudWidgetController.OnError` | renderer/src/services/soundcloud-widget-controller.ts:68-73 | adds the listener to the error set and nothing else |
| `WidgetController.SoundCloudWidgetController.OffError` | renderer/src/services/soundcloud-widget-controller.ts:70-72 | the handle removes only that error listener |
| `WidgetController.SoundCloudWidgetController.Dispatch` | renderer/src/services/soundcloud-widget-controller.ts:190-192 | the `for ... of` loop calls each listener once, in order |
| `WidgetController.SoundCloudWidgetController.EmitReady` | renderer/src/services/soundcloud-widget-controller.ts:189-193 | a READY event calls every ready listener |
| `WidgetController.SoundCloudWidgetController.EmitFinish` | renderer/src/services/soundcloud-widget-controller.ts:194-198 | a FINISH event calls every finish listener |
| `WidgetController.SoundCloudWidgetController.EmitError` | renderer/src/services/soundcloud-widget-controller.ts:200-211 | an ERROR event calls every error listener with "Source unavailable" |
| `WidgetController.SoundCloudWidgetController.EnsureReady` | renderer/src/services/soundcloud-widget-controller.ts:75-82 | fails when the script fails; otherwise builds the widget once |
| `WidgetController.SoundCloudWidgetController.CreateWidget` | renderer/src/services/soundcloud-widget-controller.ts:157-181 | a new widget over the iframe, which now exists |
| `WidgetController.SoundCloudWidgetController.RequireWidget` | renderer/src/services/soundcloud-widget-controller.ts:213-218 | the widget, or "Source unavailable" exactly when there is none |
| `WidgetController.SoundCloudWidgetController.LoadTrack` | renderer/src/services/soundcloud-widget-controller.ts:84-128 | sends the load, settles on the first event, calls its own error listener only before settling, and leaves the registries as before once settled, on the throw path too |
| `WidgetController.SoundCloudWidgetController.SettleLoad` | renderer/src/services/soundcloud-widget-controller.ts:93-94 | settling removes the temporary error listener and clears the timer |
| `WidgetController.SoundCloudWidgetController.OnLoadEvent` | renderer/src/services/soundcloud-widget-controller.ts:91-121 | any one event leaves the load settled with its timer and own listener gone; the first event decides the outcome (the load callback resolves, the timeout or a widget error rejects with "Source unavailable") |
| `WidgetController.SoundCloudWidgetController.AwaitLoad` | renderer/src/services/soundcloud-widget-controller.ts:88-127 | the event loop settles on the first event, once, and unregisters exactly when settled |
| `WidgetController.SoundCloudWidgetController.Play` | renderer/src/services/soundcloud-widget-controller.ts:130-133 | fails with "Source unavailable" when the widget cannot be readied; otherwise tells the widget to play |
| `WidgetController.SoundCloudWidgetController.Pause` | renderer/src/services/soundcloud-widget-controller.ts:135-138 | pauses the widget, a no-op without one |
| `WidgetController.SoundCloudWidgetController.SetVolume` | renderer/src/services/soundcloud-widget-controller.ts:140-143 | sends `round(clamp01(v) * 100)`, a no-op without a widget |
| `WidgetController.SoundCloudWidgetController.Destroy` | renderer/src/services/soundcloud-widget-controller.ts:145-155 | empties the three listener sets and drops widget, iframe and flag |

## Left out

- Electron plumbing is not part of this model: windows, tray, global shortcuts, IPC channels, the preload bridge and build configuration. One mismatch is visible there: `electron/main.ts` listens for "player:state-broadcast", but `electron/preload.ts` sends "player:state-changed".
- The IPC service wrappers and `internet-radio-source-provider.ts` are not modelled. The last only returns the catalogue list, and the engine takes its provider as a function parameter.
- Presentational React (`PlayerScreen.tsx`, `SegmentedTabs.tsx`) is left out, and so are window, focus and keyboard effects and the transport-command wiring in `App.tsx`.
- `App.tsx`'s `handleSettingChange` and `handleVolumeChange` are left out. They forward to `SettingsRepository.SettingsRepository.Set` and `AudioEngine.AudioEngine.SetVolume`, which are modelled.
- `App.App.HandlePlayPause`, `App.App.HandleNextMood`, `App.App.HandlePrevMood`, `App.App.SelectMood`, `App.App.Bootstrap`:
  - the engine calls are recorded in order rather than executed;
  - the engine's status and current source kind are parameters;
  - each handler runs as one step: the awaited `engine.setMood` and the awaited persist of the last mood are not interleaved with other events, so an event that arrives between `setActiveMoodId`, `engine.setMood` and the settings write is not modelled.
- `Types.MoodPatch`: `title`, `subtitle`, `energyLevel` and `tags` are either absent or a defined value; a key present as `undefined` cannot be expressed. In the source, `normalizeMoodPatch` copies such a key through, and `update` then spreads it over the mood before `normalizeMood`: an undefined `title` throws a TypeError at `.trim()`, and an undefined `subtitle`, `energyLevel` or `tags` resets the field to `""`, 0.5 or `[]`. The edit form's patch (`MoodsScreen.DraftPatch`) always sends defined values for all four.
- The engine's queue calls `nextSourceInQueue`/`prevSourceInQueue` are not defined by the engine, so they stay abstract entries in the App's call log.
- `currentTrackIndex` and `queueLength` are never set by the engine. They stay as they start.
- Time and the media element are not modelled:
  - `performance.now` and `requestAnimationFrame`: a fade is a sequence of frames `frameMs` apart;
  - `waitForPlaybackReady`'s event wiring: whether a local source becomes ready is a parameter;
  - `audio.play()`: whether it succeeds is a parameter;
  - `loop` and `preload` are not modelled.
- `AudioEngine.AudioEngine.constructor`: requires `fadeDurationMs >= 0` and `frameMs > 0`. With a negative duration the source's progress `elapsed / duration` is never positive, so its fade would never reach 1 and never finish; that input is excluded. The application constructs the engine with the default of 700 ms.
- `AudioEngine.AudioEngine.SetState`: requires a volume in the patch to lie in [0,1]. Every caller in the engine passes a clamped volume.
- `AudioEngine.AudioEngine.FadeTick`: requires start and end in [0,1], as every fade passes them, and counts frames from 1.
- Async interleaving of overlapping engine or controller calls is not modelled: each operation runs to completion. Only the fade token, which a newer fade or `stop` bumps, is modelled.
- Each backend outcome (`playOk`, `readyOk`, `scriptOk`, `loadThrows`) is one parameter per operation. Within one operation, repeated calls to the same backend get the same outcome.
- `bindSource`'s `autoPlay` argument is always false at its call sites, so the model has no autoplay branch.
- SoundCloud script injection (`ensureScript`), iframe DOM construction and the third-party widget are not modelled:
  - `widget.load`, `play`, `pause` and `setVolume` are entries in a command log;
  - the widget's `ERROR` event is assumed to exist;
  - a missing `window.SC` after the script loads is folded into `scriptOk`;
  - the load options object is not modelled.
- `WidgetController.SoundCloudWidgetController.LoadTrack`: requires a listener id and a timer id that are not yet registered. They stand for the fresh closure and the fresh timer the source creates.
- `WidgetController.SoundCloudWidgetController.LoadTrack`: a load still pending when its events run out keeps its listener and timer. Its later settlement is not modelled.
- Persistence is not modelled. `electron-store` becomes an in-memory field, and `randomUUID` becomes a fresh-id parameter of `MoodRepository.MoodRepository.Create`.
- `MoodRepository.ImportMoods`:
  - a non-number `schemaVersion` is modelled as absent;
  - entries of the moods array are records whose fields may be missing, not arbitrary JSON values;
  - the `id || randomUUID()` fallback is unreachable after the id check, so it is not modelled.
- `MoodRepository.SortOfSorted`: the stability of the sort is proved only for input already sorted by `order`, which is what `list` hands to `write`.
- `Validation.NormalizeMoodDraft`: the `?? 0.5` default for a missing energy level is not modelled. A draft's `energyLevel` is a required number in `shared/types/mood.ts`, so the model's draft always carries one; only untyped input arriving over IPC could lack it.
- Lower-casing is ASCII-only: letters outside `A`-`Z` are left as they are. Trimming uses the white space and line terminator set of `String.prototype.trim`.
- The `in`-operator lookup in `resolveMoodKey` is modelled for plain keys only. Inherited names such as "constructor" are not modelled.
- The `maxLength` limits of the form inputs and the plain setters of the form fields are left out: they constrain typing, not the submitted logic.

## Findings

| source | as written | input that shows it | evidently intended | confidence | as-written member | corrected member |
|---|---|---|---|---|---|---|
| electron/storage/mood-repository.ts:102-121 | `reorder` pushes the moods in the requested order, but each keeps its old `order`. `write` then sorts by `order` and puts them back where they were, so a reorder changes nothing. | two stored moods a (order 0) and b (order 1) and `orderedIds = [b.id, a.id]` give back `[a, b]`; in general any request returns a normalised list with distinct ids unchanged (`MoodRepository.ReorderAsWrittenChangesNothing`) | number the moods by their new position, giving `[b (order 0), a (order 1)]` | not executed | `MoodRepository.ReorderAsWrittenIgnoresSwap` | `MoodRepository.CorrectedSwap` |
