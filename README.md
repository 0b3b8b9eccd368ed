# beatlocker, modelled in Dafny

beatlocker is a music server that speaks the Subsonic API. It keeps a
catalog of folders, files, songs, albums, artists, cover art and stars in
SQLite, fills that catalog by walking a music folder, and enriches it with
metadata from MusicBrainz, Discogs, the Cover Art Archive and Last.fm. This
project models the catalog engine and the decision logic of the request
layer, and proves properties of the model.

What is modelled, one module per file:

- `Catalog` (catalog.dfy) holds the catalog tables as maps, and the writes
  the importers issue as a `Write` value with `Apply` / `ApplyAll`. The class
  `Catalog.Db` is the store of `db/mod.rs`. Every `insert_*_if_not_exists`
  inserts or keeps the existing row and returns the key. Song genre, artist
  MusicBrainz id and `last_updated` are never written on insert.
- `ImportTask` (import_task.dfy) is the current folder importer. It covers
  the skip ladder of `import_file`, the failed-file quarantine, the derived
  keys, and the chunked recursive `import_folder`. Its headline theorem is
  that a re-import into the catalog a first import produced changes nothing.
  `LegacyImport` (legacy_import.dfy) is the earlier `.ogg`-only importer
  with `await_join_set`.
- `Metadata` (metadata.dfy) is `extract_metadata` on an already decoded
  container. It covers the placeholders, the file-name guess, suffix and
  content type, the bit rate, and track and disc number parsing.
- `Reconciler` (reconciler.dfy) is the deleted-files task. It covers the
  per-folder child deletes, the folder deletes, and the bulk orphan deletes
  with SQL's three-valued `NOT IN`.
- `Enrichment`, `EnrichmentFacts`, `EnrichmentProperties` and
  `EnrichmentTask` model the external-metadata task. They cover candidate
  selection with the 96-hour cooldown, touch-first ordering, each field's
  fallback chain over the providers, and the chunk loop on the store.
- `Providers`, `ProviderList`, `MusicBrainz`, `Discogs` and `ApiClients`
  model the provider plumbing. Provider and HTTP answers are inputs.
- `Genres`, `Indexes`, `Listings`, `Star`, `Auth`, `Format` and
  `ArtistInfoApi` model the request handlers `getGenres`, `getIndexes` /
  `getArtists`, `search3` / `getStarred` / `getStarred2`, `star` /
  `unstar`, authentication, response formats and `getArtistInfo`.
- `Base`, `Strings`, `Paths`, `Uuids`, `Sequences` and `SortedMaps` are the
  shared foundations. `Base` holds Rust's `as u32` and integer division,
  `Sequences` a stable sort and `group_by`, and `SortedMaps` a
  `BTreeMap<String, _>`.

Randomness and the network do not occur in the model. The clock, the path
hash (`str_to_uuid` / `uri_to_uuid`), `is_valid`, the filesystem (a
directory tree, or an `exists(path)` predicate), SQL row order, and every
HTTP answer are parameters of the functions that need them.

## Model

| member | source | states |
|---|---|---|
| Base.AsU32 | beatlocker-server/src/tasks/extract_metadata.rs:95 | `as u32`: a value in range is kept, and any other value wraps around modulo 2^32 |
| Base.TruncDiv | beatlocker-server/src/tasks/extract_metadata.rs:44 | Rust's integer division rounds toward zero, for negative dividends too |
| Base.NumSeconds | beatlocker-server/src/db/mod.rs:287 | `num_seconds` drops less than a second, rounding toward zero |
| Base.NumSecondsOfSeconds | beatlocker-server/src/tasks/extract_metadata.rs:96-98 | a whole number of seconds survives `num_seconds` |
| Base.Last | beatlocker-server/src/tasks/import_external_metadata_task.rs:133-153 | the last element, none exactly for an empty sequence |
| Base.First | beatlocker-server/src/tasks/providers/musicbrainz.rs:31-36 | the first element, none exactly for an empty sequence |
| Strings.TrimStart | beatlocker-server/src/tasks/extract_metadata.rs:128-129 | drops exactly the leading whitespace |
| Strings.TrimEnd | beatlocker-server/src/tasks/extract_metadata.rs:128-129 | drops exactly the trailing whitespace |
| Strings.TrimIsInfix | beatlocker-server/src/tasks/extract_metadata.rs:128-129 | `trim` leaves an infix of the input that neither begins nor ends with whitespace |
| Strings.TrimIdempotent | beatlocker-server/src/tasks/extract_metadata.rs:128-129 | trimming twice is trimming once |
| Strings.TrimPadded | beatlocker-server/src/tasks/extract_metadata.rs:128-129 | trimming a text padded with whitespace on both sides gives the text back |
| Strings.SplitOnce | beatlocker-server/src/tasks/extract_metadata.rs:126 | `split_once` fails exactly when the separator is absent, and otherwise splits at a separator with none before it |
| Strings.SplitOnceUnique | beatlocker-server/src/tasks/extract_metadata.rs:126 | the split at the first separator is the only split with no separator before it |
| Strings.LastIndexOf | beatlocker-server/src/tasks/mod.rs:151 | the position of the last occurrence, none exactly when there is no occurrence (also line 284) |
| Strings.Lower | beatlocker-server/src/api/auth.rs:58 | lower-casing turns each ASCII capital into its small letter, keeps every other character, and keeps the length (ASCII only, see Left out) |
| Strings.LowerIdempotent | beatlocker-server/src/api/auth.rs:58 | lower-casing twice is lower-casing once |
| Strings.LessIrreflexive | beatlocker-server/src/api/get_genres.rs:52-53 | no string is below itself in `String`'s order |
| Strings.LessTransitive | beatlocker-server/src/api/get_genres.rs:52-53 | `String`'s order is transitive |
| Strings.LessTotal | beatlocker-server/src/api/get_genres.rs:52-53 | any two different strings are ordered one way or the other |
| Paths.JoinShape | beatlocker-server/src/tasks/mod.rs:142-157 | the joined path is the directory, then a `/` exactly when the directory is non-empty and does not already end in one, then the name |
| Paths.LastSegment | beatlocker-server/src/tasks/mod.rs:118 | the text after the last separator, with no separator in it (also line 187) |
| Paths.FileName | beatlocker-server/src/tasks/mod.rs:118 | a file name, when there is one, is a nonempty last component other than `.` or `..`, and ends the path (also line 187) |
| Paths.FileNameOfJoin | beatlocker-server/src/tasks/mod.rs:142 | the file name of a joined entry path is the entry's name (also lines 157, 187) |
| Paths.SplitName | beatlocker-server/src/tasks/mod.rs:151 | a name splits at its last dot into a nonempty stem and an extension with no dot; `..`, undotted names and names whose only dot comes first have no extension (also line 284) |
| Paths.SplitNameOfDotted | beatlocker-server/src/tasks/mod.rs:151 | a dotted name splits at its last dot (also line 284) |
| Paths.WithoutExtension | beatlocker-server/src/tasks/extract_metadata.rs:123 | `with_extension("")` gives the path back without an extension, and otherwise the path minus the dot and the extension |
| Uuids.Hex | beatlocker-server/src/api/get_indexes.rs:37 | the digits have the asked width and no separator |
| Uuids.HexInjective | beatlocker-server/src/api/get_indexes.rs:37 | different numbers in range have different digits |
| Uuids.UuidText | beatlocker-server/src/api/get_indexes.rs:37 | a UUID's text is 36 characters with separators at positions 8, 13, 18 and 23 |
| Uuids.DigitsOfText | beatlocker-server/src/api/get_indexes.rs:37 | without the separators, a UUID's text is its 32 hex digits |
| Uuids.UuidTextInjective | beatlocker-server/src/api/get_indexes.rs:37 | different UUIDs are written differently |
| Sequences.Filter | beatlocker-server/src/api/get_indexes.rs:27-31 | filtering never lengthens a sequence |
| Sequences.FilterMembers | beatlocker-server/src/api/get_indexes.rs:27-31 | filtering keeps exactly the elements that satisfy the predicate |
| Sequences.FilterConcat | beatlocker-server/src/api/get_indexes.rs:27-31 | filtering distributes over concatenation |
| Sequences.InsertionPoint | beatlocker-server/src/api/get_indexes.rs:57 | an element is inserted after every element it is not strictly below, and before the first element above it |
| Sequences.Insert | beatlocker-server/src/api/get_indexes.rs:57 | insertion adds exactly the element |
| Sequences.SortBy | beatlocker-server/src/api/get_indexes.rs:57 | `sorted_by_key` permutes its input |
| Sequences.InsertSorted | beatlocker-server/src/api/get_indexes.rs:57 | inserting into a sorted sequence keeps it sorted |
| Sequences.SortBySorted | beatlocker-server/src/api/get_indexes.rs:57 | `sorted_by_key` orders its output by the key |
| Sequences.SortByStable | beatlocker-server/src/api/get_indexes.rs:57 | `sorted_by_key` is stable: the elements of any one key keep their input order |
| Sequences.Runs | beatlocker-server/src/api/get_indexes.rs:51 | `group_by` yields nonempty runs, none exactly for an empty input, and the first begins with the first element |
| Sequences.RunsFlatten | beatlocker-server/src/api/get_indexes.rs:51 | together the runs are the input |
| Sequences.RunsUniform | beatlocker-server/src/api/get_indexes.rs:51 | within a run every element has the run's key |
| Sequences.RunsApart | beatlocker-server/src/api/get_indexes.rs:51 | neighbouring runs have different keys: the runs are maximal |
| Catalog.PutIfAbsent | beatlocker-server/src/db/mod.rs:81-100 | `INSERT … ON CONFLICT DO UPDATE set id = id`: the key ends up present, an existing row is kept as it was, a new one is added, and nothing else changes |
| Catalog.StoredFolder | beatlocker-server/src/db/mod.rs:215-236 | the stored folder row equals the given one except that the unbound `path` column is empty |
| Catalog.StoredFolderChild | beatlocker-server/src/db/mod.rs:238-262 | the stored folder child equals the given one except that the unbound `last_updated` column is empty |
| Catalog.StoredArtist | beatlocker-server/src/db/mod.rs:102-121 | the stored artist equals the given one except that the unbound `musicbrainz_id` column is empty |
| Catalog.StoredSong | beatlocker-server/src/db/mod.rs:264-294 | the stored song has no genre (the column list omits it) and its duration truncated to whole seconds (`num_seconds()` written, read back as seconds); every other field is the given one |
| Catalog.InsertSongResult | beatlocker-server/src/db/mod.rs:264-294 | after the song insert the key is present, an existing song is untouched, a new one has the given title and no genre, and no other table changes |
| Catalog.InsertArtistResult | beatlocker-server/src/db/mod.rs:102-121 | after the artist insert the key is present; an existing artist leaves the store unchanged; a new artist has no MusicBrainz id |
| Catalog.InsertFolderChildResult | beatlocker-server/src/db/mod.rs:238-262 | after the folder-child insert the key is present; an existing child leaves the store unchanged; a new one has no `last_updated` |
| Catalog.TouchOnlyNamedChild | beatlocker-server/src/db/mod.rs:70-79 | `update_last_updated` sets `last_updated` of the named child and changes no other row or table, and no key |
| Catalog.ExtendsTransitive | beatlocker-server/src/db/mod.rs:81-315 | growth of the catalog composes |
| Catalog.ApplyExtends | beatlocker-server/src/db/mod.rs:81-315 | every insert statement only adds rows and links; no existing row changes |
| Catalog.ApplyAbsorbed | beatlocker-server/src/db/mod.rs:81-315 | once a statement's effect is present in a store, issuing it again changes nothing |
| Catalog.ApplyIdempotent | beatlocker-server/src/db/mod.rs:81-315 | issuing an insert statement twice is issuing it once |
| Catalog.ApplyAllExtends | beatlocker-server/src/db/mod.rs:81-315 | a run of insert statements only adds rows |
| Catalog.ApplyAllSnoc | beatlocker-server/src/db/mod.rs:81-315 | running statements and then one more is running the extended run |
| Catalog.ApplyAllConcat | beatlocker-server/src/db/mod.rs:81-315 | running two runs one after the other is running their concatenation |
| Catalog.ApplyAllSingle | beatlocker-server/src/db/mod.rs:81-315 | a run of one statement is that statement |
| Catalog.ApplyAllPair | beatlocker-server/src/db/mod.rs:81-315 | a run of two statements is the one after the other |
| Catalog.ApplyAllAbsorbed | beatlocker-server/src/db/mod.rs:81-315 | a run of statements whose effect is present changes nothing |
| Catalog.WriteHolds | beatlocker-server/src/db/mod.rs:81-315 | after an insert its key (or link) is present |
| Catalog.HoldsPersist | beatlocker-server/src/db/mod.rs:81-315 | a present key stays present as the catalog grows |
| Catalog.ApplyAllHolds | beatlocker-server/src/db/mod.rs:81-315 | after a run every key and link the run names is present |
| Catalog.ApplyKeepsAlbums | beatlocker-server/src/db/mod.rs:81-136 | only the album insert and the album-artist link touch the album tables |
| Catalog.ApplyAllKeepsAlbums | beatlocker-server/src/db/mod.rs:81-136 | a run without album statements leaves both album tables as they were |
| Catalog.ApplyKeepsChildren | beatlocker-server/src/db/mod.rs:238-262 | only the folder-child insert touches the folder children |
| Catalog.NewChildStored | beatlocker-server/src/db/mod.rs:238-262 | a run holding the one folder-child insert for a new key stores exactly that row |
| Catalog.PathsPersist | beatlocker-server/src/db/mod.rs:195-203 | a recorded folder-child or failed-child path stays recorded as the catalog grows |
| Catalog.DeleteOrphansWellKeyed | beatlocker-server/src/tasks/removed_deleted_files_task.rs:83-98 | the orphan deletes keep every row under its own key |
| Catalog.DeleteUnreferencedWellKeyed | beatlocker-server/src/tasks/removed_deleted_files_task.rs:102-111 | the cover-art and starred deletes keep every row under its own key |
| Catalog.Db.constructor | beatlocker-server/src/db/mod.rs:36-64 | a freshly migrated database is empty |
| Catalog.Db.UpdateLastUpdated | beatlocker-server/src/db/mod.rs:70-79 | the new store is the old one with the named child touched |
| Catalog.Db.InsertAlbumIfNotExists | beatlocker-server/src/db/mod.rs:81-100 | returns the album's own id, which is then present; the store is the old one with the album inserted if absent |
| Catalog.Db.InsertArtistIfNotExists | beatlocker-server/src/db/mod.rs:102-121 | the same for the artist |
| Catalog.Db.UpsertAlbumArtist | beatlocker-server/src/db/mod.rs:123-136 | `INSERT OR IGNORE`: the link is added to the old store |
| Catalog.Db.InsertFolderIfNotExists | beatlocker-server/src/db/mod.rs:215-236 | the same for the folder |
| Catalog.Db.InsertFolderChildIfNotExists | beatlocker-server/src/db/mod.rs:238-262 | the same for the folder child |
| Catalog.Db.InsertFailedFolderChildIfNotExists | beatlocker-server/src/tasks/import_folder_task.rs:141-149 | the same for the failed folder child |
| Catalog.Db.InsertSongIfNotExists | beatlocker-server/src/db/mod.rs:264-294 | the same for the song |
| Catalog.Db.InsertCoverArtIfNotExists | beatlocker-server/src/db/mod.rs:296-315 | the same for the cover art |
| Catalog.Db.FindSongById | beatlocker-server/src/db/mod.rs:138-165 | the song stored under the id, `None` exactly when there is none |
| Catalog.Db.FindArtistById | beatlocker-server/src/db/mod.rs:167-179 | the artist stored under the id, `None` exactly when there is none |
| Catalog.Db.FindAlbumById | beatlocker-server/src/db/mod.rs:181-193 | the album stored under the id, `None` exactly when there is none |
| Catalog.Db.FindFolderChildByPath | beatlocker-server/src/db/mod.rs:195-203 | the id of some folder child with exactly that path, `None` exactly when there is none |
| Catalog.Db.FindFailedFolderChildByPath | beatlocker-server/src/tasks/import_folder_task.rs:90-98 | the same lookup among the failed folder children |
| Catalog.Db.FindCoverArt | beatlocker-server/src/db/mod.rs:205-213 | the id itself exactly when cover art is stored under it |
| Catalog.Db.UpdateArtistMusicbrainzId | beatlocker-server/src/tasks/import_external_metadata_task.rs:135-138 | the new store is the old one with the artist's MusicBrainz id set |
| Catalog.Db.UpdateSongGenre | beatlocker-server/src/tasks/import_external_metadata_task.rs:172-175 | the new store is the old one with the song's genre set |
| Catalog.Db.UpdateSongCoverArt | beatlocker-server/src/tasks/import_external_metadata_task.rs:208-211 | the new store is the old one with the song's cover set |
| Catalog.Db.UpdateAlbumCoverArt | beatlocker-server/src/tasks/import_external_metadata_task.rs:247-250 | the new store is the old one with the album's cover set |
| Catalog.Db.UpdateArtistCoverArt | beatlocker-server/src/tasks/import_external_metadata_task.rs:289-292 | the new store is the old one with the artist's cover set |
| Catalog.Db.FindChildrenOfFolder | beatlocker-server/src/tasks/removed_deleted_files_task.rs:37-45 | returns stored children of the folder only, and every child of the folder at least once |
| Catalog.Db.InsertStarredIfNotExists | beatlocker-server/src/api/star.rs:41-44 | the starred time is added when the id was not starred; nothing else changes |
| Catalog.Db.DeleteStarred | beatlocker-server/src/api/star.rs:77-80 | the id is no longer starred; nothing else changes |
| Catalog.Db.DeleteRemovedChildRows | beatlocker-server/src/tasks/removed_deleted_files_task.rs:59-69 | the three deletes for a file that is gone |
| Catalog.Db.DeleteFolderRow | beatlocker-server/src/tasks/removed_deleted_files_task.rs:74-79 | the folder delete |
| Catalog.Db.DeleteOrphanRows | beatlocker-server/src/tasks/removed_deleted_files_task.rs:83-98 | the three orphan deletes |
| Catalog.Db.DeleteUnreferencedRows | beatlocker-server/src/tasks/removed_deleted_files_task.rs:102-111 | the cover-art and starred deletes |
| Metadata.LastKeyIndex | beatlocker-server/src/tasks/extract_metadata.rs:45-49 | the reference for the collected comment map: the position of the last pair with the key, absent exactly when no pair has it |
| Metadata.CommentMapLookup | beatlocker-server/src/tasks/extract_metadata.rs:45-49 | collecting the comment list into a map keeps a key exactly when some pair has it, with the value of the last such pair |
| Metadata.ParseU32 | beatlocker-server/src/tasks/extract_metadata.rs:87-94 | `u32::from_str` accepts only an optional `+` followed by at least one decimal digit |
| Metadata.Decimal | beatlocker-server/src/tasks/extract_metadata.rs:87-94 | the decimal rendering of a number is nonempty, all digits, and without a leading zero |
| Metadata.DecimalValue | beatlocker-server/src/tasks/extract_metadata.rs:87-94 | the digits of a rendering have the rendered value |
| Metadata.ParseU32OfDecimal | beatlocker-server/src/tasks/extract_metadata.rs:87-94 | every `u32` written in decimal parses back to itself |
| Metadata.ParseOptional | beatlocker-server/src/tasks/extract_metadata.rs:87-94 | `.map(parse).transpose()?`: an absent comment gives `None`, a well-formed one its value, a malformed one a parse error |
| Metadata.BitRate | beatlocker-server/src/tasks/extract_metadata.rs:44 | `bitrate_nominal / 1000` truncates toward zero on `i32`, and `as u32` wraps a negative quotient modulo 2^32 (also line 95) |
| Metadata.Suffix | beatlocker-server/src/tasks/extract_metadata.rs:65-68 | the suffix is the lower-cased extension, absent exactly when the name has no extension |
| Metadata.ContentType | beatlocker-server/src/tasks/extract_metadata.rs:69-75 | the content type is `audio/ogg` exactly when the suffix is `ogg` |
| Metadata.FilenameGuess | beatlocker-server/src/tasks/extract_metadata.rs:122-133 | the file name gives a guess exactly when its extension-less part contains a `-` |
| Metadata.FilenameGuessOfSplit | beatlocker-server/src/tasks/extract_metadata.rs:122-133 | the split is at the first `-`: the trimmed left part is the artist, the trimmed right part the title |
| Metadata.VorbisMetadata | beatlocker-server/src/tasks/extract_metadata.rs:38-102 | reading a Vorbis header fails exactly when the track or disc number is malformed; otherwise title and artist are their comments or the placeholders `Unknown` and `Unknown artist`, the other fields are their comments, bit rate and duration come from the stream, and suffix and content type from the name |
| Metadata.Merge | beatlocker-server/src/tasks/extract_metadata.rs:135-150 | the guess replaces only the placeholders; a guessed artist becomes the album artist too; every other field is kept |
| Metadata.UnreadableGivesNone | beatlocker-server/src/tasks/extract_metadata.rs:110-118 | a container the parser cannot read gives `Ok(None)`, whatever the file name |
| Metadata.NoVorbisUsesGuess | beatlocker-server/src/tasks/extract_metadata.rs:104-108 | a readable container without a Vorbis stream gives metadata exactly when the name gives a guess, and then only the guessed title, artist and album artist (also lines 151-161) |
| Metadata.VorbisResult | beatlocker-server/src/tasks/extract_metadata.rs:38-150 | with a Vorbis stream, a malformed number fails the call; otherwise tags win over the guess, which fills only missing title and artist, and the content type is `audio/ogg` exactly when the suffix is `ogg` |
| Metadata.UntaggedVorbis | beatlocker-server/src/tasks/extract_metadata.rs:77-102 | an empty comment header gives the placeholders and no tags |
| Metadata.UntaggedUsesGuess | beatlocker-server/src/tasks/extract_metadata.rs:135-150 | an untagged stream takes title and artist, and the album artist, from the guess |
| Metadata.FooBarGuess | beatlocker-server/src/tasks/extract_metadata.rs:194-209 | the name `Foo - Bar.ogg` guesses title `Bar` and artist `Foo` |
| Metadata.UntaggedFooBar | beatlocker-server/src/tasks/extract_metadata.rs:194-209 | `Foo - Bar.ogg` with an untagged stream gives title `Bar`, artist and album artist `Foo`, no album, date or numbers, and suffix `ogg` with type `audio/ogg` |
| Reconciler.FolderRows | beatlocker-server/src/tasks/removed_deleted_files_task.rs:14-28 | the decoded folder list pairs each listed folder with its stored path, in query order |
| Reconciler.IdsSnoc | beatlocker-server/src/tasks/removed_deleted_files_task.rs:30-35 | one more listed folder adds its id, and its id to the missing ones when its path is gone |
| Reconciler.GoneUnderSnoc | beatlocker-server/src/tasks/removed_deleted_files_task.rs:37-56 | the gone children of one more folder are added to the gone children so far |
| Reconciler.SongsOfUnion | beatlocker-server/src/tasks/removed_deleted_files_task.rs:55-69 | the song ids of two sets of children are the union of their song ids |
| Reconciler.SweepLeavesOthers | beatlocker-server/src/tasks/removed_deleted_files_task.rs:55-69 | deleting child rows of other folders changes neither this folder's decoding nor its gone children nor their songs |
| Reconciler.RemoveChildrenTwice | beatlocker-server/src/tasks/removed_deleted_files_task.rs:59-69 | two rounds of child deletes are one round with both sets |
| Reconciler.SweepStep | beatlocker-server/src/tasks/removed_deleted_files_task.rs:30-79 | sweeping one more folder after the others is sweeping the larger list at once |
| Reconciler.SweepFoldersCharacterized | beatlocker-server/src/tasks/removed_deleted_files_task.rs:30-79 | when every child decodes, the outer loop never panics and deletes exactly the gone children of the listed folders, their songs and song-keyed failed rows, and the listed folders whose path is gone, in any list order |
| Reconciler.PanicStops | beatlocker-server/src/tasks/removed_deleted_files_task.rs:46-53 | once a folder's children fail to decode the task stops: later folders are not visited |
| Reconciler.NullFolderPathPanics | beatlocker-server/src/tasks/removed_deleted_files_task.rs:22-26 | a listed folder without a decodable path panics the task before anything is deleted |
| Reconciler.StoredFoldersPanic | beatlocker-server/src/tasks/removed_deleted_files_task.rs:14-28 | the folder insert never binds `path`, so over folders stored that way the task panics as soon as any folder besides the root exists |
| Reconciler.RemoveDeletedFilesDone | beatlocker-server/src/tasks/removed_deleted_files_task.rs:11-114 | when everything decodes the task completes, and its effect is the order-free sweep followed by the orphan and unreferenced deletes |
| Reconciler.ExaminedIds | beatlocker-server/src/tasks/removed_deleted_files_task.rs:14-19 | the listed folders are exactly those with a parent |
| Reconciler.MissingIds | beatlocker-server/src/tasks/removed_deleted_files_task.rs:30-33 | the missing folders are exactly the listed folders whose path no longer exists |
| Reconciler.ChildKeptUnlessGone | beatlocker-server/src/tasks/removed_deleted_files_task.rs:37-69 | a folder child survives exactly when its folder is the root or its file still exists, and a survivor is unchanged |
| Reconciler.GoneChildTakesSong | beatlocker-server/src/tasks/removed_deleted_files_task.rs:59-69 | a removed child takes with it its song row and the failed-child row whose id is that song id |
| Reconciler.SongKeptUnlessGone | beatlocker-server/src/tasks/removed_deleted_files_task.rs:59-69 | a song survives exactly when no removed child carries its id |
| Reconciler.FolderKeptUnlessGone | beatlocker-server/src/tasks/removed_deleted_files_task.rs:30-33 | a folder row survives exactly when it is the root or its path still exists (also lines 74-79) |
| Reconciler.OrphansGone | beatlocker-server/src/tasks/removed_deleted_files_task.rs:83-98 | an album, artist or album-artist link remains exactly when a song carries its id (both ids for a link) |
| Reconciler.ArtistWithSongKept | beatlocker-server/src/tasks/removed_deleted_files_task.rs:59-98 | an artist that still has a song after the sweep is kept with its row unchanged |
| Reconciler.UnreferencedGone | beatlocker-server/src/tasks/removed_deleted_files_task.rs:102-111 | `NOT IN` with a NULL in the list never holds, so cover art and stars stay when some song lacks an artist or album; otherwise a row stays exactly when a song's own, artist or album id equals its id |
| Reconciler.FetchFolders | beatlocker-server/src/tasks/removed_deleted_files_task.rs:14-28 | the folder query decodes exactly when every listed path is present, into the folder rows |
| Reconciler.GoneInStep | beatlocker-server/src/tasks/removed_deleted_files_task.rs:55-69 | one more child row adds its id, and its song id, exactly when its file is gone |
| Reconciler.NoneGoneYet | beatlocker-server/src/tasks/removed_deleted_files_task.rs:55 | before the children loop nothing is deleted |
| Reconciler.RemoveOneMore | beatlocker-server/src/tasks/removed_deleted_files_task.rs:55-69 | one turn of the children loop, which issues the three deletes only when the file is gone, extends the removal by that child and its song id |
| Reconciler.DeletedChildrenAtOnce | beatlocker-server/src/tasks/removed_deleted_files_task.rs:55-69 | deleting the gone children one at a time removes them, their songs and their song-keyed failed rows at once |
| Reconciler.ListedGone | beatlocker-server/src/tasks/removed_deleted_files_task.rs:37-53 | the gone rows of the folder's child listing are the folder's gone children |
| Reconciler.ListedDecode | beatlocker-server/src/tasks/removed_deleted_files_task.rs:46-51 | the fetched rows all carry a song id exactly when the folder's children decode |
| Reconciler.DeleteGoneChildren | beatlocker-server/src/tasks/removed_deleted_files_task.rs:55-69 | the children loop deletes the gone children, their songs and song-keyed failed rows |
| Reconciler.SweepFolderRows | beatlocker-server/src/tasks/removed_deleted_files_task.rs:30-79 | one turn of the folder loop agrees with the specification of one folder's sweep |
| Reconciler.RemoveDeletedFiles | beatlocker-server/src/tasks/removed_deleted_files_task.rs:11-114 | `remove_deleted_files` agrees with the specification of the whole task |
| Enrichment.Decode | beatlocker-server/src/tasks/import_external_metadata_task.rs:56-68 | a candidate row decodes exactly when its path, folder-child id, artist id and artist name are present; otherwise `row.get` panics |
| Enrichment.MusicbrainzQuery | beatlocker-server/src/tasks/import_external_metadata_task.rs:326-333 | the recording query is `title:… AND artist:…`, with ` AND release:…` exactly when the album title is known |
| Enrichment.RetrySearch | beatlocker-server/src/tasks/import_external_metadata_task.rs:368-374 | the retried Discogs search is the first one without `release_title` |
| Enrichment.DiscogsFindSong | beatlocker-server/src/tasks/import_external_metadata_task.rs:349-383 | without a Discogs token no search is made and the answer is `None` |
| Enrichment.AlbumCoverUrl | beatlocker-server/src/tasks/import_external_metadata_task.rs:225-241 | without a Discogs token the album cover lookup finds nothing |
| Enrichment.ArtistPhotoUrl | beatlocker-server/src/tasks/import_external_metadata_task.rs:264-283 | without a Discogs token the artist photo lookup finds nothing |
| Enrichment.GetDbSongInfo | beatlocker-server/src/tasks/import_external_metadata_task.rs:300-324 | the re-read succeeds exactly when the song and its artist are stored |
| EnrichmentFacts.EnrichedRefl | beatlocker-server/src/tasks/import_external_metadata_task.rs:29-125 | filling blanks only is reflexive |
| EnrichmentFacts.EnrichedTrans | beatlocker-server/src/tasks/import_external_metadata_task.rs:29-125 | filling blanks only composes |
| EnrichmentFacts.OnlyChildrenTouched | beatlocker-server/src/tasks/import_external_metadata_task.rs:88 | a change confined to `last_updated` of folder children fills blanks only |
| EnrichmentFacts.OnlySongsFilled | beatlocker-server/src/tasks/import_external_metadata_task.rs:172 | a change that only fills songs' missing genre or cover fills blanks only (also line 208) |
| EnrichmentFacts.OnlyArtistsFilled | beatlocker-server/src/tasks/import_external_metadata_task.rs:135 | a change that only fills artists' missing MusicBrainz id or cover fills blanks only (also line 289) |
| EnrichmentFacts.OnlyAlbumsFilled | beatlocker-server/src/tasks/import_external_metadata_task.rs:247 | a change that only fills albums' missing cover fills blanks only |
| EnrichmentFacts.OnlyCoverArtGrown | beatlocker-server/src/tasks/mod.rs:518-531 | a change that only adds cover art fills blanks only |
| EnrichmentFacts.TouchEnriched | beatlocker-server/src/tasks/import_external_metadata_task.rs:88 | touching a folder child keeps the rows under their keys and fills blanks only |
| EnrichmentFacts.SetArtistMusicbrainzIdEnriched | beatlocker-server/src/tasks/import_external_metadata_task.rs:128-144 | the MusicBrainz-id update keeps the keys, fills blanks only and leaves the folder children alone |
| EnrichmentFacts.SetSongGenreEnriched | beatlocker-server/src/tasks/import_external_metadata_task.rs:169-177 | the same for the genre update |
| EnrichmentFacts.SetSongCoverEnriched | beatlocker-server/src/tasks/import_external_metadata_task.rs:204-214 | the same for the song cover update |
| EnrichmentFacts.SetAlbumCoverEnriched | beatlocker-server/src/tasks/import_external_metadata_task.rs:243-253 | the same for the album cover update |
| EnrichmentFacts.SetArtistCoverEnriched | beatlocker-server/src/tasks/import_external_metadata_task.rs:285-295 | the same for the artist cover update |
| EnrichmentFacts.SetCoverEnriched | beatlocker-server/src/tasks/import_external_metadata_task.rs:204-295 | the same for any of the three cover updates |
| EnrichmentFacts.FetchCoverArtEnriched | beatlocker-server/src/tasks/mod.rs:508-532 | `insert_cover_art` changes only the cover-art table, and only by adding |
| EnrichmentFacts.FetchAndSetEnriched | beatlocker-server/src/tasks/import_external_metadata_task.rs:204-295 | a fetched cover stored on a target whose cover was missing fills that cover and nothing else |
| EnrichmentFacts.StoreCoverEnriched | beatlocker-server/src/tasks/import_external_metadata_task.rs:204-295 | a cover update fills the target's missing cover and nothing else |
| EnrichmentFacts.UpdateArtistEnriched | beatlocker-server/src/tasks/import_external_metadata_task.rs:127-144 | `update_artist` fills blanks only and leaves the folder children alone |
| EnrichmentFacts.UpdateGenreEnriched | beatlocker-server/src/tasks/import_external_metadata_task.rs:146-180 | `update_genre` fills blanks only and leaves the folder children alone |
| EnrichmentFacts.UpdateSongCoverEnriched | beatlocker-server/src/tasks/import_external_metadata_task.rs:182-217 | `update_song_cover_art` fills blanks only |
| EnrichmentFacts.UpdateAlbumCoverEnriched | beatlocker-server/src/tasks/import_external_metadata_task.rs:219-257 | `update_album_cover_art` fills blanks only |
| EnrichmentFacts.UpdateArtistCoverEnriched | beatlocker-server/src/tasks/import_external_metadata_task.rs:259-298 | `update_artist_cover_art` fills blanks only |
| EnrichmentFacts.StepKeptRefl | beatlocker-server/src/tasks/import_external_metadata_task.rs:89-113 | what a step keeps is reflexive |
| EnrichmentFacts.StepKeptTrans | beatlocker-server/src/tasks/import_external_metadata_task.rs:89-113 | what a step keeps composes |
| EnrichmentFacts.StepEnriched | beatlocker-server/src/tasks/import_external_metadata_task.rs:89-113 | each of the five steps fills blanks only |
| EnrichmentFacts.UnitKept | beatlocker-server/src/tasks/import_external_metadata_task.rs:89-113 | a step under `wrap_err` after the re-read fills blanks only, whether it fails or not |
| EnrichmentFacts.ThenKept | beatlocker-server/src/tasks/import_external_metadata_task.rs:89-113 | chaining a further step keeps filling blanks only |
| EnrichmentFacts.GrowsRefl | beatlocker-server/src/tasks/import_external_metadata_task.rs:73-122 | what a run keeps is reflexive |
| EnrichmentFacts.GrowsTrans | beatlocker-server/src/tasks/import_external_metadata_task.rs:73-122 | what a run keeps composes |
| EnrichmentFacts.RunUnitEnriched | beatlocker-server/src/tasks/import_external_metadata_task.rs:78-118 | one unit fills blanks only and, of the folder children, sets just its own `last_updated` to the run's clock reading `ctx.now` |
| EnrichmentFacts.ProcessSongEnriched | beatlocker-server/src/tasks/import_external_metadata_task.rs:78-118 | the same for the whole spawned body |
| EnrichmentFacts.SongUnitGrows | beatlocker-server/src/tasks/import_external_metadata_task.rs:78-118 | the task's own unit fills blanks only |
| EnrichmentFacts.ProcessRowsEnriched | beatlocker-server/src/tasks/import_external_metadata_task.rs:75-119 | running the units of a range of rows fills blanks only |
| EnrichmentFacts.RunChunksEnriched | beatlocker-server/src/tasks/import_external_metadata_task.rs:73-122 | the chunk loop fills blanks only, however it ends |
| EnrichmentFacts.EnrichFillsBlanksOnly | beatlocker-server/src/tasks/import_external_metadata_task.rs:29-125 | the whole run only fills missing genres, covers and MusicBrainz ids, adds cover art and moves `last_updated`: no row is added or removed and no present value is overwritten |
| EnrichmentFacts.DisabledDoesNothing | beatlocker-server/src/tasks/import_external_metadata_task.rs:30-32 | with the option off nothing happens and the task succeeds |
| EnrichmentFacts.CompleteSongNotSelected | beatlocker-server/src/tasks/import_external_metadata_task.rs:48-51 | a song with cover, genre, artist cover and album cover all present is never a candidate |
| EnrichmentProperties.SelectedRowDecodes | beatlocker-server/src/tasks/import_external_metadata_task.rs:40-68 | a selected song's row decodes exactly when the song's artist is stored, and then names the song, the child and the artist |
| EnrichmentProperties.RetryOnlyWhenFirstEmpty | beatlocker-server/src/tasks/import_external_metadata_task.rs:365-367 | once the first Discogs search has a result, the retry is not sent |
| EnrichmentProperties.RetryWhenFirstEmpty | beatlocker-server/src/tasks/import_external_metadata_task.rs:368-378 | an empty first answer is retried without the album title, and the retry's answer is the result |
| EnrichmentProperties.FetchCoverArtId | beatlocker-server/src/tasks/mod.rs:508-532 | the cover id is the hash of the redirected URL's path and is stored afterwards; an error changes nothing; success adds at most that one image |
| EnrichmentProperties.FetchCoverArtReuses | beatlocker-server/src/tasks/mod.rs:518-519 | an image already stored under the id is reused without downloading |
| EnrichmentProperties.StoreCoverNeedsUrl | beatlocker-server/src/tasks/import_external_metadata_task.rs:204-214 | a cover update changes nothing unless a non-empty URL was found and its HEAD request succeeds |
| EnrichmentProperties.StoreCoverSets | beatlocker-server/src/tasks/import_external_metadata_task.rs:204-214 | with a usable URL the target gets the hashed id as its cover |
| EnrichmentProperties.NoTokenNoDiscogsCovers | beatlocker-server/src/tasks/import_external_metadata_task.rs:226 | without a Discogs token the album and artist cover steps are no-ops (also line 265) |
| EnrichmentProperties.UnitDropsStepError | beatlocker-server/src/utils/mod.rs:50-61 | `wrap_err` around an update, with the empty fallback, as a unit runs it: after a successful re-read the step ends `Done` whatever the update returned, so its error never escapes, and a failing update's writes stay; a failed re-read (the inner `?`) ends the unit `Failed` with nothing written |
| EnrichmentProperties.RunUnitOutcome | beatlocker-server/src/tasks/import_external_metadata_task.rs:88-117 | a unit succeeds exactly when its song and artist are stored, and fails otherwise |
| EnrichmentProperties.ArtistMbidFilled | beatlocker-server/src/tasks/import_external_metadata_task.rs:127-144 | a missing MusicBrainz artist id the lookup finds is stored and survives the later steps |
| EnrichmentProperties.ArtistStepKeepsSongs | beatlocker-server/src/tasks/import_external_metadata_task.rs:127-144 | the artist step writes the artist only |
| EnrichmentProperties.GenreStepSets | beatlocker-server/src/tasks/import_external_metadata_task.rs:146-180 | on a song without a genre, the genre step stores the title-cased genre found |
| EnrichmentProperties.GenreFilled | beatlocker-server/src/tasks/import_external_metadata_task.rs:146-180 | that genre survives the later steps |
| EnrichmentProperties.SongCoverFilled | beatlocker-server/src/tasks/import_external_metadata_task.rs:182-217 | the song cover step stores the hashed id of a usable URL as the song's cover |
| EnrichmentProperties.AlbumCoverFilled | beatlocker-server/src/tasks/import_external_metadata_task.rs:219-257 | the album cover step stores it as the stored album's cover |
| EnrichmentProperties.ArtistCoverFilled | beatlocker-server/src/tasks/import_external_metadata_task.rs:259-298 | the artist cover step stores it as the artist's cover |
| EnrichmentProperties.CooledNotSelected | beatlocker-server/src/tasks/import_external_metadata_task.rs:37-52 | a child updated at `now` is not stale for any cutoff up to `now`, so its song is not selected through it |
| EnrichmentProperties.ProcessSongCools | beatlocker-server/src/tasks/import_external_metadata_task.rs:88 | a unit sets its own child's `last_updated` to the run's clock reading `ctx.now` and keeps other such children so |
| EnrichmentProperties.SongUnitCools | beatlocker-server/src/tasks/import_external_metadata_task.rs:78-118 | the task's own unit cools its child |
| EnrichmentProperties.ProcessRowsKeepsCooled | beatlocker-server/src/tasks/import_external_metadata_task.rs:75-119 | children cooled before a range of units stay cooled |
| EnrichmentProperties.ProcessRowsCools | beatlocker-server/src/tasks/import_external_metadata_task.rs:75-119 | after a range of units, the child of every row in it is cooled |
| EnrichmentProperties.ProcessRowsSplit | beatlocker-server/src/tasks/import_external_metadata_task.rs:73-122 | running two adjacent ranges is running their union |
| EnrichmentProperties.ChunksInvisible | beatlocker-server/src/tasks/import_external_metadata_task.rs:70-122 | when every row decodes, the chunks run every unit in order and the run succeeds |
| EnrichmentProperties.ChunkStart | beatlocker-server/src/tasks/import_external_metadata_task.rs:70 | the chunk holding a row starts at a multiple of the chunk size and contains it |
| EnrichmentProperties.RunChunksPanics | beatlocker-server/src/tasks/import_external_metadata_task.rs:56-75 | when a row is the first that cannot be decoded, every unit of the earlier chunks runs, none of its own chunk does, and the task panics |
| EnrichmentProperties.RunOutcome | beatlocker-server/src/tasks/import_external_metadata_task.rs:29-125 | the run panics exactly when some row cannot be decoded, and never ends in an ordinary failure |
| EnrichmentProperties.FirstUndecodable | beatlocker-server/src/tasks/import_external_metadata_task.rs:56-68 | the first undecodable row exists when some row cannot be decoded, and all before it decode |
| EnrichmentProperties.CandidateRow | beatlocker-server/src/tasks/import_external_metadata_task.rs:40-53 | a selected song and child has a row naming that child |
| EnrichmentProperties.CandidatesCooledDown | beatlocker-server/src/tasks/import_external_metadata_task.rs:36-52 | over the rows of the query at the run's start minus 96 hours, a run in which every row decodes completes, and every candidate's folder child was last updated at the run's start, the model's one clock reading `ctx.now` (also line 88) |
| EnrichmentProperties.CooledStaleAgain | beatlocker-server/src/tasks/import_external_metadata_task.rs:37-52 | a child updated at `now` is stale for a run started at `later` exactly when `later` is more than 96 hours after `now` |
| EnrichmentProperties.NextRunSkipsCandidates | beatlocker-server/src/tasks/import_external_metadata_task.rs:36-52 | a run started at most 96 hours after such a run selects no song through a folder child that was a candidate of the first run |
| EnrichmentTask.FetchCoverArtInto | beatlocker-server/src/tasks/mod.rs:508-532 | the store method agrees with the specification of `insert_cover_art` |
| EnrichmentTask.SetCoverOn | beatlocker-server/src/tasks/import_external_metadata_task.rs:208-212 | the cover `UPDATE` on the target (also lines 247-251, 289-293) |
| EnrichmentTask.StoreCoverOn | beatlocker-server/src/tasks/import_external_metadata_task.rs:204-214 | the shared tail of the cover updates agrees with its specification |
| EnrichmentTask.GetDbSongInfoFrom | beatlocker-server/src/tasks/import_external_metadata_task.rs:300-324 | the re-read returns what the specification of `get_db_song_info` says |
| EnrichmentTask.UpdateArtistOn | beatlocker-server/src/tasks/import_external_metadata_task.rs:127-144 | `update_artist` on the store agrees with its specification |
| EnrichmentTask.UpdateGenreOn | beatlocker-server/src/tasks/import_external_metadata_task.rs:146-180 | `update_genre`, likewise |
| EnrichmentTask.UpdateSongCoverOn | beatlocker-server/src/tasks/import_external_metadata_task.rs:182-217 | `update_song_cover_art`, likewise |
| EnrichmentTask.UpdateAlbumCoverOn | beatlocker-server/src/tasks/import_external_metadata_task.rs:219-257 | `update_album_cover_art`, likewise |
| EnrichmentTask.UpdateArtistCoverOn | beatlocker-server/src/tasks/import_external_metadata_task.rs:259-298 | `update_artist_cover_art`, likewise |
| EnrichmentTask.UnitOn | beatlocker-server/src/tasks/import_external_metadata_task.rs:89-113 | one `wrap_err(update_*(get_db_song_info()?))`: a failed re-read ends the unit, an update's own error is dropped |
| EnrichmentTask.ProcessSongOn | beatlocker-server/src/tasks/import_external_metadata_task.rs:78-118 | the spawned body: the touch, then the five steps, stopping at the first `?` |
| EnrichmentTask.DecodeChunk | beatlocker-server/src/tasks/import_external_metadata_task.rs:56-70 | a chunk decodes exactly when each of its rows does, into the decoded rows in order |
| EnrichmentTask.SongUnitOn | beatlocker-server/src/tasks/import_external_metadata_task.rs:78-121 | one unit as the chunk loop sees it, its outcome dropped |
| EnrichmentTask.RunChunkOn | beatlocker-server/src/tasks/import_external_metadata_task.rs:75-121 | the units of one decoded chunk, one after the other |
| EnrichmentTask.RunChunksOn | beatlocker-server/src/tasks/import_external_metadata_task.rs:73-122 | the chunk loop agrees with its specification |
| EnrichmentTask.SongUnitIsSongUnit | beatlocker-server/src/tasks/import_external_metadata_task.rs:78-118 | the task's own unit is the one the chunk loop runs |
| EnrichmentTask.ImportExternalMetadata | beatlocker-server/src/tasks/import_external_metadata_task.rs:29-125 | `import_external_metadata` over the candidate rows agrees with its specification |
| Providers.FromProvider | beatlocker-server/src/tasks/providers/mod.rs:90-92 | the URI is the provider name, a colon, and the id: length, prefix and suffix stated |
| Providers.ToString | beatlocker-server/src/tasks2/providers/mod.rs:14-23 | `to_string` is the wrapped text itself |
| Providers.FromProviderSplit | beatlocker-server/src/tasks2/providers/mod.rs:25-27 | for a colon-free provider name, splitting the URI at its first colon gives back the name and the id |
| Providers.FromProviderInjective | beatlocker-server/src/tasks/providers/mod.rs:90-92 | under one provider name, equal URIs mean equal ids |
| Providers.ProvidersApart | beatlocker-server/src/tasks/providers/mod.rs:90-92 | different colon-free provider names never give the same URI |
| Providers.NewProviderList | beatlocker-server/src/tasks/providers/mod.rs:29-38 | MusicBrainz is always first; Discogs follows exactly when a token is configured, with that token |
| Providers.FirstHit | beatlocker-server/src/tasks/providers/mod.rs:43-74 | the provider loop answers `Ok(None)` exactly when every provider does; otherwise it answers what the first provider that did not answer `Ok(None)` answered, a value or an error |
| Providers.FirstHitStops | beatlocker-server/src/tasks/providers/mod.rs:43-74 | once a provider has answered, the providers after it are not consulted |
| MusicBrainz.BuildQuery | beatlocker-server/src/tasks/providers/musicbrainz.rs:119-130 | the builder steps yield exactly `QueryTerms`, the query the search receives: one term per given artist, title and album, each exactly when given, in that order |
| MusicBrainz.QueryTermsShape | beatlocker-server/src/tasks/providers/musicbrainz.rs:119-132 | the query handed to `Recording::search` has one term per given field and each field's term exactly when it is given, in builder order |
| MusicBrainz.PairsOf | beatlocker-server/src/tasks/providers/musicbrainz.rs:136-142 | one recording paired with each of its releases, in order |
| MusicBrainz.PairsMembers | beatlocker-server/src/tasks/providers/musicbrainz.rs:133-142 | a pair is a candidate exactly when its release belongs to one of the recordings found |
| MusicBrainz.PairsConcat | beatlocker-server/src/tasks/providers/musicbrainz.rs:133-142 | the candidates of earlier recordings come first |
| MusicBrainz.MaxTrackCount | beatlocker-server/src/tasks/providers/musicbrainz.rs:144-152 | the largest track count of the release's media, 0 without media |
| MusicBrainz.CandidateLeTotal | beatlocker-server/src/tasks/providers/musicbrainz.rs:143-156 | comparing candidates by the key (track count, title distance) is a total preorder |
| MusicBrainz.FindRecordingReleases | beatlocker-server/src/tasks/providers/musicbrainz.rs:114-163 | the search runs on the query built from the given album, artist and title; never an error: a failed search gives no candidates; otherwise the candidates are a permutation of all (recording, release) pairs |
| MusicBrainz.CandidatesSorted | beatlocker-server/src/tasks/providers/musicbrainz.rs:143-156 | the candidates are ordered by their key |
| MusicBrainz.CandidatesStable | beatlocker-server/src/tasks/providers/musicbrainz.rs:143-157 | candidates with equal keys keep the order of the search results |
| MusicBrainz.FirstCredit | beatlocker-server/src/tasks/providers/musicbrainz.rs:32-54 | the first artist credit as an `mb:` URI and name, absent exactly when there are no credits |
| MusicBrainz.ToRelease | beatlocker-server/src/tasks/providers/musicbrainz.rs:31-81 | the release built from a candidate: album from the release, song from the recording, artist and album artist from their first credits, the first genre, the release's date |
| MusicBrainz.ReleaseUrisAreMb | beatlocker-server/src/tasks/providers/musicbrainz.rs:31-81 | every URI of such a release splits back into `mb` and the MusicBrainz id it came from |
| MusicBrainz.FindRelease | beatlocker-server/src/tasks/providers/musicbrainz.rs:26-82 | never an error; no release exactly when there are no candidates; otherwise the release built from the first candidate |
| MusicBrainz.FirstCoverUrl | beatlocker-server/src/tasks/providers/musicbrainz.rs:86-103 | the URL of the first candidate whose cover fetch gives a usable URL, failed fetches skipped; none when no candidate has one |
| MusicBrainz.FindCoverArt | beatlocker-server/src/tasks/providers/musicbrainz.rs:84-104 | never an error, and never a URL on `http://coverartarchive.org` |
| Discogs.MissingTermSearchedAsEmpty | beatlocker-server/src/tasks/providers/discogs.rs:63-68 | a missing album or artist is searched for as the empty string |
| Discogs.FirstThumbnail | beatlocker-server/src/tasks/providers/discogs.rs:77-82 | the first artist with a thumbnail, none when no artist has one |
| Discogs.ScanResults | beatlocker-server/src/tasks/providers/discogs.rs:72-85 | the scan answers `Ok(None)` exactly when no result yields a photo or an error, and otherwise what the first such result yields |
| Discogs.FindArtistPhoto | beatlocker-server/src/tasks/providers/discogs.rs:55-86 | a failed search is an error; otherwise the answer is the scan over the search results |
| Discogs.ResultsWithoutResourceSkipped | beatlocker-server/src/tasks/providers/discogs.rs:72-73 | results without a resource link are skipped: dropping them changes nothing |
| Discogs.NoThumbnailNoPhoto | beatlocker-server/src/tasks/providers/discogs.rs:72-85 | with no thumbnail behind any result there is no photo |
| ProviderList.ReleaseFromMusicBrainz | beatlocker-server/src/tasks/providers/mod.rs:43-51 | releases only ever come from MusicBrainz, whatever the token: Discogs never knows one |
| ProviderList.CoverArtFromMusicBrainz | beatlocker-server/src/tasks/providers/mod.rs:53-61 | cover art only ever comes from MusicBrainz |
| ProviderList.ArtistPhotoFromDiscogs | beatlocker-server/src/tasks/providers/mod.rs:63-74 | artist photos only ever come from Discogs, and so only with a token |
| ApiClients.LastFmArtist.Image | beatlocker-server/src/utils/api_clients.rs:116-123 | the text of the first image of the requested size, none when no image has that size |
| ApiClients.Get | beatlocker-server/src/utils/api_clients.rs:207-241 | a transport error propagates; a 404 is "nothing there" without reading the body; a body that fails to read is an error; a body that does not decode is "nothing there"; otherwise the decoded value |
| ApiClients.NotFoundIgnoresBody | beatlocker-server/src/utils/api_clients.rs:224-226 | on a 404 the decoder is never consulted |
| ApiClients.DecodeAll | beatlocker-server/src/utils/api_clients.rs:52-103 | a list decodes exactly when every element does, element by element |
| ApiClients.DefaultList | beatlocker-server/src/utils/api_clients.rs:31 | `#[serde(default)]`: an absent list decodes as empty (also lines 37, 58-63, 79, 95) |
| ApiClients.DecodeArtist | beatlocker-server/src/utils/api_clients.rs:77-82 | an artist decodes exactly when its id is present and its tags decode; absent tags are none |
| ApiClients.DecodeRecording | beatlocker-server/src/utils/api_clients.rs:57-65 | absent `artist-credit`, `releases` and `tags` each decode as empty, and the recording decodes exactly when all three lists do |
| ApiClients.DecodeMaster | beatlocker-server/src/utils/api_clients.rs:30-33 | absent `images` decode as none; present ones keep their resource URLs |
| ApiClients.DecodeResource | beatlocker-server/src/utils/api_clients.rs:36-40 | absent `artists` decode as none; present ones keep their thumbnails |
| ApiClients.DecodeCoverArtImages | beatlocker-server/src/utils/api_clients.rs:94-102 | absent `images` decode as none; present ones keep their image URLs |
| SortedMaps.Get | beatlocker-server/src/api/get_genres.rs:62 | `BTreeMap::get` finds nothing exactly when no entry has the key, and otherwise returns the value of an entry with that key |
| SortedMaps.GetSorted | beatlocker-server/src/api/get_genres.rs:62 | in a map with strictly ascending keys, looking up an entry's key returns that entry's value |
| SortedMaps.Put | beatlocker-server/src/api/get_genres.rs:52-57 | insertion keeps the keys ascending, sets the inserted key's value and leaves every other key's lookup unchanged |
| SortedMaps.PutBeyond | beatlocker-server/src/api/get_genres.rs:56-61 | a key above every key of the map is appended at the end |
| SortedMaps.PutAfterLast | beatlocker-server/src/api/get_genres.rs:57-62 | inserting the last key a second time replaces its value in place |
| SortedMaps.LastValue | beatlocker-server/src/api/get_genres.rs:52-53 | the value of a key among rows is that of the last row with the key, and there is none exactly when no row has it |
| SortedMaps.Collect | beatlocker-server/src/api/get_genres.rs:52-53 | `collect` into a `BTreeMap` yields strictly ascending keys |
| SortedMaps.CollectGet | beatlocker-server/src/api/get_genres.rs:52-53 | after collecting, a key's value is the value of its last row: later rows overwrite earlier ones |
| SortedMaps.Values | beatlocker-server/src/api/get_genres.rs:67 | `into_values` lists the values in key order, one per entry |
| Genres.KeyRows | beatlocker-server/src/api/get_genres.rs:24-48 | each counting row keeps its count, and a NULL genre is counted under the unknown-genre name |
| Genres.MergeSpec | beatlocker-server/src/api/get_genres.rs:55-63 | the merged map has one genre per song-count entry, with that entry's key and song count and the album count of the same key, or 0 |
| Genres.MergeSpecSorted | beatlocker-server/src/api/get_genres.rs:55-63 | merging ascending song counts gives ascending keys |
| Genres.EntryBeyond | beatlocker-server/src/api/get_genres.rs:57-62 | on a key above every key so far, `or_insert` inserts a new genre and the album-count update replaces it at the end |
| Genres.MergeGenres | beatlocker-server/src/api/get_genres.rs:55-63 | the merge loop, proved by its invariant to leave exactly the merged map, with ascending keys |
| Genres.GenresIntoXml | beatlocker-server/src/api/get_genres.rs:108-123 | the XML list has the same genres, in order, with the same song count, album count and value |
| Genres.GetGenres | beatlocker-server/src/api/get_genres.rs:11-70 | the handler renders the merged genres, in key order, of the two counting queries |
| Genres.GenresAscending | beatlocker-server/src/api/get_genres.rs:52-67 | the genres come out strictly ascending by value |
| Genres.GenresEntries | beatlocker-server/src/api/get_genres.rs:15-67 | a genre is listed exactly when a song row has it; its song count is that of its last song row, its album count that of its last album row, or 0 |
| Genres.AlbumOnlyGenreDropped | beatlocker-server/src/api/get_genres.rs:55-63 | a genre that only album rows have is not listed |
| Listings.Search3Queries | beatlocker-server/src/api/search3.rs:36-64 | each count defaults to 20 and each offset to 0; nothing is limited to starred rows or to a folder; albums come from the tag-based query |
| Listings.StarredQueries | beatlocker-server/src/api/get_starred.rs:21-49 | all three queries are limited to starred rows, ask for up to 1000 rows from the first, and take albums from the query asked for |
| Listings.Search3Defaults | beatlocker-server/src/api/search3.rs:36-64 | a search without parameters runs the three default queries |
| Listings.AlbumItems | beatlocker-server/src/api/search3.rs:113-119 | every album becomes an album item, in order |
| Listings.ArtistItems | beatlocker-server/src/api/search3.rs:120-126 | every artist becomes an artist item, in order |
| Listings.SongItems | beatlocker-server/src/api/search3.rs:127-133 | every song becomes a song item, in order |
| Listings.Items | beatlocker-server/src/api/search3.rs:108-137 | the XML items are every album, then every artist, then every song, each list in its order |
| Listings.IntoXml | beatlocker-server/src/api/search3.rs:108-137 | the XML listing is named by the element of the listing it came from |
| Listings.OfConcat | beatlocker-server/src/api/search3.rs:108-137 | splitting items back into albums, artists and songs distributes over concatenation |
| Listings.OfAlbumItems | beatlocker-server/src/api/search3.rs:113-119 | album items read back as the albums, with no artists or songs |
| Listings.OfArtistItems | beatlocker-server/src/api/search3.rs:120-126 | artist items read back as the artists, with no albums or songs |
| Listings.OfSongItems | beatlocker-server/src/api/search3.rs:127-133 | song items read back as the songs, with no albums or artists |
| Listings.ItemsRoundTrip | beatlocker-server/src/api/search3.rs:108-137 | the XML items lose nothing: each kind reads back as the list it came from |
| Listings.CollectItems | beatlocker-server/src/api/search3.rs:112-135 | the three `extend` calls on a growing vector build exactly the item list |
| Listings.ListingOf | beatlocker-server/src/api/search3.rs:66-74 | the listing holds the rows of the song, artist and album queries, the albums from the folder-based or the tag-based query as asked |
| Listings.RenderListing | beatlocker-server/src/api/search3.rs:36-74 | running the three queries and rendering gives the rendered listing of their rows |
| Listings.Search3 | beatlocker-server/src/api/search3.rs:29-75 | `search3` renders `searchResult3` with the rows of its defaulted queries |
| Listings.GetStarred | beatlocker-server/src/api/get_starred.rs:15-60 | `getStarred` renders `starred` with the starred rows, albums from the folder-based query |
| Listings.GetStarred2 | beatlocker-server/src/api/get_starred2.rs:15-60 | `getStarred2` renders `starred2` with the starred rows, albums from the tag-based query |
| Format.FromRequest | beatlocker-server/src/api/format.rs:72-102 | JSON is chosen exactly when `f` is `json`; a missing parameter or any other value gives XML; the server version is carried over |
| Format.MapOption | beatlocker-server/src/api/format.rs:46 | mapping an option keeps whether it is set and applies the function to its value |
| Format.Render | beatlocker-server/src/api/format.rs:23-61 | both formats carry status `ok`, API version 1.16.1, type `beatlocker` and the server version; JSON carries the data as is; XML is sent as `application/xml` and carries the data's XML conversion |
| Format.RenderNone | beatlocker-server/src/api/format.rs:23-61 | rendering no data gives the bare envelope in either format (also lines 140-146) |
| Format.ResponseIntoXml | beatlocker-server/src/api/format.rs:148-160 | every envelope field and the data are carried over to the XML response |
| Format.ResponseIntoXmlLossless | beatlocker-server/src/api/format.rs:148-160 | converting an envelope to XML loses nothing |
| Format.XmlUnlessJson | beatlocker-server/src/api/format.rs:81-101 | every value of `f` but `json`, and a missing or undecodable one, selects XML |
| Format.RenderAgrees | beatlocker-server/src/api/format.rs:29-59 | the XML rendering is the XML conversion of the JSON envelope with its data converted (also lines 148-160) |
| Auth.HexValue | beatlocker-server/src/api/auth.rs:64 | a hex digit of either case has a value below 16 |
| Auth.HexDecode | beatlocker-server/src/api/auth.rs:64 | a decoded hex string has two digits per byte; an odd length or a non-hex character is an error |
| Auth.LowerHexDigit | beatlocker-server/src/api/auth.rs:64 | the lower-case digit of a value below 16 decodes back to that value |
| Auth.HexRoundTrip | beatlocker-server/src/api/auth.rs:64 | hex decoding reverses hex encoding |
| Auth.AsciiText | beatlocker-server/src/api/auth.rs:64 | ASCII bytes read as text give the characters of the same codes |
| Auth.CheckLegacyUser | beatlocker-server/src/api/auth.rs:61-72 | a legacy login is accepted exactly when the user name matches and the password matches, after `enc:` hex decoding |
| Auth.RequireAuth | beatlocker-server/src/api/auth.rs:22-53 | without credentials configured every request passes; otherwise an undecodable query fails; `t` and `s` are checked by token, else `u` and `p` by the legacy check, else the request fails; every failure is 401 |
| Auth.LegacyPasswordEncoded | beatlocker-server/src/api/auth.rs:62-67 | a password behind `enc:` is the lossy text of its hex decoding, and undecodable hex gives the empty password |
| Auth.EncodedPasswordAccepted | beatlocker-server/src/api/auth.rs:61-72 | an ASCII password sent as `enc:` and its hex encoding is accepted |
| Auth.TokenPreferred | beatlocker-server/src/api/auth.rs:33-38 | when `t` and `s` are both given the token check alone decides: the lower-cased token must equal the MD5 of the password and salt (also lines 55-59) |
| Auth.TokenCaseInsensitive | beatlocker-server/src/api/auth.rs:58 | the token is compared without regard to case |
| Auth.CheckUserExample | beatlocker-server/src/api/auth.rs:78-93 | the module's token test: `sesame` salted with `c19b2d` gives the token, `snuh` does not |
| Auth.LowerOfLowerHex | beatlocker-server/src/api/auth.rs:57-58 | lower-case hex text is its own lower-casing |
| Auth.LegacyPlainExamples | beatlocker-server/src/api/auth.rs:97-100 | the module's plain legacy tests: `foo` is accepted, `bar` and `enc` are not |
| Auth.LegacyEncodedExample | beatlocker-server/src/api/auth.rs:98 | `enc:666f6f` is accepted as `foo` |
| Auth.LegacyEmptyHexExample | beatlocker-server/src/api/auth.rs:101 | `enc:` decodes to the empty password and is refused |
| Auth.LegacyBadHexExample | beatlocker-server/src/api/auth.rs:102-105 | `enc:randomstuff` is not hex, decodes to the empty password and is refused |
| Star.ParsedOne | beatlocker-server/src/api/star.rs:27 | a string contributes one id when it parses and none otherwise |
| Star.ParseAll | beatlocker-server/src/api/star.rs:27-29 | parsing never yields more ids than strings |
| Star.ParseAllMembers | beatlocker-server/src/api/star.rs:27-29 | the parsed ids are exactly the values of the strings that parse |
| Star.ParseAllSnoc | beatlocker-server/src/api/star.rs:27-29 | parsing one more string appends its id, if any |
| Star.Texts | beatlocker-server/src/api/star.rs:27 | each id's hyphenated text, in order |
| Star.ParseAllTexts | beatlocker-server/src/api/star.rs:27-29 | with a parser that reads hyphenated text back, every id written out comes back, in order |
| Star.AllIds | beatlocker-server/src/api/star.rs:24-31 | `all_ids` never yields more ids than strings given |
| Star.AllIdsMembers | beatlocker-server/src/api/star.rs:24-31 | an id is collected exactly when some string of `id`, `albumId` or `artistId` parses to it |
| Star.ExtendParsed | beatlocker-server/src/api/star.rs:27-29 | the `extend` loop appends exactly the parsed ids |
| Star.CollectAllIds | beatlocker-server/src/api/star.rs:24-31 | the three `extend` calls build exactly `all_ids` |
| Star.StarAllContents | beatlocker-server/src/api/star.rs:40-46 | starring adds exactly the ids, keeps every existing entry, and stamps a new entry with the time of its first insert |
| Star.StarAllIdempotent | beatlocker-server/src/api/star.rs:40-46 | starring the same ids again changes nothing, whatever the clock says |
| Star.StarAllKeeps | beatlocker-server/src/api/star.rs:41 | starring ids that are all starred changes nothing: `INSERT OR IGNORE` |
| Star.StarHandler | beatlocker-server/src/api/star.rs:34-49 | `star` changes only the `starred` table, to the result of inserting every parsed id in order, and renders the bare envelope |
| Star.Targets | beatlocker-server/src/api/star.rs:76 | an id deletes itself, and also the folder child the query found, if any |
| Star.Keys | beatlocker-server/src/api/star.rs:76-82 | the keys deleted are exactly the targets |
| Star.UnstarAllContents | beatlocker-server/src/api/star.rs:57-83 | unstarring keeps exactly the entries that no id's targets include, with their values |
| Star.UnstarDeletesOnlyMatches | beatlocker-server/src/api/star.rs:60-82 | with a faithful lookup, a deleted entry is an unstarred id or a folder child whose id or song id is one |
| Star.UnstarNotStarred | beatlocker-server/src/api/star.rs:57-83 | unstarring ids none of whose targets is starred changes nothing |
| Star.UnstarAfterStar | beatlocker-server/src/api/star.rs:34-86 | unstarring what was just starred leaves none of the ids and nothing new, with old entries' values kept |
| Star.DeleteTargets | beatlocker-server/src/api/star.rs:76-82 | the deletes of one id's targets remove exactly those keys from `starred` and change nothing else |
| Star.UnstarHandler | beatlocker-server/src/api/star.rs:51-86 | `unstar` changes only the `starred` table, to the result of deleting each parsed id's targets in order, and renders the bare envelope |
| Indexes.MapSeq | beatlocker-server/src/api/get_indexes.rs:34-41 | mapping keeps the length and maps each element in place |
| Indexes.IndexLeTotalPreorder | beatlocker-server/src/api/get_indexes.rs:57 | ordering indexes by name is a total preorder, as `sorted_by_key` needs |
| Indexes.Grouped | beatlocker-server/src/api/get_indexes.rs:49-56 | before sorting there is one index per maximal run of equal first characters, built from that run |
| Indexes.EntriesConcat | beatlocker-server/src/api/get_indexes.rs:49-58 | the entries of concatenated index lists are the concatenation of their entries |
| Indexes.GroupedEntries | beatlocker-server/src/api/get_indexes.rs:49-56 | before sorting, the indexes hold every entry once, in input order |
| Indexes.GroupedUniform | beatlocker-server/src/api/get_indexes.rs:51-55 | every index is nonempty and named by the first character of each of its entries, and neighbouring runs have different names |
| Indexes.EntriesInsert | beatlocker-server/src/api/get_indexes.rs:57 | inserting an index during the sort adds exactly its entries |
| Indexes.EntriesSortBy | beatlocker-server/src/api/get_indexes.rs:57 | sorting the indexes keeps the same entries, each as often as before |
| Indexes.GroupSorted | beatlocker-server/src/api/get_indexes.rs:57 | the sorted indexes are ascending by name |
| Indexes.GroupEntries | beatlocker-server/src/api/get_indexes.rs:49-58 | sorting moves whole indexes, and every entry is still there exactly once |
| Indexes.GroupStable | beatlocker-server/src/api/get_indexes.rs:57 | the sort is stable: indexes with the same name keep the order their runs had |
| Indexes.IndexesIntoXml | beatlocker-server/src/api/get_indexes.rs:105-114 | the XML response carries the same indexes and ignored articles |
| Indexes.FolderEntry | beatlocker-server/src/api/get_indexes.rs:34-41 | a folder's entry has the folder's hyphenated id, its name and an album count of 1 |
| Indexes.GetIndexes | beatlocker-server/src/api/get_indexes.rs:20-64 | 404 exactly when no folder is listed (children of the music folder, or every non-root folder); otherwise the rendered indexes of the listed folders with the fixed ignored articles |
| Indexes.FoldersListedOnce | beatlocker-server/src/api/get_indexes.rs:27-58 | every listed folder is an entry exactly once, and the indexes are ascending |
| Indexes.ArtistsIntoXml | beatlocker-server/src/api/get_artists.rs:93-102 | the XML response carries the same indexes and ignored articles |
| Indexes.ArtistEntry | beatlocker-server/src/api/get_artists.rs:38-42 | an artist's entry copies its id, name and album count |
| Indexes.GetArtistsImpl | beatlocker-server/src/api/get_artists.rs:24-52 | the artists are grouped with the fixed ignored articles, and no artist gives no index |
| Indexes.ArtistsListedOnce | beatlocker-server/src/api/get_artists.rs:31-46 | every artist is listed exactly once, and the indexes are ascending by name |
| ArtistInfoApi.ArtistInfoIntoXml | beatlocker-server/src/api/get_artist_info.rs:203-216 | the XML answer is `artistInfo` with the same info |
| ArtistInfoApi.ArtistInfo2IntoXml | beatlocker-server/src/api/get_artist_info.rs:218-231 | the XML answer is `artistInfo2` with the same info |
| ArtistInfoApi.FirstArtistId | beatlocker-server/src/api/get_artist_info.rs:72-77 | there is no id exactly when no song of the album has an artist id |
| ArtistInfoApi.FirstArtistIdAt | beatlocker-server/src/api/get_artist_info.rs:72-77 | the loop breaks at the first song with an artist id, whose id it takes |
| ArtistInfoApi.FirstArtistIdFrom | beatlocker-server/src/api/get_artist_info.rs:72-77 | the id taken is the artist id of one of the album's songs |
| ArtistInfoApi.FindArtist | beatlocker-server/src/api/get_artist_info.rs:63-78 | the lookups and the album scan find exactly the resolved artist |
| ArtistInfoApi.FillInfo | beatlocker-server/src/api/get_artist_info.rs:82-127 | without a key Last.fm is not asked; with one, its error is returned and otherwise the info is filled from what it found |
| ArtistInfoApi.GetArtistInfoImpl | beatlocker-server/src/api/get_artist_info.rs:57-134 | `get_artist_info_impl`: nothing without an artist, a Last.fm error propagated, else the artist's info |
| ArtistInfoApi.GetArtistInfo | beatlocker-server/src/api/get_artist_info.rs:19-35 | `getArtistInfo` accepts artist, song and album ids and answers 404 without an artist |
| ArtistInfoApi.GetArtistInfo2 | beatlocker-server/src/api/get_artist_info.rs:37-55 | `getArtistInfo2` accepts only artist ids, answers 404 without one, and wraps the info as `artistInfo2` |
| ArtistInfoApi.ResolvedIsArtist | beatlocker-server/src/api/get_artist_info.rs:63-78 | a found artist is a row of the artists table, and artist-only lookup is the table's own lookup |
| ArtistInfoApi.ResolvedAgree | beatlocker-server/src/api/get_artist_info.rs:63-78 | whatever artist-only lookup finds, the general lookup finds too |
| ArtistInfoApi.UnknownIdNotFound | beatlocker-server/src/api/get_artist_info.rs:19-78 | an id that is neither an artist, a song with an artist, nor an album with one gets a 404 from both handlers (also line 132) |
| ArtistInfoApi.NoKeyNoLastFm | beatlocker-server/src/api/get_artist_info.rs:87 | without an API key the answer does not depend on Last.fm |
| ArtistInfoApi.LastFmErrorPropagates | beatlocker-server/src/api/get_artist_info.rs:99 | a Last.fm error becomes the handler's error whenever an artist is found and a key is set |
| ArtistInfoApi.LastFmQueryShape | beatlocker-server/src/api/get_artist_info.rs:88-97 | the query names the key, JSON, `artist.getinfo` and the artist, and carries `mbid` exactly when the MusicBrainz id is known |
| ArtistInfoApi.InfoFields | beatlocker-server/src/api/get_artist_info.rs:82-126 | the info always has a biography (Last.fm's summary, else the name) and the artist's MusicBrainz id; without Last.fm every image is the cover art url, and with cover art every image is set |
| ArtistInfoApi.LastFmImageWins | beatlocker-server/src/api/get_artist_info.rs:103-121 | Last.fm's image of a size wins over the cover art url |
| ArtistInfoApi.HandlersAgree | beatlocker-server/src/api/get_artist_info.rs:24-53 | for an artist id both handlers report the same info |
| ImportTask.SongKeyInjective | beatlocker-server/src/tasks/import_folder_task.rs:214-219 | the song key string determines title, artist id and album id (nil standing for no album), so distinct tracks never share a key string |
| ImportTask.KnownPathSkipped | beatlocker-server/src/tasks/import_folder_task.rs:90-108 | a path recorded as failed or already present as a folder child is skipped: store unchanged, outcome `Done` |
| ImportTask.UnusableQuarantined | beatlocker-server/src/tasks/import_folder_task.rs:119-151 | no metadata, an extraction error or `!is_valid()` adds exactly one failed-child row keyed by the hash of the path, and no other table changes |
| ImportTask.TrackCataloged | beatlocker-server/src/tasks/import_folder_task.rs:154-253 | a usable track leaves its artist, album artist (when given), album (when titled), the album link, the song and the folder child keyed by the path in the store |
| ImportTask.CatalogWritesNamed | beatlocker-server/src/tasks/import_folder_task.rs:154-210 | the catalog statements insert the artist under `str_to_uuid(artist)`, the album artist when present, the album under `str_to_uuid(title ++ album artist or artist)` and the link to the album artist or else the artist |
| ImportTask.SongWritesNamed | beatlocker-server/src/tasks/import_folder_task.rs:212-253 | with a title, the song row and the folder child pointing at that song's derived id are written |
| ImportTask.TrackWithoutAlbum | beatlocker-server/src/tasks/import_folder_task.rs:154-173 | a track without an album title writes no album row and no album link (also lines 203-210) |
| ImportTask.NewTrackChild | beatlocker-server/src/tasks/import_folder_task.rs:243-253 | the folder child of a new path is the row built from path, folder, title and song id, with `last_updated` empty |
| ImportTask.UsableImported | beatlocker-server/src/tasks/import_folder_task.rs:152-256 | a valid, not yet known file is cataloged by exactly its track writes, and panics exactly when the title is missing (`title.unwrap()`) |
| ImportTask.FileGrows | beatlocker-server/src/tasks/import_folder_task.rs:87-256 | importing a file only adds rows: every existing row and link survives unchanged |
| ImportTask.FolderGrows | beatlocker-server/src/tasks/import_folder_task.rs:14-85 | importing a folder tree only adds rows |
| ImportTask.FileAbsorbed | beatlocker-server/src/tasks/import_folder_task.rs:87-256 | once a file's effect is in the store, importing it again changes nothing and (with a title) does not panic |
| ImportTask.FolderAbsorbed | beatlocker-server/src/tasks/import_folder_task.rs:14-85 | for a tree with proper entry names in which every usable track has a title, once the tree's effect is in the store, importing it again changes nothing and ends `Done` (or `Failed` for an unreadable directory) |
| ImportTask.ImportIdempotent | beatlocker-server/src/tasks/import_folder_task.rs:14-256 | importing the library a second time, into the catalog the first import produced, leaves the catalog as it is and ends the same way, for any tree as `read_dir` lists it (proper names, none twice in a directory), untitled tracks and their panics included, and for any tree without panics |
| ImportTask.FolderSettled | beatlocker-server/src/tasks/import_folder_task.rs:14-85 | rerunning a folder on a store that holds the first run's effect and knows no file path below it that the first run left unrecorded changes nothing and ends the same way: a chunk that panicked the first time fails the folder again |
| ImportTask.ChunksSettled | beatlocker-server/src/tasks/import_folder_task.rs:55-81 | under the same hypothesis the chunks run again as before, stopping after the same panicking chunk |
| ImportTask.UnitsSettled | beatlocker-server/src/tasks/import_folder_task.rs:59-80 | under the same hypothesis the units of a chunk rerun without change and the join set sees the same panics |
| ImportTask.EntrySettled | beatlocker-server/src/tasks/import_folder_task.rs:60-78 | under the same hypothesis one unit (file or subfolder) reruns without change and ends the same way |
| ImportTask.FileSettled | beatlocker-server/src/tasks/import_folder_task.rs:87-256 | rerunning `import_file` on a store that holds the first run's effect, where its path is recorded only if the first run recorded it, changes nothing and ends the same way, the `title.unwrap()` panic included (also line 212) |
| ImportTask.FilePlanKnown | beatlocker-server/src/tasks/import_folder_task.rs:87-256 | a first run that did not end `Done` (the file could not be opened, or the title was missing) leaves the path unrecorded |
| ImportTask.TrackWritesRecord | beatlocker-server/src/tasks/import_folder_task.rs:152-256 | a track records no path but its own, and no path at all without a title, since the panic at line 212 comes before the folder-child insert |
| ImportTask.CatalogWritesRecordNothing | beatlocker-server/src/tasks/import_folder_task.rs:154-210 | the album, artist and link inserts record no folder-child or failed-child path |
| ImportTask.FileFrame | beatlocker-server/src/tasks/import_folder_task.rs:87-256 | importing a file records no path other than its own |
| ImportTask.FolderFrame | beatlocker-server/src/tasks/import_folder_task.rs:14-85 | importing a folder records no path other than the file paths below it |
| ImportTask.EntryFrame | beatlocker-server/src/tasks/import_folder_task.rs:60-78 | one unit records no path other than the file paths in its entry |
| ImportTask.InEntryUnder | beatlocker-server/src/tasks/import_folder_task.rs:65-75 | every file path below a listed entry starts with the entry's path (`entry.path()`), followed by `/` or nothing |
| ImportTask.EntriesApart | beatlocker-server/src/tasks/import_folder_task.rs:59-78 | in a listing as `read_dir` gives it, no file path lies below two different entries |
| Catalog.ApplyRecordsOnly | beatlocker-server/src/db/mod.rs:81-315 | a statement that inserts no folder child or failed child with a path leaves that path unrecorded |
| Catalog.ApplyAllRecordsOnly | beatlocker-server/src/db/mod.rs:81-315 | a run of statements none of which inserts a folder child or failed child with a path leaves that path unrecorded (also lines 195-203) |
| ImportTask.ChunksAbsorbedOutcome | beatlocker-server/src/tasks/import_folder_task.rs:59-81 | without panics no chunk stops the listing: every chunk runs |
| ImportTask.FileNoPanic | beatlocker-server/src/tasks/import_folder_task.rs:134-152 | only a usable track without a title can make `import_file` panic (also line 212) |
| ImportTask.NamelessFolderPanics | beatlocker-server/src/tasks/import_folder_task.rs:21-41 | a non-root folder without a file name panics at `file_name().unwrap()`, after the root row was written |
| ImportTask.FolderCataloged | beatlocker-server/src/tasks/import_folder_task.rs:21-53 | after importing a folder the nil root row exists when no parent was given, a non-root folder has its row under `str_to_uuid(path)`, and a new row carries its name and parent |
| ImportTask.FolderRowsWritten | beatlocker-server/src/tasks/import_folder_task.rs:21-53 | the same facts hold right after the folder's own two inserts |
| ImportTask.ListingGrows | beatlocker-server/src/tasks/import_folder_task.rs:55-81 | the listing only adds to what the folder's own inserts left |
| ImportTask.ImportFile | beatlocker-server/src/tasks/import_folder_task.rs:87-256 | the store method issues the skip ladder, quarantine or cataloging statements and ends exactly as the specification function of `import_file` says |
| ImportTask.ImportOpened | beatlocker-server/src/tasks/import_folder_task.rs:119-256 | the opened-file half of `import_file` agrees with the specification |
| ImportTask.InsertTrackAlbum | beatlocker-server/src/tasks/import_folder_task.rs:154-173 | the album insert happens only with an album title and returns the derived album id |
| ImportTask.InsertTrackArtist | beatlocker-server/src/tasks/import_folder_task.rs:175-185 | the artist insert stores a row without cover art or MusicBrainz id and returns `str_to_uuid(name)` |
| ImportTask.InsertTrackAlbumArtist | beatlocker-server/src/tasks/import_folder_task.rs:187-201 | an album-artist row is inserted exactly when an album artist is present, under the hash of its name |
| ImportTask.InsertTrackLink | beatlocker-server/src/tasks/import_folder_task.rs:203-210 | the link statement is issued for an album, to the album artist or else the artist |
| ImportTask.CatalogTrack | beatlocker-server/src/tasks/import_folder_task.rs:154-210 | the four catalog statements, in order, return the derived artist and album ids |
| ImportTask.ImportTrack | beatlocker-server/src/tasks/import_folder_task.rs:152-256 | the cataloging half applies exactly the track writes and panics exactly without a title |
| ImportTask.InsertTrackSong | beatlocker-server/src/tasks/import_folder_task.rs:212-253 | the song insert and then the folder-child insert, keyed by the derived ids |
| ImportTask.InsertFolderRows | beatlocker-server/src/tasks/import_folder_task.rs:21-53 | the root row without a parent, then the folder's own row; a nameless non-root folder panics after the root row |
| ImportTask.ImportFolder | beatlocker-server/src/tasks/import_folder_task.rs:14-85 | the recursive import agrees with the specification of `import_folder` on every tree |
| ImportTask.ImportListing | beatlocker-server/src/tasks/import_folder_task.rs:55-81 | the chunk loop runs the chunks of 64 in order and stops after a chunk whose join set reported a panic |
| ImportTask.ImportChunkUnits | beatlocker-server/src/tasks/import_folder_task.rs:60-80 | one chunk's units run one after another and report whether any panicked |
| ImportTask.ImportUnit | beatlocker-server/src/tasks/import_folder_task.rs:61-77 | a directory entry recurses with its error dropped, a regular file is imported whatever its extension, anything else is ignored |
| ImportTask.FolderCannotPanic | beatlocker-server/src/tasks/import_folder_task.rs:14-85 | once the folder has a name (or is the root), `import_folder` never panics: a panic inside it is caught by the join set and only makes the folder fail |
| LegacyImport.KnownChildSkipped | beatlocker-server/src/tasks/mod.rs:171-181 | a path already recorded as a folder child is skipped: store unchanged, unit `Done` |
| LegacyImport.NothingExtractedNothingWritten | beatlocker-server/src/tasks/mod.rs:184-194 | when extraction yields no metadata nothing is written, not even a failure record, and the unit succeeds |
| LegacyImport.UnreadableNothingWritten | beatlocker-server/src/tasks/mod.rs:184-194 | a container the parser cannot read is such a file, whatever its name |
| LegacyImport.BrokenFileFails | beatlocker-server/src/tasks/mod.rs:184-190 | a new file that cannot be opened, or whose tags fail to parse, ends its unit with an error and writes nothing |
| LegacyImport.TagKey | beatlocker-server/src/tasks/mod.rs:197-212 | every key taken from a tag value is the hash of the value prefixed with `tags:` |
| LegacyImport.TrackCataloged | beatlocker-server/src/tasks/mod.rs:226-324 | a file with metadata leaves the artist, the song under its title's key and the folder child under its path's key in the store, and with an album the album and its link to the track artist |
| LegacyImport.SameTitleSameSong | beatlocker-server/src/tasks/mod.rs:206-209 | the song key depends on the title alone, so a second track with the same title leaves the first track's song row unchanged (also lines 290-312) |
| LegacyImport.SongContentType | beatlocker-server/src/tasks/mod.rs:283-303 | the suffix is the raw extension; the content type is `audio/ogg` exactly when that extension is `ogg` |
| LegacyImport.UpperCaseOggUntyped | beatlocker-server/src/tasks/mod.rs:148-154 | a `.OGG` file passes the lower-casing filter, yet its song gets no content type (also lines 284-288) |
| LegacyImport.UnitsSnoc | beatlocker-server/src/tasks/mod.rs:136-163 | running a listing is running its prefix, then its last entry exactly when that entry spawns a unit |
| LegacyImport.OnlySpawnedEntriesCount | beatlocker-server/src/tasks/mod.rs:140-159 | entries that spawn nothing (non-`ogg` files, anything neither file nor directory) change nothing: the listing acts as its spawned entries alone |
| LegacyImport.NamesProperPrefix | beatlocker-server/src/tasks/mod.rs:136-163 | a prefix of a well-named listing is well named |
| LegacyImport.NamelessFolderPanics | beatlocker-server/src/tasks/mod.rs:115-118 | a non-root folder without a file name panics at `file_name().unwrap()` before writing anything |
| LegacyImport.FolderOutcome | beatlocker-server/src/tasks/mod.rs:134-168 | in a well-named tree no unit panics, so a folder fails exactly when it cannot be listed (also lines 534-542) |
| LegacyImport.UnitsNoPanic | beatlocker-server/src/tasks/mod.rs:136-163 | no unit of a well-named listing panics |
| LegacyImport.EntryNoPanic | beatlocker-server/src/tasks/mod.rs:140-159 | the unit of a well-named spawned entry does not panic |
| LegacyImport.FileNoPanic | beatlocker-server/src/tasks/mod.rs:171-327 | `import_file` has no panicking statement |
| LegacyImport.FolderCataloged | beatlocker-server/src/tasks/mod.rs:115-132 | a named non-root folder is stored under the hash of its `path:` URI, with its name and parent when the key was new |
| LegacyImport.FileGrows | beatlocker-server/src/tasks/mod.rs:171-327 | importing a file only adds rows |
| LegacyImport.FolderGrows | beatlocker-server/src/tasks/mod.rs:107-169 | importing a folder tree only adds rows |
| LegacyImport.UnitsGrow | beatlocker-server/src/tasks/mod.rs:136-163 | running a listing's units only adds rows |
| LegacyImport.EntryGrows | beatlocker-server/src/tasks/mod.rs:140-159 | running one unit only adds rows |
| LegacyImport.FileAbsorbed | beatlocker-server/src/tasks/mod.rs:171-327 | once a file's effect is in the store, importing it again changes nothing |
| LegacyImport.FolderAbsorbed | beatlocker-server/src/tasks/mod.rs:107-169 | once a well-named tree's effect is in the store, importing it again changes nothing and ends `Done` for a directory, `Failed` otherwise |
| LegacyImport.UnitsAbsorbed | beatlocker-server/src/tasks/mod.rs:136-163 | the same for a listing's units |
| LegacyImport.EntryAbsorbed | beatlocker-server/src/tasks/mod.rs:140-159 | the same for one unit |
| LegacyImport.ImportIdempotent | beatlocker-server/src/tasks/mod.rs:107-327 | importing a well-named tree a second time into the store the first import produced leaves it as it is and ends the same way |
| LegacyImport.ImportFile | beatlocker-server/src/tasks/mod.rs:171-327 | the store method issues the folder-child check, the extraction and the track's statements, and ends as the specification of `import_file` says |
| LegacyImport.ImportExtracted | beatlocker-server/src/tasks/mod.rs:191-324 | after the extraction, the store is left as the plan says: an error fails with nothing written, no metadata is done with nothing written, and a track gets its statements |
| LegacyImport.InsertTrackAlbum | beatlocker-server/src/tasks/mod.rs:226-240 | the album insert happens only for a tagged album and returns its key |
| LegacyImport.InsertTrackArtist | beatlocker-server/src/tasks/mod.rs:242-256 | the artist insert stores the tagged artist and returns its key |
| LegacyImport.InsertTrackLink | beatlocker-server/src/tasks/mod.rs:274-281 | the link statement is issued for an album, to the track artist (the release has no album artist) |
| LegacyImport.InsertTrackSong | beatlocker-server/src/tasks/mod.rs:283-312 | the song insert with the ids the earlier statements returned; returns the title's key |
| LegacyImport.InsertTrackChild | beatlocker-server/src/tasks/mod.rs:314-324 | the folder-child insert, keyed by the path and pointing at the song |
| LegacyImport.ImportTrack | beatlocker-server/src/tasks/mod.rs:226-324 | every statement for a file with metadata, in order |
| LegacyImport.InsertFolderRow | beatlocker-server/src/tasks/mod.rs:115-132 | the root is the nil folder with no write; another named folder gets its row; a nameless one panics with nothing written |
| LegacyImport.ImportFolder | beatlocker-server/src/tasks/mod.rs:107-169 | the recursive import agrees with the specification of `import_folder` on every tree |
| LegacyImport.ImportListing | beatlocker-server/src/tasks/mod.rs:134-163 | the `read_dir` loop runs a unit for each directory and `.ogg` file, in order |
| LegacyImport.ImportUnit | beatlocker-server/src/tasks/mod.rs:140-159 | a directory recurses under this folder, an `.ogg` file is imported |
| LegacyImport.AwaitJoinSet | beatlocker-server/src/tasks/mod.rs:534-542 | the join set fails exactly when some unit panicked; ordinary unit errors are swallowed |

## Left out

- Concurrency: `JoinSet` fan-out, `TaskManager`, the task-runner receive loop and abort-on-drop of running tasks. Units run one after another, in order.
- `chunks_timeout(64, 10s)` in the importer, and `chunks_timeout(8, 10s)` in the external-metadata task (import_external_metadata_task.rs:27, 70), become fixed chunks taken from the front. The 10-second timeout, which can release a shorter chunk early, is not modelled.
- Database errors (SQL `?`) are not modelled: every statement succeeds. SQL `GROUP BY` is not modelled either; its rows, and the rows of the listing queries, are inputs.
- SQL row order is not modelled. Lookups that return "some matching row" (`fetch_optional`, the reconciler's folder query, the album-songs query) take a parameter that picks a row.
- Container decoding (Ogg/Vorbis parsing), floating-point duration and date parsing are foreign code. They are input datatypes or opaque parameters.
- SipHash inside `str_to_uuid` / `uri_to_uuid`, MD5, `Uuid::from_str`, `to_title_case`, `unidecode` and `damerau_levenshtein` are uninterpreted functions. The hash is not assumed to be injective.
- `String::from_utf8_lossy` on an `enc:` password whose bytes are not all ASCII is a function parameter. Hex decoding and ASCII bytes are written out.
- Network I/O is left out: HTTP, the Discogs master and resource fetches, and `insert_cover_art` downloads. Each answer is an input. The Last.fm fetch of `getArtistInfo` is a function parameter.
- Client middleware (rate limiting, retry, caching), serde / quick_xml serialization and `skip_serializing_if` are left out. Responses are datatypes.
- SQL query builders and row mappers whose behaviour lives in SQL are out of this model's scope. So are the serving-path handlers, routing, startup, migrations, the connection pool, and database optimisation.
- The root-folder row written by `start_task_runner` is not modelled. Only the importers' own root rows are.
- Errors from `entry.file_type()` and from `read_dir` entries are not modelled. Entries that are neither files nor directories are ignored.
- URI columns are not modelled, because no modelled operation reads them.
- The files come from mixed revisions. `lib.rs` comments out `mod tasks`. The failed-child store methods that `import_folder_task.rs` calls (`find_failed_folder_child_by_path`, `insert_failed_folder_child_if_not_exists`) are not in the `db/mod.rs` shown. They are modelled like the other lookups and inserts. Where `import_folder_task.rs` relies on a metadata interface (`is_valid`, an optional title) that differs from the `extract_metadata.rs` shown, the importer follows its own call sites. Likewise the query structs shown under `api/queries` have no `starred` field and name their paging fields `song_offset`/`song_count` and `album_offset`/`album_count` (get_subsonic_songs.rs:9-12, get_subsonic_albums.rs:9-12), where the handlers pass `starred: true` (get_starred.rs:23-44) and `offset`/`size` (search3.rs:58-61); `Listings` follows the handlers' call sites. `wrap_err` is modelled where the enrichment units use it, with the empty fallback: `Enrichment.Unit` drops the update's error and keeps its writes, which a function on the result value alone could not express.
- The legacy importer passes an `Option` file name to `extract_metadata`, which takes a plain name. The model passes the name, or the empty string when there is none.
- `search3`: the `query` parameter is required but unused, so it is not kept.
- `unstar`: the `.unwrap()` on the lookup query can only panic on a database error, which is not modelled.
- `getArtistInfo`: the `count` and `includeNotPresent` parameters are never read, so they are not kept.
- `tasks2/providers/mod.rs` repeats `ProviderUri`. Both copies are modelled by the same `Providers` members.
- Indexes.GetArtists: has no contract of its own. Its rows are `Indexes.GetArtistsImpl` and `Indexes.ArtistsListedOnce`.
- Strings.Lower: lower-cases ASCII capitals only, where Rust's `to_lowercase` is Unicode-aware and can change a string's length. Metadata.Suffix therefore keeps a non-ASCII capital in an extension as it is. Auth compares the lowered token with ASCII hex and the legacy importer compares a lowered extension with `ogg`, so neither outcome depends on non-ASCII letters apart from Unicode characters that lower-case into ASCII, such as the Kelvin sign, which the model does not lower.
- Metadata.Suffix: see Strings.Lower; the suffix is ASCII-lower-cased.
- Catalog.StoredFolder: the model assumes the `folders.path` column exists, is nullable and defaults to NULL, and that `insert_folder_if_not_exists` does not bind it (db/mod.rs:215-236). No migration defining the table is part of this model. With a different schema (a non-null default, or a trigger that fills it) `Reconciler.StoredFoldersPanic` does not apply.
- Paths.FileName: Rust's `Path::file_name` normalises a trailing `/` and a trailing `.` component away (`a/b/` has the name `b`), where the model takes the text after the last `/` and so returns `None` for `a/b/`. Listing entry names never contain `/`, so for the joined paths the importers build the two agree (`Paths.FileNameOfJoin`).
- EnrichmentProperties.CandidatesCooledDown: the model reads the clock once per run (`Context.now`), and `Enrichment.RunUnit` stamps every folder child it touches with that one reading. The lemma therefore states that each candidate ends last updated at `ctx.now`. The source reads `Utc::now()` again in every `update_last_updated` (db/mod.rs:71), after the reading the cutoff is taken from (import_external_metadata_task.rs:37), so it promises only "last updated at or after the run's start". `EnrichmentProperties.CooledStaleAgain` holds for any stamp: a child stamped at or after the run's start is stale again only for a run that starts more than 96 hours after that stamp.
- Enrichment.RunUnit: stamps with the run's single clock reading `ctx.now`, not with a fresh `Utc::now()` per unit; see the line above.
- ImportTask.ImportFolderSpec and LegacyImport.ImportFolderSpec: the `created` stamps of folder and song rows are `Options.now`, one reading for the whole import, where the source calls `now_provider()` for each row (import_folder_task.rs:31, 50, 226; tasks/mod.rs:129, 297). The inserts keep a row already present, so a rerun leaves the first run's stamps either way; no lemma depends on the stamps' values.
- EnrichmentTask.ImportExternalMetadata: takes the query's rows as an input and does not itself require them to be the query at `Cutoff(ctx.now)`; the cooldown lemmas state that link as their hypothesis.

## Findings

| source | as written | input that shows it | evidently intended | confidence | as-written member | corrected member |
|---|---|---|---|---|---|---|
| beatlocker-server/src/tasks/removed_deleted_files_task.rs:14-28 | the folder query reads `folders.path` as a `String` with `row.get`, but `insert_folder_if_not_exists` (db/mod.rs:215-236) never writes that column | a catalog holding the root and one sub-folder, both inserted by the importer, so the sub-folder's `path` is NULL | the folder's path is stored when it is inserted, so every path decodes and the sweep runs | not executed; low, because it rests on the schema of `folders`, which is not part of this model | Reconciler.StoredFoldersPanic | Reconciler.RemoveDeletedFilesDone |
