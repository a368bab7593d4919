# Audio journal core in Dafny

This project models the main-process core of a desktop audio journal. The
journal has five parts:

- **`JournalDAO`** is the data-access object over a SQLite database. It
  creates, lists, reads, updates, deletes and searches journal entries. It
  creates and lists tags, links tags to entries and unlinks them, and runs a
  block of those calls as a transaction.
- **The schema** (`createTables`) declares three tables, `entries`, `tags`
  and `entry_tags`, with AUTOINCREMENT ids, `NOT NULL`, `UNIQUE`, a
  composite primary key and foreign keys.
- **`AudioFileManager`** stores recordings as `recording_<id>.<format>`
  files in a base directory. It saves, reads, deletes and lists them, and
  saves into a custom directory.
- **`AudioRecorder`** is a two-state session, idle or recording. Stopping a
  session saves the audio and then creates the journal entry.
- **`SettingsManager`** is a key/value store backed by a JSON file, with
  defaults as the fallback.

Each part works in two layers:

- **State is a value.** The database contents are a `Tables` value: rows in
  rowid order, a set of `(entry_id, tag_id)` pairs, and the AUTOINCREMENT
  counters. The file system is a `Disk` value: a map from file paths to
  bytes, plus a set of directories. The recorder's session and the settings
  store are values too.
- **Operations are pure functions.** Each SQL statement, file-system call
  or state transition is a function from the old value to the new value and
  a `Result` (`CreateEntryOn`, `SaveAudioOn`, `StopOn`, `LoadOn`, …). The
  lemmas about those functions carry the properties.

The objects of the source become classes: `Database`, `JournalDAO`,
`AudioFileManager`, `AudioRecorder` and `SettingsManager`. Their methods
update fields. Each method is proved to leave exactly the state, and give
exactly the answer, that its statement function describes.

When the entry insert fails after the audio was saved, the recorder stays
in the recording state with the same id and start time: the fields are
cleared at `audioRecorder.js:62-64`, which runs only after `createEntry`
resolves.

Two defects appear in the code as written; see "## Findings". For each, the
model keeps a member for the behaviour as written and a lemma exhibiting it.
The DAO methods and transactions use the corrected behaviour:

- `createTag` resolves to the new id;
- `deleteEntry` removes the entry's tag links.

Inputs the environment supplies are explicit parameters:

- clock readings: `Date.now()` and the engine's `CURRENT_TIMESTAMP`;
- engine failures (`fault` strings);
- the initial disk and settings file;
- whether the settings file can be written.

## Model

The read-only members of the classes (`JournalDAO.GetAllEntries`,
`GetEntry`, `SearchEntries`, `GetAllTags`, `GetTagsForEntry`,
`GetEntriesWithTag`, and `AudioFileManager.ReadAudioFile`,
`ListAudioFiles`, `GetNewFilePath`) each return one function of the
current state. Each is covered by the row of that function (`AllEntries`,
`EntryById`, `SearchIn`, `AllTags`, `TagsForEntry`, `EntriesWithTag`,
`ReadAudioOn` through `SaveThenRead` and `DeleteAudioEffect`, `ListIn`
through `ListingSound` and `ListingComplete`, `FilePath` through
`FilePathSplits`).

| member | source | states |
|---|---|---|
| Schema.Database.constructor | database/db.js:16-20 | Opening `<userData>/journal.db` gives the contents that file already holds (tables, rows and AUTOINCREMENT counters), which satisfy the row constraints; a new file is the empty database. |
| Schema.CreateTables | database/schema.js:9-63 | Without a failure, all three tables exist afterwards and no row changes. Run again on a created schema, it changes nothing (`IF NOT EXISTS`). A failing statement rolls back to the state before `BEGIN` and rejects with the engine's error. A failing `COMMIT` (schema.js:53-56) rejects with its error and commits nothing. The row constraints hold before and after, and a commit leaves the schema initialised. |
| Dao.FindEntry | database/dao.js:102-115 | `WHERE id = ?`: the row found has that id and is in the table; none is found exactly when no row has the id. |
| Dao.TagIdByName | database/dao.js:225-233 | `SELECT id FROM tags WHERE name = ?`: the id found belongs to a tag with that name; none is found exactly when no tag has the name. |
| Dao.CreateEntryEffect | database/dao.js:29-48 | A missing audio path rejects with the `NOT NULL` error and changes nothing. Otherwise the new row gets id counter+1, which is fresh. It holds the given values and equal created/modified timestamps, and is appended, and the entry counter becomes its id. Nothing else changes: the tags, the links and the tag counter are kept, and the constraints hold. |
| Dao.IdsNeverReused | database/schema.js:18 | After deleting an entry, the next insert gets an id greater than the deleted one: AUTOINCREMENT never reuses the id of a committed row. An id given to a call inside a rolled-back block is given out again; see `IdReissuedAfterRollback`. |
| Dao.UpdateEntryEffect | database/dao.js:138-158 | Resolves `{id, changes}`, where changes is 1 if the row exists and 0 otherwise. A missing row leaves the tables unchanged. An existing row gets the new title and transcript, keeps its audio path, duration and creation time, and has `modified_at` set to now. Other rows are untouched, and every table other than `entries` and both counters are kept. |
| Dao.UpdateRows | database/dao.js:142-147 | The `UPDATE` changes exactly the rows with the id, position by position, and keeps the row count. |
| Dao.DeleteEntryEffect | database/dao.js:165-181 | Resolves 1 or 0 changes for an existing or missing row. A zero-change delete leaves the tables exactly as they were. Otherwise the id is absent, every other row is where it was, the count drops by one, the deleted entry's tag links are gone and other links stay. Only `entries` and the links change; the tags and both counters are kept, and the constraints hold. |
| Dao.SortColumn | database/dao.js:66-67 | A sort field in the whitelist picks that column; any other value, or none, falls back to `created_at`. |
| Dao.SortOrder | database/dao.js:70 | The order is ascending exactly when the option is `"ASC"`, otherwise descending. |
| Dao.EffectiveLimit | database/dao.js:77-80 | A `LIMIT` applies exactly when the option is a positive integer, and then it is that integer. |
| Dao.AllEntries | database/dao.js:58-92 | The result is sorted on the chosen column and direction, with SQLite's ordering NULL < number < text, and holds rows of the table. Without a limit it is a permutation of the table. With a limit it has min(limit, rows) rows, and every row it leaves out comes no earlier than every row it returns. |
| Dao.SortOptionsFallBack | database/dao.js:66-72 | An unknown sort field gives the same listing as no sort field, and with a non-`ASC` order the same as the default options. |
| Dao.SearchIn | database/dao.js:188-207 | The result holds exactly the rows whose title or transcript contains the keyword, each taken from the table, with no duplicates beyond the table's own. It is in descending creation order. |
| Dao.EntryById | database/dao.js:100-131 | Null exactly when no row has the id. Otherwise it is that row, with a `tags` field exactly when tags were asked for. The field holds the entry's tags, or `[]` when the tag query fails. |
| Dao.CreateTagFreshLosesId | database/dao.js:236-242 | As written, a fresh tag is inserted with id counter+1, but the promise resolves to undefined. |
| Dao.CreateTagCollision | database/dao.js:222-235 | On a `UNIQUE` violation, createTag looks the name up and resolves to the existing id, changing nothing. A failed lookup rejects with the engine's error, whatever it is. A missing name rejects with the `NOT NULL` error. |
| Dao.CreateTagResolvesId | database/dao.js:209-245 | createTag resolves to the id the name has afterwards and keeps the constraints. Only `tags` and the tag counter can change. A taken name changes nothing. A fresh name is appended with id counter+1, the tag counter becomes that id, and that id is the answer. Calling it again with the same name changes nothing and resolves to the same id. |
| Dao.AssociationSetSemantics | database/dao.js:273-309 | `INSERT OR IGNORE` adds the pair or leaves an existing one, and both calls always resolve true. `DELETE` removes the pair, or leaves a missing one missing. Each is idempotent, and the other pairs, the rows and the counters are untouched. |
| Dao.AllTags | database/dao.js:251-265 | Every tag, and nothing else, ordered by name. |
| Dao.TagsForEntry | database/dao.js:316-333 | Exactly the tags linked to the entry, ordered by name. |
| Dao.EntriesWithTag | database/dao.js:340-357 | Exactly the entries linked to the tag, newest first. |
| Dao.DeleteEntryKeepsTags | database/schema.js:38-39 | As written, the cascade never fires: deleting an entry leaves `getTagsForEntry` of its id answering what it answered before. |
| Dao.DeleteEntryKeepsTagsExample | database/schema.js:38-39 | Entry 1 tagged "work" is deleted, and `getTagsForEntry(1)` still answers `[work]`. |
| Dao.CascadeDeleteClearsTags | database/schema.js:38 | With the declared `ON DELETE CASCADE`, an entry that was deleted has no tags left (a delete matching no row fires no cascade), and the entries table is exactly what the plain `DELETE` leaves. |
| Dao.ExecKeepsConstraints | database/schema.js:17-40 | Every DAO operation, successful or rejected, keeps the row constraints and the schema. |
| Dao.FirstThrow | database/dao.js:373 | Finds the first synchronous throw in a block: no earlier operation throws, and there is none exactly when no operation throws. |
| Dao.TransactionAllOrNothing | database/dao.js:364-389 | A block that throws is rolled back to the state before `BEGIN` and rejects with the thrown error. A block that does not throw commits the effect of every operation in order. This lemma only unfolds `TransactionOn`. The loop that carries the promise is `Dao.JournalDAO.Transaction`, proved against `Run`. |
| Dao.IdReissuedAfterRollback | database/dao.js:373-386 | Inside a block that then throws, createEntry resolves to the next id. The ROLLBACK restores the tables, counter included, so the next createEntry resolves to that same id again. |
| Dao.ThrowAfterCreateLeavesNoEntry | database/dao.js:383-386 | An entry created inside a block that then throws leaves no trace. |
| Dao.RejectionInsideBlockCommits | database/dao.js:373-382 | A rejected statement inside the block does not roll it back: the entry created before it is committed, and the block resolves to both outcomes. |
| Dao.JournalDAO.CreateEntry | database/dao.js:29-48 | The method changes the database and resolves exactly as `CreateEntryOn` says. The database stays ready. |
| Dao.JournalDAO.UpdateEntry | database/dao.js:138-158 | The method changes the database and resolves exactly as `UpdateEntryOn` says. |
| Dao.JournalDAO.DeleteEntry | database/dao.js:165-181 | The method changes the database and resolves exactly as the cascading `DeleteEntryOn` says: the cascade fires only when a row was deleted. |
| Dao.JournalDAO.CreateTag | database/dao.js:216-245 | The method changes the database and resolves exactly as the corrected `CreateTagOn` says. |
| Dao.JournalDAO.TagEntry | database/dao.js:273-287 | The method changes the database and resolves exactly as `TagEntryOn` says. |
| Dao.JournalDAO.UntagEntry | database/dao.js:295-309 | The method changes the database and resolves exactly as `UntagEntryOn` says. |
| Dao.JournalDAO.Transaction | database/dao.js:364-389 | The loop runs the operations in order on the live database. A throw restores the snapshot taken at `BEGIN` and rejects. Otherwise it keeps the effects and resolves to the outcomes of the block's calls, in order. The final state and answer are those of `TransactionOn`. |
| Strings.DecimalString | audioRecorder.js:26 | `Date.now().toString()` is a non-empty digit string whose value is the reading. |
| Strings.DecimalStringInjective | audioRecorder.js:26 | Distinct clock readings give distinct recording ids. |
| Strings.FirstWavIsSuffix | audioFileManager.js:88 | `replace('.wav', '')` on `<id>.wav`, where the id has no `.wav`, removes the suffix itself. |
| Strings.JoinSplits | audioFileManager.js:110 | `path.dirname` of `path.join(dir, name)` is `dir`, and its base name is `name`. |
| Strings.TextLeTotal | database/dao.js:73 | Text sorts by a total order, so every listing by title is well defined. |
| Ordering.SortBy | database/dao.js:73 | `ORDER BY` returns a permutation of its input, sorted on the key and direction. |
| Ordering.TakeIsFirst | database/dao.js:77-80 | `LIMIT k` on a sorted result keeps rows that come no later than any row it drops. |
| AudioFiles.FilePathSplits | audioFileManager.js:28-30 | `getNewFilePath(id, format)` lies directly in the directory, and its base name is `recording_<id>.<format>`. A `wav` name passes the listing filter. |
| AudioFiles.FilePathInjective | audioFileManager.js:28-30 | Distinct ids get distinct file paths. |
| AudioFiles.IdOfFileName | audioFileManager.js:88 | The listing's id extraction turns `recording_<id>.wav` back into `<id>`. |
| AudioFiles.ListingSound | audioFileManager.js:78-99 | Every listed file exists directly in the directory, has a `recording…wav` name and carries the id extracted from that name. |
| AudioFiles.ListingComplete | audioFileManager.js:85-93 | Every `recording…wav` file directly in the directory is listed with its extracted id and its joined path. |
| AudioFiles.WriteElsewhereKeepsListing | audioFileManager.js:105-130 | Writing a file in another directory does not change the listing. |
| AudioFiles.EnsureDirectoryIdempotent | audioFileManager.js:16-26 | Creates the directory when nothing is there, keeps every file and the disk's consistency, and changes nothing when run again. |
| AudioFiles.SaveThenRead | audioFileManager.js:32-61 | Saving an id resolves to its file path. Reading the same id then gives the saved bytes back, and every other file is unchanged. |
| AudioFiles.DeleteAudioEffect | audioFileManager.js:47-76 | Reading or deleting an id without a file rejects and changes nothing. A successful delete removes that one file, after which reading it rejects. |
| AudioFiles.SaveThenList | audioFileManager.js:32-99 | After a save under the default format, the base directory's listing contains the id with the saved path. |
| AudioFiles.SaveToCustomEffect | audioFileManager.js:105-130 | On success the file is at `<customPath>/recording_<id>.wav`, its directory exists and it holds the data. Files in the base directory are untouched, and no other file appears. No directory is removed, and the only directories added are `<customPath>` and its ancestors. |
| AudioFiles.AudioFileManager.constructor | audioFileManager.js:7-14 | The base directory is `<userData>/recordings`, and it is ensured to exist. |
| AudioFiles.AudioFileManager.EnsureDirectoryExists | audioFileManager.js:16-26 | The method changes the disk exactly as `EnsureDirectoryOn` says. |
| AudioFiles.AudioFileManager.SaveAudioFile | audioFileManager.js:32-45 | The method writes the file and resolves exactly as `SaveAudioOn` says. |
| AudioFiles.AudioFileManager.DeleteAudioFile | audioFileManager.js:63-76 | The method unlinks the file and resolves exactly as `DeleteAudioOn` says. |
| AudioFiles.AudioFileManager.SaveToCustomPath | audioFileManager.js:105-130 | The method creates the directory, writes and resolves exactly as `SaveToCustomOn` says. |
| Recorder.StartEffect | audioRecorder.js:19-37 | While recording, start rejects with "Already recording" and changes nothing. While idle, it starts a session whose id is the decimal clock reading, and resolves to that id. |
| Recorder.StopWhenIdle | audioRecorder.js:41-43 | Stopping while idle rejects with "Not recording" and writes neither a file nor an entry. |
| Recorder.StopSuccess | audioRecorder.js:44-77 | A successful stop returns to idle. It resolves to the id, the new entry's id, the saved path and the elapsed seconds. The entry's audio path is that file, titled `Recording <id>`, with the placeholder transcript. The file holds the placeholder audio, and the listing shows it under the id. |
| Recorder.StopFailure | audioRecorder.js:78-81 | A failed stop keeps the session recording with the same id and start time. A failed save creates no entry. A failed insert leaves the saved file in place. |
| Recorder.ElapsedSecondsNonNegative | audioRecorder.js:46 | With a clock that does not run backwards, the duration is non-negative and is the elapsed milliseconds divided by 1000. |
| Recorder.AudioRecorder.constructor | audioRecorder.js:7-15 | A new recorder is idle. Building it needs no database, as when the module loads (audioRecorder.js:100). |
| Recorder.AudioRecorder.StartRecording | audioRecorder.js:19-37 | The method updates the three fields and resolves exactly as `StartOn` says, without the database being ready. |
| Recorder.AudioRecorder.StopRecording | audioRecorder.js:39-83 | The method updates the fields, the disk and the database, and resolves exactly as `StopOn` says. It needs the database ready, because it calls `createEntry`, and keeps it ready. |
| Recorder.AudioRecorder.PlayRecording | audioRecorder.js:85-97 | Playback resolves and changes nothing. |
| Settings.DefaultSettings | settings.js:19-25 | The five defaults: medium quality, `<documents>/AudioJournal`, autosave on, 30 minutes and the light theme. |
| Settings.Merge | settings.js:101 | `{...a, ...b}`: the keys of `b` take its values, and every other key of `a` keeps its value. |
| Settings.Serialize | settings.js:74 | Writing to JSON drops the keys that hold undefined and keeps every other entry. |
| Settings.SaveThenLoad | settings.js:35-83 | After a successful save, loading gives back the serialized settings, and every `getSetting` answer is unchanged. |
| Settings.LoadCases | settings.js:35-56 | A parsable file is loaded as is. An unreadable one falls back to the defaults without writing. A missing one falls back to the defaults and writes them. A failed write changes nothing. This lemma spells out the cases of `LoadOn`. The round trip it serves is `Settings.SaveThenLoad`. |
| Settings.UpdateOneKey | settings.js:94-97 | `updateSetting` changes the answer for that key only. Undefined falls back to the default. |
| Settings.MergeLookup | settings.js:100-103 | After `updateSettings`, the keys it names answer from the new settings, and all others answer as before. |
| Settings.ResetLookup | settings.js:106-109 | After `resetToDefaults`, every key answers its default. |
| Settings.DefaultsAlwaysAnswer | settings.js:86-91 | A key the defaults name never answers undefined. When no setting holds it, it answers the default. |
| Settings.SettingsManager.GetSetting | settings.js:86-91 | A defined setting is returned as is; a key with a defined default never answers undefined. |
| Settings.SettingsManager.constructor | settings.js:9-32 | The settings path is `<userData>/settings.json`, and the settings and store are what loading gives. |
| Settings.SettingsManager.LoadSettings | settings.js:35-56 | The method sets the settings and the file exactly as `LoadOn` says and returns the settings. |
| Settings.SettingsManager.SaveSettings | settings.js:59-83 | The method writes the serialized settings and answers true, or answers false and writes nothing. The settings are unchanged. |
| Settings.SettingsManager.UpdateSetting | settings.js:94-97 | The method sets one key, then saves. |
| Settings.SettingsManager.UpdateSettings | settings.js:100-103 | The method merges, then saves. |
| Settings.SettingsManager.ResetToDefaults | settings.js:106-109 | The method restores a copy of the defaults, then saves. |

## Left out

- The JavaScript promises, callbacks and `db.serialize` queueing are left out. Each statement's effect is a function applied at once, and a write's rejection is a `Result` error.
- Dao.AllEntries, Dao.SearchIn, Dao.EntryById, Dao.AllTags, Dao.TagsForEntry and Dao.EntriesWithTag have no rejection path: a failed `SELECT` of getAllEntries, getEntry, searchEntries, getAllTags, getTagsForEntry or getEntriesWithTag (database/dao.js:84-86, 106-108, 198-200, 257-258, 325-326, 349-350) is not modelled. The one query failure modelled is getEntry's tag lookup, which answers `[]`.
- `LIKE` in `searchEntries` is modelled as exact substring containment. ASCII case folding and the `%` and `_` wildcards inside the keyword are not modelled.
- The `transaction` block is a sequence of DAO calls plus an optional synchronous throw. The model leaves out arbitrary JavaScript in the block, statements that finish after `COMMIT` is queued, and `COMMIT` itself failing.
- Dao.TransactionOn: the block's own return value is modelled as the list of its calls' outcomes. A block that returns some other value, or returns a rejected promise (which makes `transaction` reject after `COMMIT`), is not represented.
- Schema.CreateTables: a failing `COMMIT` is modelled as committing nothing; the transaction SQLite leaves open after a failed `COMMIT` is not modelled. The rollback after a failing statement is immediate. In the source, `ROLLBACK` is queued from the failing statement's callback behind the already-queued `COMMIT`: the promise rejects, the statements that succeeded are committed, the queued `ROLLBACK` finds no open transaction, and the later `resolve` has no effect.
- db.js opening the file, `get()` and `close()` are reduced to the `Ready()` condition, which holds once `createTables` has committed.
- `PRAGMA foreign_keys` enforcement at insert time is not modelled: `tagEntry` accepts pairs naming absent entries or tags, as the code does. Only the cascade on entry delete is corrected, and deleting a tag is not an operation of the DAO.
- A `NaN` or non-number `limit` is not modelled; the limit is `Option<real>`.
- File-system failures other than the structural ones (missing parent, a file in the way, a directory at the path) are not modelled: permissions, disk full, races between `existsSync` and `mkdirSync`.
- `path.join` is modelled as joining with "/". Normalisation is not modelled, nor `.`/`..` segments or a directory argument ending in "/".
- AudioFiles.ListingSound requires a directory other than ".", because `path.join` drops a leading "./" and that normalisation is not modelled.
- `readdir` order is left out: the listing is a set.
- AudioFiles.MakeDirs reports every failure as `NotDirectory`; the Node error codes are not modelled.
- AudioFiles.AudioFileManager.constructor keeps the disk when the directory cannot be created; the source's exception out of `new` is not modelled.
- Logging (`electron-log`, `console`) and the `recording-complete` notification to the window are left out.
- Playback is left out: the source resolves without doing anything.
- Durations are exact reals: the floating-point division by 1000 is not modelled.
- Settings values are flat JSON scalars. Nested objects and arrays are not modelled, nor a settings file whose top level is not an object.
- A settings file that cannot be written is abstracted as one `writable` flag covering both the `mkdirSync` and the `writeFileSync` failures.
- The `undefined` fields of `entryData` are modelled as `None` (SQL NULL), which is how sqlite3 binds them.

## Findings

| source | as written | input that shows it | evidently intended | confidence | as-written member | corrected member |
|---|---|---|---|---|---|---|
| database/dao.js:236-242 | On a fresh insert, createTag resolves `this.lastID` inside a callback bound to the DAO (`.bind(this)`), so it reads a property the DAO does not have and resolves to `undefined`. | `createTag("work")` on a database with no tags | Resolve to the new tag's id, as the doc comment at database/dao.js:214 promises | not executed | Dao.CreateTagFreshLosesId | Dao.CreateTagResolvesId |
| database/schema.js:38-39 | `ON DELETE CASCADE` is declared, but database/db.js:20-30 never runs `PRAGMA foreign_keys = ON`, so SQLite ignores the foreign keys. Deleting an entry leaves its `entry_tags` rows, and its tags dangle. | Entry 1 tagged "work", then `deleteEntry(1)`: `getTagsForEntry(1)` still answers `[work]` | Deleting an entry removes its tag links | not executed | Dao.DeleteEntryKeepsTagsExample | Dao.CascadeDeleteClearsTags |
