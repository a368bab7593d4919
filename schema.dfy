/** The journal database: the rows of its three tables, the constraints the
    `CREATE TABLE` statements declare, and `createTables`, which creates the
    tables if they are absent inside one transaction. */
module Schema {
  import opened Common

  /** A row of `entries`. `audioPath` is `TEXT NOT NULL`; the other columns
      admit NULL. Timestamps are readings of the engine's clock. */
  datatype Entry = Entry(
    id: int,
    title: Option<string>,
    audioPath: string,
    duration: Option<real>,
    transcript: Option<string>,
    createdAt: int,
    modifiedAt: int)

  /** A row of `tags`; `name` is `TEXT UNIQUE NOT NULL`. */
  datatype Tag = Tag(id: int, name: string)

  datatype TableName = EntriesTable | TagsTable | EntryTagsTable

  const AllTables: set<TableName> := {EntriesTable, TagsTable, EntryTagsTable}

  /** The database contents: which tables exist, the rows of `entries` and
      `tags` in rowid order, the `(entry_id, tag_id)` pairs of `entry_tags`
      (its primary key makes it a set), and the AUTOINCREMENT counters that
      SQLite keeps in `sqlite_sequence`: the largest id ever handed out. */
  datatype Tables = Tables(
    schema: set<TableName>,
    entries: seq<Entry>,
    tags: seq<Tag>,
    entryTags: set<(int, int)>,
    entrySeq: nat,
    tagSeq: nat)

  /** A database file that has just been opened. */
  const EMPTY: Tables := Tables({}, [], [], {}, 0, 0)

  /** `INTEGER PRIMARY KEY AUTOINCREMENT`: ids are positive, ascending in
      rowid order, and never above the counter, so the next id is fresh. */
  ghost predicate EntryIdsValid(rows: seq<Entry>, counter: nat) {
    && (forall i, j | 0 <= i < j < |rows| :: rows[i].id < rows[j].id)
    && (forall i | 0 <= i < |rows| :: 0 < rows[i].id <= counter)
  }

  ghost predicate TagIdsValid(rows: seq<Tag>, counter: nat) {
    && (forall i, j | 0 <= i < j < |rows| :: rows[i].id < rows[j].id)
    && (forall i | 0 <= i < |rows| :: 0 < rows[i].id <= counter)
  }

  /** `name TEXT UNIQUE`: no two tags share a name. */
  ghost predicate TagNamesUnique(rows: seq<Tag>) {
    forall i, j | 0 <= i < j < |rows| :: rows[i].name != rows[j].name
  }

  /** Every row constraint the schema declares and the engine enforces. (The
      foreign keys are declared but not enforced; see the Dao module.) */
  ghost predicate Valid(t: Tables) {
    && EntryIdsValid(t.entries, t.entrySeq)
    && TagIdsValid(t.tags, t.tagSeq)
    && TagNamesUnique(t.tags)
  }

  /** A new database file satisfies the constraints, so it can be opened. */
  lemma EmptyIsValid()
    ensures Valid(EMPTY) && !Initialized(EMPTY)
  {
  }

  /** The database after `createTables` has committed. */
  ghost predicate Initialized(t: Tables) {
    Valid(t) && t.schema == AllTables
  }

  /** The SQLite connection; its contents change only through statements. */
  class Database {
    var tables: Tables

    /** Opens the database file, which holds `initial`: `EMPTY` for a new
        file, or whatever an earlier session committed. */
    constructor (initial: Tables)
      requires Valid(initial)
      ensures tables == initial && Valid(tables)
    {
      tables := initial;
    }
  }

  /** Runs the three `CREATE TABLE IF NOT EXISTS` statements between BEGIN
      and COMMIT. `failing`, when present, names the statement the engine
      rejects and the message it gives: that error rolls the transaction
      back and rejects. `commitFault` is an error the engine reports for
      COMMIT itself: nothing is committed and the promise rejects with it. */
  method CreateTables(db: Database, failing: Option<(TableName, string)>, commitFault: Option<string>)
    returns (r: Result<()>)
    modifies db
    ensures failing.None? && commitFault.None? ==>
      r == Ok(()) && db.tables == old(db.tables).(schema := old(db.tables.schema) + AllTables)
    ensures failing.None? && commitFault.Some? ==> r == Err(Engine(commitFault.value)) && db.tables == old(db.tables)
    ensures failing.Some? ==> r == Err(Engine(failing.value.1)) && db.tables == old(db.tables)
    ensures old(db.tables.schema) == AllTables ==> db.tables == old(db.tables)
    ensures Valid(old(db.tables)) ==> Valid(db.tables)
    ensures Valid(old(db.tables)) && r.Ok? ==> Initialized(db.tables)
  {
    var snapshot := db.tables;                                   // BEGIN TRANSACTION
    if failing.Some? && failing.value.0 == EntriesTable {
      db.tables := snapshot;                                     // ROLLBACK
      return Err(Engine(failing.value.1));
    }
    db.tables := db.tables.(schema := db.tables.schema + {EntriesTable});
    if failing.Some? && failing.value.0 == TagsTable {
      db.tables := snapshot;
      return Err(Engine(failing.value.1));
    }
    db.tables := db.tables.(schema := db.tables.schema + {TagsTable});
    if failing.Some? && failing.value.0 == EntryTagsTable {
      db.tables := snapshot;
      return Err(Engine(failing.value.1));
    }
    db.tables := db.tables.(schema := db.tables.schema + {EntryTagsTable});
    if commitFault.Some? {
      db.tables := snapshot;                                     // COMMIT fails
      return Err(Engine(commitFault.value));
    }
    assert db.tables.schema == snapshot.schema + AllTables;
    forall t: TableName ensures t in AllTables {
      match t
      case EntriesTable =>
      case TagsTable =>
      case EntryTagsTable =>
    }
    r := Ok(());                                                 // COMMIT
  }
}
