/** The journal's data access object: entry and tag operations and the
    transaction primitive. Each operation issues one SQL statement; its
    effect on the tables is given by a function of the tables before it (the
    `...On` functions below), and `JournalDAO` applies those functions to the
    live database. Queries are functions of the current tables. */
module Dao {
  import opened Common
  import opened Strings
  import opened Ordering
  import opened Schema

  /** A statement's effect: the tables afterwards and how its promise settles. */
  datatype Step<+R> = Step(tables: Tables, result: Result<R>)

  function Min(a: nat, b: nat): nat {
    if a <= b then a else b
  }

  // ============ looking rows up ============

  /** The row with primary key `id` (`SELECT * FROM entries WHERE id = ?`). */
  function FindEntry(rows: seq<Entry>, id: int): (r: Option<Entry>)
    ensures r.Some? ==> r.value in rows && r.value.id == id
    ensures r.None? <==> forall i | 0 <= i < |rows| :: rows[i].id != id
  {
    if rows == [] then None
    else if rows[0].id == id then Some(rows[0])
    else
      var r := FindEntry(rows[1..], id);
      assert forall i | 1 <= i < |rows| :: rows[i] == rows[1..][i - 1];
      r
  }

  /** The id of the tag called `name` (`SELECT id FROM tags WHERE name = ?`). */
  function TagIdByName(tags: seq<Tag>, name: string): (r: Option<int>)
    ensures r.Some? ==> Tag(r.value, name) in tags
    ensures r.None? <==> forall i | 0 <= i < |tags| :: tags[i].name != name
  {
    if tags == [] then None
    else if tags[0].name == name then Some(tags[0].id)
    else
      var r := TagIdByName(tags[1..], name);
      assert forall i | 1 <= i < |tags| :: tags[i] == tags[1..][i - 1];
      r
  }

  // ============ ENTRY OPERATIONS ============

  /** `INSERT INTO entries (title, audio_path, duration, transcript)`; both
      timestamps take their default, the engine's clock `now`. `fault` is an
      engine failure reported for the statement. Resolves to `lastID`. */
  function CreateEntryOn(t: Tables, title: Option<string>, audioPath: Option<string>,
                         duration: Option<real>, transcript: Option<string>,
                         now: int, fault: Option<string>): Step<int>
  {
    if fault.Some? then Step(t, Err(Engine(fault.value)))
    else if audioPath.None? then Step(t, Err(NotNullConstraint("entries.audio_path")))
    else
      var id := t.entrySeq + 1;
      var row := Entry(id, title, audioPath.value, duration, transcript, now, now);
      Step(t.(entries := t.entries + [row], entrySeq := id), Ok(id))
  }

  lemma {:induction false} FindEntryAppend(rows: seq<Entry>, row: Entry, id: int)
    ensures FindEntry(rows + [row], id) ==
      if FindEntry(rows, id).Some? then FindEntry(rows, id)
      else if row.id == id then Some(row) else None
  {
    if rows != [] {
      assert (rows + [row])[1..] == rows[1..] + [row];
      FindEntryAppend(rows[1..], row, id);
    }
  }

  /** A row whose id is one above the counter can be appended. */
  lemma AppendKeepsIds(rows: seq<Entry>, row: Entry, counter: nat)
    requires EntryIdsValid(rows, counter) && row.id == counter + 1
    ensures EntryIdsValid(rows + [row], counter + 1)
    ensures FindEntry(rows, row.id).None?
  {
    var r := rows + [row];
    assert forall i | 0 <= i < |rows| :: r[i] == rows[i];
  }

  /** After appending such a row, it is found under its id and every other
      id finds what it found before. */
  lemma AppendFinds(rows: seq<Entry>, row: Entry, counter: nat)
    requires EntryIdsValid(rows, counter) && row.id == counter + 1
    ensures FindEntry(rows + [row], row.id) == Some(row)
    ensures forall j | j != row.id :: FindEntry(rows + [row], j) == FindEntry(rows, j)
  {
    AppendKeepsIds(rows, row, counter);
    forall j ensures FindEntry(rows + [row], j) == if j == row.id then Some(row) else FindEntry(rows, j) {
      FindEntryAppend(rows, row, j);
    }
  }

  /** createEntry adds exactly one row, with the given fields, a fresh id
      larger than every id handed out before, and equal timestamps; a
      following getEntry returns it and nothing else changes. */
  lemma CreateEntryEffect(t: Tables, title: Option<string>, audioPath: Option<string>,
                          duration: Option<real>, transcript: Option<string>, now: int)
    requires Valid(t)
    ensures var s := CreateEntryOn(t, title, audioPath, duration, transcript, now, None);
      && (audioPath.None? ==> s == Step(t, Err(NotNullConstraint("entries.audio_path"))))
      && (audioPath.Some? ==>
            && s.result == Ok(t.entrySeq + 1)
            && FindEntry(t.entries, t.entrySeq + 1).None?
            && var row := Entry(t.entrySeq + 1, title, audioPath.value, duration, transcript, now, now);
            && s.tables == t.(entries := t.entries + [row], entrySeq := t.entrySeq + 1)
            && FindEntry(s.tables.entries, row.id) == Some(row)
            && (forall j | j != row.id :: FindEntry(s.tables.entries, j) == FindEntry(t.entries, j))
            && Valid(s.tables))
  {
    if audioPath.Some? {
      var row := Entry(t.entrySeq + 1, title, audioPath.value, duration, transcript, now, now);
      var after := t.(entries := t.entries + [row], entrySeq := t.entrySeq + 1);
      assert CreateEntryOn(t, title, audioPath, duration, transcript, now, None) == Step(after, Ok(row.id));
      AppendKeepsIds(t.entries, row, t.entrySeq);
      assert Valid(after);
      AppendFinds(t.entries, row, t.entrySeq);
    }
  }

  datatype UpdateInfo = UpdateInfo(id: int, changes: nat)

  /** The row as `SET title = ?, transcript = ?, modified_at = CURRENT_TIMESTAMP` leaves it. */
  function Touched(e: Entry, title: Option<string>, transcript: Option<string>, now: int): Entry {
    e.(title := title, transcript := transcript, modifiedAt := now)
  }

  function UpdateRows(rows: seq<Entry>, id: int, title: Option<string>, transcript: Option<string>, now: int): (r: seq<Entry>)
    ensures |r| == |rows|
    ensures forall i | 0 <= i < |rows| :: r[i] == if rows[i].id == id then Touched(rows[i], title, transcript, now) else rows[i]
  {
    if rows == [] then []
    else
      var head := if rows[0].id == id then Touched(rows[0], title, transcript, now) else rows[0];
      [head] + UpdateRows(rows[1..], id, title, transcript, now)
  }

  lemma {:induction false} FindEntryUpdated(rows: seq<Entry>, id: int, title: Option<string>,
                                           transcript: Option<string>, now: int, j: int)
    ensures FindEntry(UpdateRows(rows, id, title, transcript, now), j) ==
      if j == id && FindEntry(rows, j).Some? then Some(Touched(FindEntry(rows, j).value, title, transcript, now))
      else FindEntry(rows, j)
  {
    if rows != [] {
      var r := UpdateRows(rows, id, title, transcript, now);
      assert r[1..] == UpdateRows(rows[1..], id, title, transcript, now);
      FindEntryUpdated(rows[1..], id, title, transcript, now, j);
    }
  }

  /** Rows that keep their ids position by position keep the id constraints. */
  lemma SameIdsKeepValid(a: seq<Entry>, b: seq<Entry>, counter: nat)
    requires EntryIdsValid(a, counter) && |a| == |b|
    requires forall i | 0 <= i < |a| :: a[i].id == b[i].id
    ensures EntryIdsValid(b, counter)
  {
  }

  /** `UPDATE entries SET title = ?, transcript = ?, modified_at = CURRENT_TIMESTAMP WHERE id = ?`;
      resolves to `{ id, changes }`. */
  function UpdateEntryOn(t: Tables, id: int, title: Option<string>, transcript: Option<string>,
                         now: int, fault: Option<string>): Step<UpdateInfo>
  {
    if fault.Some? then Step(t, Err(Engine(fault.value)))
    else
      var changes := if FindEntry(t.entries, id).Some? then 1 else 0;
      Step(t.(entries := UpdateRows(t.entries, id, title, transcript, now)), Ok(UpdateInfo(id, changes)))
  }

  /** updateEntry rewrites only title, transcript and modified_at of the row
      with that id; audio_path, duration, created_at and every other row stay;
      an absent id is a zero-change success that changes nothing. */
  lemma UpdateEntryEffect(t: Tables, id: int, title: Option<string>, transcript: Option<string>, now: int)
    requires Valid(t)
    ensures var s := UpdateEntryOn(t, id, title, transcript, now, None);
      && s.result.Ok? && s.result.value.id == id
      && (FindEntry(t.entries, id).None? <==> s.result.value.changes == 0)
      && (FindEntry(t.entries, id).None? ==> s.tables == t)
      && (FindEntry(t.entries, id).Some? ==>
            && s.result.value.changes == 1
            && var e := FindEntry(t.entries, id).value;
            && FindEntry(s.tables.entries, id) == Some(Entry(id, title, e.audioPath, e.duration, transcript, e.createdAt, now)))
      && (forall j | j != id :: FindEntry(s.tables.entries, j) == FindEntry(t.entries, j))
      && s.tables.(entries := t.entries) == t
      && Valid(s.tables)
  {
    var rows := UpdateRows(t.entries, id, title, transcript, now);
    SameIdsKeepValid(t.entries, rows, t.entrySeq);
    forall j ensures FindEntry(rows, j) ==
      if j == id && FindEntry(t.entries, j).Some? then Some(Touched(FindEntry(t.entries, j).value, title, transcript, now))
      else FindEntry(t.entries, j)
    {
      FindEntryUpdated(t.entries, id, title, transcript, now, j);
    }
    if FindEntry(t.entries, id).None? {
      assert rows == t.entries;
    }
  }

  /** The rows other than the one with primary key `id`. */
  function RemoveId(rows: seq<Entry>, id: int): (r: seq<Entry>)
    ensures forall i | 0 <= i < |r| :: r[i] in rows && r[i].id != id
  {
    if rows == [] then []
    else
      if rows[0].id == id then RemoveId(rows[1..], id) else [rows[0]] + RemoveId(rows[1..], id)
  }

  lemma {:induction false} FindEntryRemoved(rows: seq<Entry>, id: int, j: int)
    ensures FindEntry(RemoveId(rows, id), j) == if j == id then None else FindEntry(rows, j)
  {
    if rows != [] {
      FindEntryRemoved(rows[1..], id, j);
      if rows[0].id != id {
        assert ([rows[0]] + RemoveId(rows[1..], id))[1..] == RemoveId(rows[1..], id);
      }
    }
  }

  lemma TailKeepsIds(rows: seq<Entry>, counter: nat)
    requires rows != [] && EntryIdsValid(rows, counter)
    ensures EntryIdsValid(rows[1..], counter)
  {
    var tail := rows[1..];
    assert forall k | 0 <= k < |tail| :: tail[k] == rows[k + 1];
  }

  /** Prepending a row whose id is in range and below every other id keeps
      the id constraints. */
  lemma ConsKeepsIds(row: Entry, rest: seq<Entry>, counter: nat)
    requires EntryIdsValid(rest, counter) && 0 < row.id <= counter
    requires forall k | 0 <= k < |rest| :: row.id < rest[k].id
    ensures EntryIdsValid([row] + rest, counter)
  {
    var r := [row] + rest;
    forall a, b | 0 <= a < b < |r| ensures r[a].id < r[b].id {
      assert r[b] == rest[b - 1];
      if a > 0 { assert r[a] == rest[a - 1]; }
    }
    forall k | 0 <= k < |r| ensures 0 < r[k].id <= counter {
      if k > 0 { assert r[k] == rest[k - 1]; }
    }
  }

  lemma {:induction false} RemoveIdKeepsIds(rows: seq<Entry>, id: int, counter: nat)
    requires EntryIdsValid(rows, counter)
    ensures EntryIdsValid(RemoveId(rows, id), counter)
  {
    if rows != [] {
      var tail := rows[1..];
      TailKeepsIds(rows, counter);
      RemoveIdKeepsIds(tail, id, counter);
      var rt := RemoveId(tail, id);
      if rows[0].id != id {
        forall k | 0 <= k < |rt| ensures rows[0].id < rt[k].id {
          var m :| 0 <= m < |tail| && tail[m] == rt[k];
          assert rows[m + 1] == rt[k];
        }
        ConsKeepsIds(rows[0], rt, counter);
      }
    }
  }

  /** Ascending ids stay ascending without the first row, and the first id
      is below all the others. */
  lemma AscendingTail(rows: seq<Entry>)
    requires rows != [] && forall a, b | 0 <= a < b < |rows| :: rows[a].id < rows[b].id
    ensures forall a, b | 0 <= a < b < |rows[1..]| :: rows[1..][a].id < rows[1..][b].id
    ensures forall k | 0 <= k < |rows[1..]| :: rows[0].id < rows[1..][k].id
  {
    var tail := rows[1..];
    assert forall k | 0 <= k < |tail| :: tail[k] == rows[k + 1];
  }

  lemma {:induction false} RemoveIdCount(rows: seq<Entry>, id: int)
    requires forall a, b | 0 <= a < b < |rows| :: rows[a].id < rows[b].id
    ensures |RemoveId(rows, id)| == |rows| - if FindEntry(rows, id).Some? then 1 else 0
    ensures FindEntry(rows, id).None? ==> RemoveId(rows, id) == rows
  {
    if rows != [] {
      var tail := rows[1..];
      AscendingTail(rows);
      RemoveIdCount(tail, id);
      if rows[0].id == id {
        assert FindEntry(tail, id).None?;
        assert RemoveId(rows, id) == RemoveId(tail, id);
        assert FindEntry(rows, id) == Some(rows[0]);
      } else {
        assert RemoveId(rows, id) == [rows[0]] + RemoveId(tail, id);
        assert FindEntry(rows, id) == FindEntry(tail, id);
        if FindEntry(tail, id).None? {
          assert rows == [rows[0]] + tail;
        }
      }
    }
  }

  /** deleteEntry as it runs: `DELETE FROM entries WHERE id = ?`, resolving
      to `{ changes }`. The entry's `entry_tags` rows are untouched: db.js
      never turns on `PRAGMA foreign_keys`, so the declared ON DELETE CASCADE
      never fires. */
  function DeleteEntryUnenforcedOn(t: Tables, id: int, fault: Option<string>): Step<nat> {
    if fault.Some? then Step(t, Err(Engine(fault.value)))
    else
      var changes := if FindEntry(t.entries, id).Some? then 1 else 0;
      Step(t.(entries := RemoveId(t.entries, id)), Ok(changes))
  }

  /** deleteEntry with the ON DELETE CASCADE the schema declares: when a
      row is deleted, every `entry_tags` pair that names it goes with it. A
      delete that matches no row fires no cascade. */
  function DeleteEntryOn(t: Tables, id: int, fault: Option<string>): Step<nat> {
    var s := DeleteEntryUnenforcedOn(t, id, fault);
    if s.result.Err? || s.result.value == 0 then s
    else Step(s.tables.(entryTags := set p | p in t.entryTags && p.0 != id), s.result)
  }

  /** deleteEntry removes that row and no other, reports 1 or 0 changes,
      drops the deleted row's tag pairs, and keeps the AUTOINCREMENT counter,
      so the id is never handed out again. A zero-change delete changes
      nothing at all. */
  lemma DeleteEntryEffect(t: Tables, id: int)
    requires Valid(t)
    ensures var s := DeleteEntryOn(t, id, None);
      && s.result == Ok(if FindEntry(t.entries, id).Some? then 1 else 0)
      && FindEntry(s.tables.entries, id).None?
      && (forall j | j != id :: FindEntry(s.tables.entries, j) == FindEntry(t.entries, j))
      && |s.tables.entries| == |t.entries| - s.result.value
      && (s.result.value == 0 ==> s.tables == t)
      && (s.result.value == 1 ==> forall p :: p in s.tables.entryTags <==> p in t.entryTags && p.0 != id)
      && s.tables.(entries := t.entries, entryTags := t.entryTags) == t
      && Valid(s.tables)
  {
    RemoveIdKeepsIds(t.entries, id, t.entrySeq);
    RemoveIdCount(t.entries, id);
    forall j ensures FindEntry(RemoveId(t.entries, id), j) == if j == id then None else FindEntry(t.entries, j) {
      FindEntryRemoved(t.entries, id, j);
    }
  }

  /** A deleted id is never reused: the next entry gets a larger one. */
  lemma IdsNeverReused(t: Tables, id: int, title: Option<string>, audioPath: string,
                       duration: Option<real>, transcript: Option<string>, now: int)
    requires Valid(t) && FindEntry(t.entries, id).Some?
    ensures var after := DeleteEntryOn(t, id, None).tables;
      var s := CreateEntryOn(after, title, Some(audioPath), duration, transcript, now, None);
      s.result.Ok? && s.result.value > id
  {
    DeleteEntryEffect(t, id);
  }

  // ============ ENTRY QUERIES ============

  /** The columns getAllEntries may sort by. */
  datatype Column = CreatedAt | ModifiedAt | Title | Duration

  const VALID_SORT_FIELDS: seq<string> := ["created_at", "modified_at", "title", "duration"]

  function ColumnName(c: Column): string {
    match c
    case CreatedAt => "created_at"
    case ModifiedAt => "modified_at"
    case Title => "title"
    case Duration => "duration"
  }

  /** `validSortFields.includes(sortBy) ? sortBy : 'created_at'`, with the
      option's default `'created_at'` when it is absent. */
  function SortColumn(sortBy: Option<string>): (c: Column)
    ensures sortBy.Some? && sortBy.value in VALID_SORT_FIELDS ==> ColumnName(c) == sortBy.value
    ensures !(sortBy.Some? && sortBy.value in VALID_SORT_FIELDS) ==> c == CreatedAt
  {
    var name := if sortBy.Some? then sortBy.value else "created_at";
    if name == "modified_at" then ModifiedAt
    else if name == "title" then Title
    else if name == "duration" then Duration
    else CreatedAt
  }

  /** `(order === 'ASC') ? 'ASC' : 'DESC'`. */
  function SortOrder(order: Option<string>): (d: Direction)
    ensures d == Asc <==> order == Some("ASC")
  {
    if order == Some("ASC") then Asc else Desc
  }

  /** `limit && Number.isInteger(limit) && limit > 0`: the limit counts only
      when it is a positive whole number. */
  function EffectiveLimit(limit: Option<real>): (k: Option<nat>)
    ensures k.Some? <==> limit.Some? && limit.value > 0.0 && limit.value == limit.value.Floor as real
    ensures k.Some? ==> k.value > 0 && k.value as real == limit.value
  {
    if limit.Some? && limit.value > 0.0 && limit.value == limit.value.Floor as real then
      Some(limit.value.Floor as nat)
    else None
  }

  /** The value of column `c` in row `e`, as a sort key. */
  function ColumnKey(e: Entry, c: Column): Key {
    match c
    case CreatedAt => Number(e.createdAt as real)
    case ModifiedAt => Number(e.modifiedAt as real)
    case Title => if e.title.Some? then Text(e.title.value) else Null
    case Duration => if e.duration.Some? then Number(e.duration.value) else Null
  }

  function KeyOf(c: Column): Entry -> Key {
    e => ColumnKey(e, c)
  }

  lemma PrefixMultiset<T>(s: seq<T>, k: nat)
    requires k <= |s|
    ensures multiset(s[..k]) <= multiset(s)
  {
    assert s == s[..k] + s[k..];
  }

  /** `SELECT * FROM entries ORDER BY <field> <order> [LIMIT ?]`. */
  function AllEntries(rows: seq<Entry>, sortBy: Option<string>, order: Option<string>, limit: Option<real>): (r: seq<Entry>)
    ensures SortedBy(r, KeyOf(SortColumn(sortBy)), SortOrder(order))
    ensures multiset(r) <= multiset(rows)
    ensures EffectiveLimit(limit).None? ==> multiset(r) == multiset(rows)
    ensures |r| == if EffectiveLimit(limit).Some? then Min(EffectiveLimit(limit).value, |rows|) else |rows|
    ensures forall i, e | 0 <= i < |r| && e in rows && e !in r ::
              InOrder(KeyOf(SortColumn(sortBy))(r[i]), KeyOf(SortColumn(sortBy))(e), SortOrder(order))
  {
    var key, dir := KeyOf(SortColumn(sortBy)), SortOrder(order);
    var sorted := SortBy(rows, key, dir);
    match EffectiveLimit(limit)
    case None =>
      TakeIsFirst(sorted, rows, key, dir, |sorted|);
      assert sorted[..|sorted|] == sorted;
      sorted
    case Some(k) =>
      var n := Min(k, |sorted|);
      TakeIsFirst(sorted, rows, key, dir, n);
      PrefixMultiset(sorted, n);
      sorted[..n]
  }

  /** A sort field outside the whitelist is the same query as no sort field,
      and any order other than exactly 'ASC' is the same as 'DESC'. */
  lemma SortOptionsFallBack(rows: seq<Entry>, sortBy: string, order: Option<string>, limit: Option<real>)
    requires sortBy !in VALID_SORT_FIELDS
    ensures AllEntries(rows, Some(sortBy), order, limit) == AllEntries(rows, None, order, limit)
    ensures order != Some("ASC") ==> AllEntries(rows, Some(sortBy), order, limit) == AllEntries(rows, None, None, limit)
  {
  }

  /** `title LIKE '%kw%' OR transcript LIKE '%kw%'` (a NULL column never matches). */
  predicate Matches(e: Entry, keyword: string) {
    (e.title.Some? && Contains(e.title.value, keyword)) ||
    (e.transcript.Some? && Contains(e.transcript.value, keyword))
  }

  /** searchEntries: exactly the matching rows, newest first. */
  function SearchIn(rows: seq<Entry>, keyword: string): (r: seq<Entry>)
    ensures forall i | 0 <= i < |r| :: r[i] in rows && Matches(r[i], keyword)
    ensures forall i | 0 <= i < |rows| && Matches(rows[i], keyword) :: rows[i] in r
    ensures multiset(r) <= multiset(rows)
    ensures SortedBy(r, KeyOf(CreatedAt), Desc)
  {
    SelectWhere(rows, e => Matches(e, keyword), KeyOf(CreatedAt), Desc)
  }

  /** An entry together with the tags getEntry attaches when asked to. */
  datatype EntryView = EntryView(entry: Entry, tags: Option<seq<Tag>>)

  /** getEntry: the row with that id or null; with `includeTags`, its tags,
      or no tags when that lookup fails (`tagLookupFails`). */
  function EntryById(t: Tables, id: int, includeTags: bool, tagLookupFails: bool): (r: Option<EntryView>)
    ensures r.None? <==> forall i | 0 <= i < |t.entries| :: t.entries[i].id != id
    ensures r.Some? ==> r.value.entry in t.entries && r.value.entry.id == id
    ensures r.Some? ==> (r.value.tags.Some? <==> includeTags)
    ensures r.Some? && includeTags ==> r.value.tags.value == if tagLookupFails then [] else TagsForEntry(t, id)
  {
    match FindEntry(t.entries, id)
    case None => None
    case Some(e) =>
      var tags := if !includeTags then None else if tagLookupFails then Some([]) else Some(TagsForEntry(t, id));
      Some(EntryView(e, tags))
  }

  // ============ TAG OPERATIONS ============

  /** createTag as it runs: `INSERT INTO tags (name) VALUES (?)`. A UNIQUE
      violation is answered by looking the name up (which can itself fail,
      `lookupFault`); any other error rejects. The callback is bound to the
      DAO, so on a fresh insert `this.lastID` is read from the DAO, which has
      no such property: the promise resolves to undefined (`None`). */
  function CreateTagAsWrittenOn(t: Tables, name: Option<string>, insertFault: Option<string>,
                       lookupFault: Option<string>): Step<Option<int>>
  {
    if insertFault.Some? then Step(t, Err(Engine(insertFault.value)))
    else if name.None? then Step(t, Err(NotNullConstraint("tags.name")))
    else
      match TagIdByName(t.tags, name.value)
      case Some(existing) =>
        if lookupFault.Some? then Step(t, Err(Engine(lookupFault.value))) else Step(t, Ok(Some(existing)))
      case None =>
        var id := t.tagSeq + 1;
        Step(t.(tags := t.tags + [Tag(id, name.value)], tagSeq := id), Ok(None))
  }

  /** createTag as its documentation promises: the same statements, but a
      fresh insert resolves to the statement's `lastID`, the new tag's id. */
  function CreateTagOn(t: Tables, name: Option<string>, insertFault: Option<string>,
                       lookupFault: Option<string>): Step<Option<int>>
  {
    var s := CreateTagAsWrittenOn(t, name, insertFault, lookupFault);
    if s.result == Ok(None) then Step(s.tables, Ok(Some(s.tables.tagSeq))) else s
  }

  lemma {:induction false} TagIdByNameAppend(tags: seq<Tag>, g: Tag, name: string)
    ensures TagIdByName(tags + [g], name) ==
      if TagIdByName(tags, name).Some? then TagIdByName(tags, name)
      else if g.name == name then Some(g.id) else None
  {
    if tags != [] {
      assert (tags + [g])[1..] == tags[1..] + [g];
      TagIdByNameAppend(tags[1..], g, name);
    }
  }

  /** Appending a tag with the next id and an unused name keeps the
      constraints on `tags`. */
  lemma AppendTagKeepsValid(tags: seq<Tag>, g: Tag, counter: nat)
    requires TagIdsValid(tags, counter) && TagNamesUnique(tags)
    requires g.id == counter + 1 && TagIdByName(tags, g.name).None?
    ensures TagIdsValid(tags + [g], counter + 1) && TagNamesUnique(tags + [g])
  {
    var r := tags + [g];
    assert forall k | 0 <= k < |tags| :: r[k] == tags[k];
    assert r[|tags|] == g;
  }

  /** A fresh insert creates the tag but, as written, resolves to nothing. */
  lemma CreateTagFreshLosesId(t: Tables, name: string)
    requires Valid(t) && TagIdByName(t.tags, name).None?
    ensures var s := CreateTagAsWrittenOn(t, Some(name), None, None);
      && s.result == Ok(None)
      && s.tables.tags == t.tags + [Tag(t.tagSeq + 1, name)]
      && TagIdByName(s.tables.tags, name) == Some(t.tagSeq + 1)
      && Valid(s.tables)
  {
    TagIdByNameAppend(t.tags, Tag(t.tagSeq + 1, name), name);
    AppendTagKeepsValid(t.tags, Tag(t.tagSeq + 1, name), t.tagSeq);
  }

  /** A name that is already taken leaves the tables unchanged and resolves
      to the existing id, so repeated calls agree; when the lookup of the
      existing id fails (`lookupFault`), it rejects with that error. */
  lemma CreateTagCollision(t: Tables, name: string, lookupFault: string)
    requires Valid(t) && TagIdByName(t.tags, name).Some?
    ensures CreateTagOn(t, Some(name), None, None) == Step(t, Ok(TagIdByName(t.tags, name)))
    ensures CreateTagAsWrittenOn(t, Some(name), None, None) == CreateTagOn(t, Some(name), None, None)
    ensures CreateTagOn(t, Some(name), None, Some(lookupFault)) == Step(t, Err(Engine(lookupFault)))
    ensures CreateTagOn(t, None, None, None) == Step(t, Err(NotNullConstraint("tags.name")))
  {
  }

  /** createTag always resolves to the id that the name has afterwards,
      keeps the constraints, and is idempotent under the name. */
  lemma CreateTagResolvesId(t: Tables, name: string)
    requires Valid(t)
    ensures var s := CreateTagOn(t, Some(name), None, None);
      && s.result.Ok? && s.result.value.Some?
      && TagIdByName(s.tables.tags, name) == s.result.value
      && Valid(s.tables)
      && s.tables.(tags := t.tags, tagSeq := t.tagSeq) == t
      && (TagIdByName(t.tags, name).Some? ==> s.tables == t)
      && (TagIdByName(t.tags, name).None? ==>
            && s.result == Ok(Some(t.tagSeq + 1))
            && s.tables == t.(tags := t.tags + [Tag(t.tagSeq + 1, name)], tagSeq := t.tagSeq + 1))
      && CreateTagOn(s.tables, Some(name), None, None) == Step(s.tables, s.result)
  {
    if TagIdByName(t.tags, name).None? {
      CreateTagFreshLosesId(t, name);
    }
  }

  /** `INSERT OR IGNORE INTO entry_tags`: the pair is present afterwards,
      re-tagging changes nothing; resolves to true. The foreign keys are not
      enforced, so pairs naming absent rows are accepted too. */
  function TagEntryOn(t: Tables, entryId: int, tagId: int, fault: Option<string>): Step<bool> {
    if fault.Some? then Step(t, Err(Engine(fault.value)))
    else Step(t.(entryTags := t.entryTags + {(entryId, tagId)}), Ok(true))
  }

  /** `DELETE FROM entry_tags WHERE entry_id = ? AND tag_id = ?`; resolves to true. */
  function UntagEntryOn(t: Tables, entryId: int, tagId: int, fault: Option<string>): Step<bool> {
    if fault.Some? then Step(t, Err(Engine(fault.value)))
    else Step(t.(entryTags := t.entryTags - {(entryId, tagId)}), Ok(true))
  }

  /** Associations have set semantics: tagging an existing pair and
      untagging an absent one succeed without change, and each is idempotent. */
  lemma AssociationSetSemantics(t: Tables, entryId: int, tagId: int)
    ensures (entryId, tagId) in t.entryTags ==> TagEntryOn(t, entryId, tagId, None) == Step(t, Ok(true))
    ensures (entryId, tagId) !in t.entryTags ==> UntagEntryOn(t, entryId, tagId, None) == Step(t, Ok(true))
    ensures var once := TagEntryOn(t, entryId, tagId, None).tables;
      (entryId, tagId) in once.entryTags && TagEntryOn(once, entryId, tagId, None).tables == once
    ensures var once := UntagEntryOn(t, entryId, tagId, None).tables;
      (entryId, tagId) !in once.entryTags && UntagEntryOn(once, entryId, tagId, None).tables == once
    ensures TagEntryOn(t, entryId, tagId, None).result == Ok(true) && UntagEntryOn(t, entryId, tagId, None).result == Ok(true)
    ensures forall p | p != (entryId, tagId) ::
      && (p in TagEntryOn(t, entryId, tagId, None).tables.entryTags <==> p in t.entryTags)
      && (p in UntagEntryOn(t, entryId, tagId, None).tables.entryTags <==> p in t.entryTags)
    ensures TagEntryOn(t, entryId, tagId, None).tables.(entryTags := t.entryTags) == t
    ensures UntagEntryOn(t, entryId, tagId, None).tables.(entryTags := t.entryTags) == t
    ensures Valid(t) ==> Valid(TagEntryOn(t, entryId, tagId, None).tables) && Valid(UntagEntryOn(t, entryId, tagId, None).tables)
  {
  }

  // ============ TAG QUERIES ============

  function TagKey(g: Tag): Key {
    Text(g.name)
  }

  /** `SELECT * FROM tags ORDER BY name`. */
  function AllTags(t: Tables): (r: seq<Tag>)
    ensures multiset(r) == multiset(t.tags)
    ensures SortedBy(r, TagKey, Asc)
  {
    SortBy(t.tags, TagKey, Asc)
  }

  /** `SELECT t.* FROM tags t JOIN entry_tags et ... WHERE et.entry_id = ? ORDER BY t.name`. */
  function TagsForEntry(t: Tables, entryId: int): (r: seq<Tag>)
    ensures forall i | 0 <= i < |r| :: r[i] in t.tags && (entryId, r[i].id) in t.entryTags
    ensures forall i | 0 <= i < |t.tags| && (entryId, t.tags[i].id) in t.entryTags :: t.tags[i] in r
    ensures multiset(r) <= multiset(t.tags)
    ensures SortedBy(r, TagKey, Asc)
  {
    SelectWhere(t.tags, (g: Tag) => (entryId, g.id) in t.entryTags, TagKey, Asc)
  }

  /** `SELECT e.* FROM entries e JOIN entry_tags et ... WHERE et.tag_id = ? ORDER BY e.created_at DESC`. */
  function EntriesWithTag(t: Tables, tagId: int): (r: seq<Entry>)
    ensures forall i | 0 <= i < |r| :: r[i] in t.entries && (r[i].id, tagId) in t.entryTags
    ensures forall i | 0 <= i < |t.entries| && (t.entries[i].id, tagId) in t.entryTags :: t.entries[i] in r
    ensures multiset(r) <= multiset(t.entries)
    ensures SortedBy(r, KeyOf(CreatedAt), Desc)
  {
    SelectWhere(t.entries, (e: Entry) => (e.id, tagId) in t.entryTags, KeyOf(CreatedAt), Desc)
  }

  /** As written, deleting an entry leaves its tags attached: getTagsForEntry
      of the deleted id answers exactly what it answered before. */
  lemma DeleteEntryKeepsTags(t: Tables, id: int)
    ensures TagsForEntry(DeleteEntryUnenforcedOn(t, id, None).tables, id) == TagsForEntry(t, id)
  {
    var after := DeleteEntryUnenforcedOn(t, id, None).tables;
    assert after.tags == t.tags && after.entryTags == t.entryTags;
  }

  /** One concrete database where that shows: entry 1 tagged "work", then deleted. */
  lemma DeleteEntryKeepsTagsExample()
    ensures var t := Tables(AllTables, [Entry(1, None, "/r/recording_1.wav", None, None, 0, 0)],
                            [Tag(1, "work")], {(1, 1)}, 1, 1);
      TagsForEntry(DeleteEntryUnenforcedOn(t, 1, None).tables, 1) == [Tag(1, "work")]
  {
    var t := Tables(AllTables, [Entry(1, None, "/r/recording_1.wav", None, None, 0, 0)],
                    [Tag(1, "work")], {(1, 1)}, 1, 1);
    DeleteEntryKeepsTags(t, 1);
    var r := TagsForEntry(t, 1);
    assert Tag(1, "work") in r;
    assert multiset(r) <= multiset([Tag(1, "work")]);
    assert |r| == 1 by {
      assert |multiset(r)| <= 1;
    }
  }

  /** With the cascade the schema declares, a deleted entry has no tags
      left; the rows are those the plain DELETE leaves. */
  lemma CascadeDeleteClearsTags(t: Tables, id: int)
    ensures var s := DeleteEntryOn(t, id, None);
      && (FindEntry(t.entries, id).Some? ==> TagsForEntry(s.tables, id) == [])
      && s.tables.entries == DeleteEntryUnenforcedOn(t, id, None).tables.entries
  {
    var s := DeleteEntryOn(t, id, None);
    if FindEntry(t.entries, id).Some? {
      assert forall p | p in s.tables.entryTags :: p.0 != id;
    }
  }

  // ============ TRANSACTIONS ============

  /** One call a transaction block makes on the DAO, or a synchronous throw. */
  datatype Op =
    | CreateEntryOp(title: Option<string>, audioPath: Option<string>, duration: Option<real>,
                    transcript: Option<string>, now: int, fault: Option<string>)
    | UpdateEntryOp(id: int, title: Option<string>, transcript: Option<string>, now: int, fault: Option<string>)
    | DeleteEntryOp(id: int, fault: Option<string>)
    | CreateTagOp(name: Option<string>, insertFault: Option<string>, lookupFault: Option<string>)
    | TagEntryOp(entryId: int, tagId: int, fault: Option<string>)
    | UntagEntryOp(entryId: int, tagId: int, fault: Option<string>)
    | Throw(message: string)

  /** What an operation's promise resolves to. */
  datatype Reply =
    | EntryCreated(id: int)
    | EntryUpdated(info: UpdateInfo)
    | EntryDeleted(changes: nat)
    | TagCreated(tagId: Option<int>)
    | Linked(ok: bool)

  function Lift<R>(s: Step<R>, wrap: R -> Reply): Step<Reply> {
    match s.result
    case Ok(v) => Step(s.tables, Ok(wrap(v)))
    case Err(e) => Step(s.tables, Err(e))
  }

  /** The effect of one operation. A rejected operation is a failed promise
      the block does not wait for: it does not abort the block. */
  function Exec(t: Tables, op: Op): Step<Reply> {
    match op
    case CreateEntryOp(title, path, dur, tr, now, f) =>
      Lift(CreateEntryOn(t, title, path, dur, tr, now, f), (id: int) => EntryCreated(id))
    case UpdateEntryOp(id, title, tr, now, f) =>
      Lift(UpdateEntryOn(t, id, title, tr, now, f), (u: UpdateInfo) => EntryUpdated(u))
    case DeleteEntryOp(id, f) => Lift(DeleteEntryOn(t, id, f), (n: nat) => EntryDeleted(n))
    case CreateTagOp(name, f, g) => Lift(CreateTagOn(t, name, f, g), (x: Option<int>) => TagCreated(x))
    case TagEntryOp(e, g, f) => Lift(TagEntryOn(t, e, g, f), (b: bool) => Linked(b))
    case UntagEntryOp(e, g, f) => Lift(UntagEntryOn(t, e, g, f), (b: bool) => Linked(b))
    case Throw(m) => Step(t, Err(Thrown(m)))
  }

  lemma LiftKeepsTables<R>(s: Step<R>, wrap: R -> Reply)
    ensures Lift(s, wrap).tables == s.tables
  {
  }

  lemma CreateEntryKeepsValid(t: Tables, title: Option<string>, path: Option<string>, dur: Option<real>,
                              tr: Option<string>, now: int, f: Option<string>)
    requires Valid(t)
    ensures var s := CreateEntryOn(t, title, path, dur, tr, now, f); Valid(s.tables) && s.tables.schema == t.schema
  {
    if f.None? { CreateEntryEffect(t, title, path, dur, tr, now); }
  }

  lemma UpdateEntryKeepsValid(t: Tables, id: int, title: Option<string>, tr: Option<string>, now: int, f: Option<string>)
    requires Valid(t)
    ensures var s := UpdateEntryOn(t, id, title, tr, now, f); Valid(s.tables) && s.tables.schema == t.schema
  {
    if f.None? { UpdateEntryEffect(t, id, title, tr, now); }
  }

  lemma DeleteEntryKeepsValid(t: Tables, id: int, f: Option<string>)
    requires Valid(t)
    ensures var s := DeleteEntryOn(t, id, f); Valid(s.tables) && s.tables.schema == t.schema
  {
    if f.None? { DeleteEntryEffect(t, id); }
  }

  lemma CreateTagKeepsValid(t: Tables, name: Option<string>, f: Option<string>, g: Option<string>)
    requires Valid(t)
    ensures var s := CreateTagOn(t, name, f, g); Valid(s.tables) && s.tables.schema == t.schema
  {
    if f.None? && name.Some? && TagIdByName(t.tags, name.value).None? {
      CreateTagFreshLosesId(t, name.value);
      assert CreateTagOn(t, name, f, g).tables == CreateTagAsWrittenOn(t, name, None, None).tables;
    }
  }

  /** The constraints hold after each statement, whether it succeeds, fails
      or is rejected by the engine. */
  lemma StatementsKeepConstraints(t: Tables, op: Op)
    requires Valid(t)
    ensures op.CreateEntryOp? ==>
      var s := CreateEntryOn(t, op.title, op.audioPath, op.duration, op.transcript, op.now, op.fault);
      Valid(s.tables) && s.tables.schema == t.schema
    ensures op.UpdateEntryOp? ==>
      var s := UpdateEntryOn(t, op.id, op.title, op.transcript, op.now, op.fault);
      Valid(s.tables) && s.tables.schema == t.schema
    ensures op.DeleteEntryOp? ==>
      var s := DeleteEntryOn(t, op.id, op.fault);
      Valid(s.tables) && s.tables.schema == t.schema
    ensures op.CreateTagOp? ==>
      var s := CreateTagOn(t, op.name, op.insertFault, op.lookupFault);
      Valid(s.tables) && s.tables.schema == t.schema
  {
    match op
    case CreateEntryOp(title, path, dur, tr, now, f) => CreateEntryKeepsValid(t, title, path, dur, tr, now, f);
    case UpdateEntryOp(id, title, tr, now, f) => UpdateEntryKeepsValid(t, id, title, tr, now, f);
    case DeleteEntryOp(id, f) => DeleteEntryKeepsValid(t, id, f);
    case CreateTagOp(name, f, g) => CreateTagKeepsValid(t, name, f, g);
    case TagEntryOp(e, g, f) =>
    case UntagEntryOp(e, g, f) =>
    case Throw(m) =>
  }

  lemma ExecKeepsConstraints(t: Tables, op: Op)
    requires Valid(t)
    ensures Valid(Exec(t, op).tables) && Exec(t, op).tables.schema == t.schema
  {
    StatementsKeepConstraints(t, op);
    match op
    case CreateEntryOp(title, path, dur, tr, now, f) =>
      LiftKeepsTables(CreateEntryOn(t, title, path, dur, tr, now, f), (id: int) => EntryCreated(id));
    case UpdateEntryOp(id, title, tr, now, f) =>
      LiftKeepsTables(UpdateEntryOn(t, id, title, tr, now, f), (u: UpdateInfo) => EntryUpdated(u));
    case DeleteEntryOp(id, f) =>
      LiftKeepsTables(DeleteEntryOn(t, id, f), (n: nat) => EntryDeleted(n));
    case CreateTagOp(name, f, g) =>
      LiftKeepsTables(CreateTagOn(t, name, f, g), (x: Option<int>) => TagCreated(x));
    case TagEntryOp(e, g, f) =>
      AssociationSetSemantics(t, e, g);
      LiftKeepsTables(TagEntryOn(t, e, g, f), (b: bool) => Linked(b));
    case UntagEntryOp(e, g, f) =>
      AssociationSetSemantics(t, e, g);
      LiftKeepsTables(UntagEntryOn(t, e, g, f), (b: bool) => Linked(b));
    case Throw(m) =>
  }

  /** The operations run in order on `t`: the tables afterwards and each
      operation's own outcome. */
  function Run(t: Tables, ops: seq<Op>): (Tables, seq<Result<Reply>>) {
    if ops == [] then (t, [])
    else
      var (before, replies) := Run(t, ops[..|ops| - 1]);
      var s := Exec(before, ops[|ops| - 1]);
      (s.tables, replies + [s.result])
  }

  /** The position of the first synchronous throw in a block. */
  function FirstThrow(ops: seq<Op>): (r: Option<nat>)
    ensures r.Some? ==> r.value < |ops| && ops[r.value].Throw?
    ensures r.Some? ==> forall j | 0 <= j < r.value :: !ops[j].Throw?
    ensures r.None? <==> forall j | 0 <= j < |ops| :: !ops[j].Throw?
  {
    if ops == [] then None
    else if ops[0].Throw? then Some(0)
    else
      var r := FirstThrow(ops[1..]);
      assert forall j | 1 <= j < |ops| :: ops[j] == ops[1..][j - 1];
      match r
      case None => None
      case Some(k) => Some(k + 1)
  }

  /** The throw at `i` is the first when nothing before it throws. */
  lemma FirstThrowAt(ops: seq<Op>, i: nat)
    requires i < |ops| && ops[i].Throw?
    requires forall j | 0 <= j < i :: !ops[j].Throw?
    ensures FirstThrow(ops) == Some(i)
  {
  }

  /** Running one more operation of a block extends the run by its outcome. */
  lemma RunExtends(t: Tables, ops: seq<Op>, i: nat)
    requires i < |ops|
    ensures Run(t, ops[..i + 1]) ==
      (Exec(Run(t, ops[..i]).0, ops[i]).tables, Run(t, ops[..i]).1 + [Exec(Run(t, ops[..i]).0, ops[i]).result])
  {
    assert ops[..i + 1][..i] == ops[..i];
  }

  /** The same, for a run known to have reached `before` with `replies`, and
      an operation known to step from `before` to `after` with `reply`. */
  lemma RunStep(t: Tables, ops: seq<Op>, i: nat, before: Tables, replies: seq<Result<Reply>>,
                after: Tables, reply: Result<Reply>)
    requires i < |ops| && (before, replies) == Run(t, ops[..i])
    requires Step(after, reply) == Exec(before, ops[i])
    ensures (after, replies + [reply]) == Run(t, ops[..i + 1])
  {
    RunExtends(t, ops, i);
  }

  /** `transaction(operations)`: BEGIN, run the block; a throw issues
      ROLLBACK and rejects with the thrown error, otherwise COMMIT and
      resolve to the outcomes of the block's calls. */
  function TransactionOn(t: Tables, ops: seq<Op>): Step<seq<Result<Reply>>> {
    match FirstThrow(ops)
    case Some(k) => Step(t, Err(Thrown(ops[k].message)))
    case None =>
      var (after, replies) := Run(t, ops);
      Step(after, Ok(replies))
  }

  /** A block whose first throw is at `i` rejects with it and keeps `t`. */
  lemma TransactionThrowsAt(t: Tables, ops: seq<Op>, i: nat)
    requires i < |ops| && ops[i].Throw?
    requires forall j | 0 <= j < i :: !ops[j].Throw?
    ensures TransactionOn(t, ops) == Step(t, Err(Thrown(ops[i].message)))
  {
    FirstThrowAt(ops, i);
  }

  /** A block without a throw commits its run. */
  lemma TransactionCommits(t: Tables, ops: seq<Op>)
    requires forall j | 0 <= j < |ops| :: !ops[j].Throw?
    ensures TransactionOn(t, ops) == Step(Run(t, ops).0, Ok(Run(t, ops).1))
  {
  }

  /** All or nothing: a block that throws leaves the tables as they were and
      surfaces the error; a block that does not throw commits every effect. */
  lemma TransactionAllOrNothing(t: Tables, ops: seq<Op>)
    ensures var s := TransactionOn(t, ops);
      && (FirstThrow(ops).Some? ==> s.tables == t && s.result == Err(Thrown(ops[FirstThrow(ops).value].message)))
      && (FirstThrow(ops).None? ==> s.result.Ok? && s.tables == Run(t, ops).0)
  {
  }

  /** A block that creates an entry and then throws leaves no trace of the
      entry: the id it was given is absent afterwards. */
  lemma ThrowAfterCreateLeavesNoEntry(t: Tables, title: Option<string>, audioPath: string,
                                      now: int, message: string)
    requires Valid(t)
    ensures var ops := [CreateEntryOp(title, Some(audioPath), None, None, now, None), Throw(message)];
      && Exec(t, ops[0]).result == Ok(EntryCreated(t.entrySeq + 1))
      && FindEntry(TransactionOn(t, ops).tables.entries, t.entrySeq + 1).None?
  {
    CreateEntryEffect(t, title, Some(audioPath), None, None, now);
  }

  /** An id is handed out twice when the block that received it rolls back:
      the block's createEntry resolves to the next id, the ROLLBACK restores
      the counter, and the next createEntry resolves to that same id. */
  lemma IdReissuedAfterRollback(t: Tables, audioPath: string, now: int, message: string)
    requires Valid(t)
    ensures var ops := [CreateEntryOp(None, Some(audioPath), None, None, now, None), Throw(message)];
      var after := TransactionOn(t, ops).tables;
      && Exec(t, ops[0]).result == Ok(EntryCreated(t.entrySeq + 1))
      && after == t
      && CreateEntryOn(after, None, Some(audioPath), None, None, now, None).result == Ok(t.entrySeq + 1)
  {
    var ops := [CreateEntryOp(None, Some(audioPath), None, None, now, None), Throw(message)];
    CreateEntryEffect(t, None, Some(audioPath), None, None, now);
    FirstThrowAt(ops, 1);
  }

  /** A statement that rejects inside a block does not roll the block back:
      the entry created before it is committed. */
  lemma RejectionInsideBlockCommits(t: Tables, audioPath: string, now: int)
    requires Valid(t)
    ensures var ops := [CreateEntryOp(None, Some(audioPath), None, None, now, None),
                        CreateEntryOp(None, None, None, None, now, None)];
      var s := TransactionOn(t, ops);
      && s.result == Ok([Ok(EntryCreated(t.entrySeq + 1)), Err(NotNullConstraint("entries.audio_path"))])
      && FindEntry(s.tables.entries, t.entrySeq + 1).Some?
  {
    var ops := [CreateEntryOp(None, Some(audioPath), None, None, now, None),
                CreateEntryOp(None, None, None, None, now, None)];
    CreateEntryEffect(t, None, Some(audioPath), None, None, now);
    var first := Exec(t, ops[0]);
    assert first.result == Ok(EntryCreated(t.entrySeq + 1));
    var one := ops[..1];
    assert one[..|one| - 1] == [];
    assert one[|one| - 1] == ops[0];
    assert Run(t, []) == (t, []);
    assert Run(t, one) == (Exec(t, ops[0]).tables, [] + [Exec(t, ops[0]).result]);
    assert [] + [first.result] == [first.result];
    assert ops[..|ops| - 1] == one;
    var second := Exec(first.tables, ops[1]);
    assert second == Step(first.tables, Err(NotNullConstraint("entries.audio_path")));
    assert [first.result] + [second.result] == [first.result, second.result];
    assert FirstThrow(ops).None?;
  }

  // ============ THE DAO ============

  class JournalDAO {
    /** `database.get()`: the open connection. */
    const db: Database

    constructor (db: Database)
      ensures this.db == db
    {
      this.db := db;
    }

    /** The connection is open and `createTables` has committed. */
    ghost predicate Ready()
      reads this, db
    {
      Initialized(db.tables)
    }

    method CreateEntry(title: Option<string>, audioPath: Option<string>, duration: Option<real>,
                       transcript: Option<string>, now: int, fault: Option<string>) returns (r: Result<int>)
      requires Ready()
      modifies db
      ensures Ready()
      ensures Step(db.tables, r) == CreateEntryOn(old(db.tables), title, audioPath, duration, transcript, now, fault)
      ensures r.Ok? ==> (audioPath.Some? &&
        FindEntry(db.tables.entries, r.value) == Some(Entry(r.value, title, audioPath.value, duration, transcript, now, now)))
      ensures r.Err? ==> db.tables == old(db.tables)
    {
      if fault.None? { CreateEntryEffect(db.tables, title, audioPath, duration, transcript, now); }
      var s := CreateEntryOn(db.tables, title, audioPath, duration, transcript, now, fault);
      db.tables := s.tables;
      r := s.result;
    }

    function GetAllEntries(sortBy: Option<string>, order: Option<string>, limit: Option<real>): seq<Entry>
      reads db
    {
      AllEntries(db.tables.entries, sortBy, order, limit)
    }

    function GetEntry(id: int, includeTags: bool, tagLookupFails: bool): Option<EntryView>
      reads db
    {
      EntryById(db.tables, id, includeTags, tagLookupFails)
    }

    method UpdateEntry(id: int, title: Option<string>, transcript: Option<string>, now: int,
                       fault: Option<string>) returns (r: Result<UpdateInfo>)
      requires Ready()
      modifies db
      ensures Ready()
      ensures Step(db.tables, r) == UpdateEntryOn(old(db.tables), id, title, transcript, now, fault)
    {
      if fault.None? { UpdateEntryEffect(db.tables, id, title, transcript, now); }
      var s := UpdateEntryOn(db.tables, id, title, transcript, now, fault);
      db.tables := s.tables;
      r := s.result;
    }

    method DeleteEntry(id: int, fault: Option<string>) returns (r: Result<nat>)
      requires Ready()
      modifies db
      ensures Ready()
      ensures Step(db.tables, r) == DeleteEntryOn(old(db.tables), id, fault)
    {
      if fault.None? { DeleteEntryEffect(db.tables, id); }
      var s := DeleteEntryOn(db.tables, id, fault);
      db.tables := s.tables;
      r := s.result;
    }

    function SearchEntries(keyword: string): seq<Entry>
      reads db
    {
      SearchIn(db.tables.entries, keyword)
    }

    method CreateTag(name: Option<string>, insertFault: Option<string>, lookupFault: Option<string>)
      returns (r: Result<Option<int>>)
      requires Ready()
      modifies db
      ensures Ready()
      ensures Step(db.tables, r) == CreateTagOn(old(db.tables), name, insertFault, lookupFault)
    {
      if insertFault.None? && name.Some? && TagIdByName(db.tables.tags, name.value).None? {
        CreateTagResolvesId(db.tables, name.value);
      }
      var s := CreateTagOn(db.tables, name, insertFault, lookupFault);
      db.tables := s.tables;
      r := s.result;
    }

    function GetAllTags(): seq<Tag>
      reads db
    {
      AllTags(db.tables)
    }

    method TagEntry(entryId: int, tagId: int, fault: Option<string>) returns (r: Result<bool>)
      requires Ready()
      modifies db
      ensures Ready()
      ensures Step(db.tables, r) == TagEntryOn(old(db.tables), entryId, tagId, fault)
    {
      var s := TagEntryOn(db.tables, entryId, tagId, fault);
      db.tables := s.tables;
      r := s.result;
    }

    method UntagEntry(entryId: int, tagId: int, fault: Option<string>) returns (r: Result<bool>)
      requires Ready()
      modifies db
      ensures Ready()
      ensures Step(db.tables, r) == UntagEntryOn(old(db.tables), entryId, tagId, fault)
    {
      var s := UntagEntryOn(db.tables, entryId, tagId, fault);
      db.tables := s.tables;
      r := s.result;
    }

    function GetTagsForEntry(entryId: int): seq<Tag>
      reads db
    {
      TagsForEntry(db.tables, entryId)
    }

    function GetEntriesWithTag(tagId: int): seq<Entry>
      reads db
    {
      EntriesWithTag(db.tables, tagId)
    }

    /** Performs one operation of a transaction block through the DAO. */
    method Apply(op: Op) returns (r: Result<Reply>)
      requires Ready() && !op.Throw?
      modifies db
      ensures Ready()
      ensures Step(db.tables, r) == Exec(old(db.tables), op)
    {
      match op
      case CreateEntryOp(title, path, dur, tr, now, f) =>
        var x := CreateEntry(title, path, dur, tr, now, f);
        r := if x.Ok? then Ok(EntryCreated(x.value)) else Err(x.error);
      case UpdateEntryOp(id, title, tr, now, f) =>
        var x := UpdateEntry(id, title, tr, now, f);
        r := if x.Ok? then Ok(EntryUpdated(x.value)) else Err(x.error);
      case DeleteEntryOp(id, f) =>
        var x := DeleteEntry(id, f);
        r := if x.Ok? then Ok(EntryDeleted(x.value)) else Err(x.error);
      case CreateTagOp(name, f, g) =>
        var x := CreateTag(name, f, g);
        r := if x.Ok? then Ok(TagCreated(x.value)) else Err(x.error);
      case TagEntryOp(e, g, f) =>
        var x := TagEntry(e, g, f);
        r := if x.Ok? then Ok(Linked(x.value)) else Err(x.error);
      case UntagEntryOp(e, g, f) =>
        var x := UntagEntry(e, g, f);
        r := if x.Ok? then Ok(Linked(x.value)) else Err(x.error);
    }

    /** `transaction(operations)`: snapshot at BEGIN, run the block's
        operations in order, restore the snapshot on a throw (ROLLBACK),
        otherwise COMMIT and resolve to the outcomes of the block's calls. */
    method Transaction(ops: seq<Op>) returns (r: Result<seq<Result<Reply>>>)
      requires Ready()
      modifies db
      ensures Ready()
      ensures Step(db.tables, r) == TransactionOn(old(db.tables), ops)
    {
      var snapshot := db.tables;                           // BEGIN TRANSACTION
      var replies: seq<Result<Reply>> := [];
      var i := 0;
      while i < |ops|
        invariant 0 <= i <= |ops|
        invariant Ready()
        invariant forall j | 0 <= j < i :: !ops[j].Throw?
        invariant (db.tables, replies) == Run(snapshot, ops[..i])
      {
        if ops[i].Throw? {
          TransactionThrowsAt(snapshot, ops, i);
          db.tables := snapshot;                           // ROLLBACK
          return Err(Thrown(ops[i].message));
        }
        ghost var before := db.tables;
        var reply := Apply(ops[i]);
        RunStep(snapshot, ops, i, before, replies, db.tables, reply);
        replies := replies + [reply];
        i := i + 1;
      }
      assert ops[..i] == ops;
      TransactionCommits(snapshot, ops);
      r := Ok(replies);                                    // COMMIT
    }
  }
}
