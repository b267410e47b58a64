/**
  Long-term memory with an idempotency key (agentic_rag/memory.py, add_memory).

  The relational part is one transaction; the vector upsert is a second, separate step.
  A row carries the key it was created under as bookkeeping for the statements; the
  source's row does not store it.
 */
module MemoryStore {
  import opened Wrappers

  /** The arguments of add_memory; text is what sanitize_memory_text returned. */
  datatype Memory = Memory(user: string, session: string, text: string, kind: string, importance: int)

  datatype Row = Row(memory: Memory, origin: string)

  /** effects maps a key to its memory id, or to None for SQL NULL. */
  datatype Db = Db(rows: map<nat, Row>, nextRow: nat, effects: map<string, Option<nat>>,
                   vectors: map<Option<nat>, string>)

  datatype Backend = MySql | Sqlite

  const EMPTY_DB := Db(map[], 1, map[], map[])
  const ALLOWED_MEMORY_TYPES := {"mistake_pattern", "knowledge_gap", "preference"}

  function Owner(name: string): string {
    var n := if name == "" then "anonymous" else name;
    if |n| <= 128 then n else n[..128]
  }

  function Normalize(m: Memory): Memory {
    m.(user := Owner(m.user), session := Owner(m.session),
       kind := if m.kind in ALLOWED_MEMORY_TYPES then m.kind else "knowledge_gap",
       importance := if m.importance < 1 then 1 else if m.importance > 10 then 10 else m.importance)
  }

  function InsertRow(db: Db, key: string, m: Memory): Db {
    db.(rows := db.rows[db.nextRow := Row(Normalize(m), key)], nextRow := db.nextRow + 1)
  }

  /** INSERT IGNORE, SELECT ... FOR UPDATE, and the row only if the id is still NULL. */
  function AddMySql(db: Db, key: string, m: Memory): (Db, Option<nat>) {
    var effects := if key == "" || key in db.effects then db.effects else db.effects[key := None];
    var known := if key == "" then None else effects[key];
    if known.Some? then (db.(effects := effects), known)
    else
      var db' := InsertRow(db, key, m);
      (db'.(effects := if key == "" then effects else effects[key := Some(db.nextRow)]), Some(db.nextRow))
  }

  /** BEGIN IMMEDIATE, then the row and the effect unless the effect exists. */
  function AddSqlite(db: Db, key: string, m: Memory): (Db, Option<nat>) {
    if key != "" && key in db.effects then (db, db.effects[key])
    else
      var db' := InsertRow(db, key, m);
      (db'.(effects := if key == "" then db.effects else db.effects[key := Some(db.nextRow)]), Some(db.nextRow))
  }

  function AddRow(backend: Backend, db: Db, key: string, m: Memory): (Db, Option<nat>) {
    match backend
    case MySql => AddMySql(db, key, m)
    case Sqlite => AddSqlite(db, key, m)
  }

  function UpsertVector(db: Db, id: Option<nat>, text: string): Db {
    db.(vectors := db.vectors[id := text])
  }

  /** The two transactions agree exactly when the key has no effect row holding NULL. */
  lemma BackendsAgree(db: Db, key: string, m: Memory)
    ensures AddMySql(db, key, m) == AddSqlite(db, key, m)
       <==> !(key != "" && key in db.effects && db.effects[key].None?)
  {
    if key != "" && key in db.effects && db.effects[key].None? {
      assert db.nextRow in AddMySql(db, key, m).0.rows;
      assert AddMySql(db, key, m).1.Some? && AddSqlite(db, key, m).1.None?;
    } else if key != "" && key !in db.effects {
      assert db.effects[key := None][key := Some(db.nextRow)] == db.effects[key := Some(db.nextRow)];
    }
  }

  /**
    What the committed tables keep: every effect names an existing row created under its key,
    and a row created under a key is that key's effect. So a key has at most one row.
   */
  ghost predicate DbOk(db: Db) {
    && (forall id <- db.rows :: id < db.nextRow)
    && (forall key <- db.effects ::
          key != "" && db.effects[key].Some? && db.effects[key].value in db.rows
          && db.rows[db.effects[key].value].origin == key)
    && (forall id <- db.rows :: db.rows[id].origin != "" ==>
          db.rows[id].origin in db.effects && db.effects[db.rows[id].origin] == Some(id))
    && (forall v <- db.vectors ::
          v.Some? && v.value in db.rows && db.vectors[v] == db.rows[v.value].memory.text)
  }

  /** db' keeps every row, effect and vector id of db. */
  ghost predicate Grows(db: Db, db': Db) {
    && (forall id <- db.rows :: id in db'.rows && db'.rows[id] == db.rows[id])
    && (forall key <- db.effects :: key in db'.effects && db'.effects[key] == db.effects[key])
    && (forall id <- db.vectors :: id in db'.vectors)
  }

  lemma AddRowEffects(backend: Backend, db: Db, key: string, m: Memory)
    ensures var effects := AddRow(backend, db, key, m).0.effects;
            if key == "" then effects == db.effects else effects.Keys == db.effects.Keys + {key}
  {
  }

  /** A name as its column of 128 characters holds it. */
  ghost predicate StoredName(asked: string, stored: string) {
    && (asked == "" ==> stored == "anonymous")
    && (0 < |asked| <= 128 ==> stored == asked)
    && (|asked| > 128 ==> |stored| == 128 && stored <= asked)
  }

  /** What a row holds of the arguments it was created from. */
  ghost predicate StoredAs(asked: Memory, stored: Memory) {
    && StoredName(asked.user, stored.user)
    && StoredName(asked.session, stored.session)
    && stored.text == asked.text
    && (if asked.kind == "mistake_pattern" || asked.kind == "knowledge_gap" || asked.kind == "preference"
        then stored.kind == asked.kind else stored.kind == "knowledge_gap")
    && (1 <= asked.importance <= 10 ==> stored.importance == asked.importance)
    && (asked.importance < 1 ==> stored.importance == 1)
    && (asked.importance > 10 ==> stored.importance == 10)
  }

  lemma NormalizeStores(m: Memory)
    ensures StoredAs(m, Normalize(m))
  {
  }

  /** Whether the key's effect answers the call: on SQLite also one that holds NULL. */
  predicate Known(backend: Backend, db: Db, key: string) {
    key != "" && key in db.effects && (backend == Sqlite || db.effects[key].Some?)
  }

  /**
    A known key changes nothing and gives its id. Otherwise exactly one row is new: it has the next id,
    holds what was asked for under the key, and is the key's effect.
   */
  lemma AddRowStores(backend: Backend, db: Db, key: string, m: Memory)
    requires forall id <- db.rows :: id < db.nextRow
    ensures var (db', id) := AddRow(backend, db, key, m);
            if Known(backend, db, key) then db' == db && id == db.effects[key]
            else
              && id == Some(db.nextRow) && db'.nextRow == db.nextRow + 1
              && db'.rows.Keys == db.rows.Keys + {db.nextRow}
              && (forall i <- db.rows :: db'.rows[i] == db.rows[i])
              && StoredAs(m, db'.rows[db.nextRow].memory) && db'.rows[db.nextRow].origin == key
              && db'.effects == (if key == "" then db.effects else db.effects[key := id])
              && db'.vectors == db.vectors
  {
    NormalizeStores(m);
    if backend == MySql && key != "" && key !in db.effects {
      assert db.effects[key := None][key := Some(db.nextRow)] == db.effects[key := Some(db.nextRow)];
    }
    if backend == MySql && Known(backend, db, key) {
      assert db.effects == AddRow(backend, db, key, m).0.effects;
    }
  }

  lemma AddRowKeeps(backend: Backend, db: Db, key: string, m: Memory)
    requires DbOk(db)
    ensures var (db', id) := AddRow(backend, db, key, m);
            DbOk(db') && Grows(db, db') && db'.vectors == db.vectors
            && id.Some? && id.value in db'.rows
            && (key != "" ==> key in db'.effects && db'.effects[key] == id)
            && (key == "" || key !in db.effects ==>
                  id.value !in db.rows && StoredAs(m, db'.rows[id.value].memory))
  {
    BackendsAgree(db, key, m);
    AddRowStores(backend, db, key, m);
  }

  /** The tables, updated in place. */
  class MemoryDb {
    var rows: map<nat, Row>
    var nextRow: nat
    var effects: map<string, Option<nat>>
    var vectors: map<Option<nat>, string>

    ghost function State(): Db
      reads this
    {
      Db(rows, nextRow, effects, vectors)
    }

    /** add_memory up to the commit; an empty text stores nothing. */
    method Commit(backend: Backend, key: string, m: Memory) returns (id: Option<nat>)
      modifies this
      ensures m.text == "" ==> State() == old(State()) && id == None
      ensures m.text != "" ==> (State(), id) == AddRow(backend, old(State()), key, m)
      ensures m.text != "" && (key == "" || key !in old(effects)) ==>
                id == Some(old(nextRow)) && id.value in rows && rows[id.value].origin == key
                && StoredAs(m, rows[id.value].memory)
    {
      NormalizeStores(m);
      id := None;
      if m.text == "" {
        return;
      }
      var known := false;
      if backend == MySql {
        if key != "" {
          if key !in effects {
            effects := effects[key := None];
          }
          id := effects[key];
          known := id.Some?;
        }
      } else if key != "" && key in effects {
        id := effects[key];
        known := true;
      }
      if !known {
        rows := rows[nextRow := Row(Normalize(m), key)];
        id := Some(nextRow);
        nextRow := nextRow + 1;
        if key != "" {
          effects := effects[key := id];
        }
      }
    }

    method AddMemory(backend: Backend, key: string, m: Memory) returns (id: Option<nat>)
      modifies this
      ensures m.text == "" ==> State() == old(State()) && id == None
      ensures m.text != "" ==>
                var (db', id') := AddRow(backend, old(State()), key, m);
                id == id' && State() == UpsertVector(db', id', m.text)
      ensures m.text != "" && (key == "" || key !in old(effects)) ==>
                id == Some(old(nextRow)) && id.value in rows && rows[id.value].origin == key
                && StoredAs(m, rows[id.value].memory)
      ensures m.text != "" ==> id in vectors && vectors[id] == m.text
    {
      id := Commit(backend, key, m);
      if m.text != "" {
        vectors := vectors[id := m.text];
      }
    }
  }
}
