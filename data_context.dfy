/**
 * The in-memory keyed transcript store of components/data-context.tsx.
 *
 * The React state hook only holds the current database; `create` and `update`
 * are updater functions from the previous database to the next one, and `get`
 * is a lookup.  They are modelled here as functions over a finite map.
 */
module DataContext {
  import opened Wrappers

  /** A time-aligned span of transcript text (start and end in seconds). */
  datatype Script = Script(start: real, end: real, text: string)

  /** One stored transcript; `summary` is the optional field. */
  datatype Data = Data(id: string, text: string, scripts: seq<Script>, summary: Option<string>)

  /** The database: record ids to records; an absent key is `undefined`. */
  type Database = map<string, Data>

  /** The database the provider starts with. */
  function Empty(): (db: Database)
    ensures forall id :: Get(db, id) == None
  {
    map[]
  }

  /** `get`: a pure lookup; `undefined` (None) exactly for the ids not stored. */
  function Get(db: Database, id: string): (r: Option<Data>)
    ensures r == None <==> id !in db
    ensures r.Some? ==> r.value == db[id]
  {
    if id in db then Some(db[id]) else None
  }

  /**
   * `create`: store `data` under its own id, replacing any record with that
   * id; every other key keeps its record.
   */
  function Create(db: Database, data: Data): (r: Database)
    ensures Get(r, data.id) == Some(data)
    ensures forall id :: id != data.id ==> Get(r, id) == Get(db, id)
    ensures r.Keys == db.Keys + {data.id}
  {
    db[data.id := data]
  }

  /** The record stored under `id` after `update` spreads `summary` over it. */
  function WithSummary(prev: Data, summary: Option<string>): (d: Data)
    ensures d.id == prev.id && d.text == prev.text && d.scripts == prev.scripts
    ensures d.summary == if summary.Some? then summary else prev.summary
  {
    match summary
    case Some(_) => prev.(summary := summary)
    case None => prev
  }

  /**
   * `update`: on a missing id the very same database comes back; otherwise
   * the summary of that one record is set when one is given, and id, text
   * and scripts are kept.
   */
  function Update(db: Database, id: string, summary: Option<string>): (r: Database)
    ensures Get(db, id) == None ==> r == db
    ensures r.Keys == db.Keys
    ensures forall k :: k != id ==> Get(r, k) == Get(db, k)
    ensures id in db ==>
      && r[id].id == db[id].id
      && r[id].text == db[id].text
      && r[id].scripts == db[id].scripts
      && r[id].summary == (if summary.Some? then summary else db[id].summary)
  {
    match Get(db, id)
    case None => db
    case Some(prev) => db[id := WithSummary(prev, summary)]
  }

  /** Every record is stored under its own id. */
  ghost predicate WellKeyed(db: Database)
  {
    forall id :: id in db ==> db[id].id == id
  }

  /** After `create(d)`, `get(d.id)` returns `d`, whatever was there before. */
  lemma GetAfterCreate(db: Database, d: Data)
    ensures Get(Create(db, d), d.id) == Some(d)
  {
  }

  /** A second `create` with the same id overwrites the first completely. */
  lemma CreateOverwrites(db: Database, d1: Data, d2: Data)
    requires d1.id == d2.id
    ensures Create(Create(db, d1), d2) == Create(db, d2)
  {
  }

  /** `update` without a summary leaves the database as it was. */
  lemma UpdateWithoutSummaryIsIdentity(db: Database, id: string)
    ensures Update(db, id, None) == db
  {
  }

  /** Setting the same summary twice is the same as setting it once. */
  lemma UpdateIdempotent(db: Database, id: string, summary: Option<string>)
    ensures Update(Update(db, id, summary), id, summary) == Update(db, id, summary)
  {
  }

  /** `update` after `create` of the same id: the created record with the new summary. */
  lemma UpdateAfterCreate(db: Database, d: Data, summary: string)
    ensures Get(Update(Create(db, d), d.id, Some(summary)), d.id) == Some(d.(summary := Some(summary)))
  {
  }

  /** Both updaters keep every record under its own id. */
  lemma OperationsKeepWellKeyed(db: Database, d: Data, id: string, summary: Option<string>)
    requires WellKeyed(db)
    ensures WellKeyed(Create(db, d))
    ensures WellKeyed(Update(db, id, summary))
  {
  }
}
