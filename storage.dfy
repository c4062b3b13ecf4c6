/** storage.js: the `config` key/value table with its serialisation, and the
    schema migration run when the database is opened. SQL statements are not
    interpreted; the migration is described by the statements it executes. */
module Storage {
  import opened Base
  import opened Json

  /** A value handed to `setConfig`: a Buffer, or any JSON value. */
  datatype JsValue = Buffer(bytes: seq<bv8>) | Plain(value: Json)

  /** A row of the config table: a string or Buffer stored as it is
      (`is_serialized = 0`), or the JSON text of any other value
      (`is_serialized = 1`). */
  datatype ConfigRow = RawText(text: string) | RawBytes(bytes: seq<bv8>) | Serialized(json: string)

  /** The row `setConfig(key, value)` writes. */
  function Encode(codec: Codec, value: JsValue): (row: ConfigRow)
    ensures row.Serialized? <==> value.Plain? && !value.value.JString?
  {
    match value
    case Buffer(b) => RawBytes(b)
    case Plain(JString(s)) => RawText(s)
    case Plain(j) => Serialized(codec.stringify(j))
  }

  /** `getConfig(key)` given the row found, if any: `undefined` (None) when
      there is no row, the parsed value when it was serialised, the raw value
      otherwise. A serialised value that does not parse throws. */
  function Decode(codec: Codec, row: Option<ConfigRow>): Result<Option<JsValue>> {
    match row
    case None => Ok(None)
    case Some(RawText(s)) => Ok(Some(Plain(JString(s))))
    case Some(RawBytes(b)) => Ok(Some(Buffer(b)))
    case Some(Serialized(t)) =>
      match codec.parse(t)
      case None => Err(Error(SyntaxError, "Unexpected token in JSON"))
      case Some(j) => Ok(Some(Plain(j)))
  }

  /** The SQL of one schema entry: one statement or several. */
  datatype SqlText = Single(stmt: string) | Several(stmts: seq<string>)

  /** One table of the schema: its creating SQL, the revision that
      introduced it, and the update statement for each later revision. */
  datatype SchemaEntry = SchemaEntry(sql: SqlText, updates: map<int, string>, intro: int)

  const SchemaRevision: int := 1

  /** The openings of the two `CREATE TABLE` statements. */
  const CreateConfig: string := "CREATE TABLE config "
  const CreateToken: string := "CREATE TABLE token "

  const ConfigTable: string := CreateConfig + "(key TEXT,value BLOB,is_serialized SMALLINT)"
  const ConfigIndex: string := "CREATE UNIQUE INDEX idx_config_key ON config (key)"
  const TokenTable: string := CreateToken + "(token_id TEXT,value BLOB,app_id TEXT,is_user SMALLINT)"
  const TokenIndex: string := "CREATE UNIQUE INDEX idx_token_id ON token (token_id)"

  const Schema: seq<SchemaEntry> := [
    SchemaEntry(Several([ConfigTable, ConfigIndex]), map[], 1),
    SchemaEntry(Several([TokenTable, TokenIndex]), map[], 1)
  ]

  function JoinSql(parts: seq<string>): string {
    if parts == [] then ""
    else if |parts| == 1 then parts[0]
    else parts[0] + "; " + JoinSql(parts[1..])
  }

  /** `install.join("; ")` after turning a single statement into an array. */
  function Install(sql: SqlText): string {
    match sql
    case Single(s) => s
    case Several(parts) => JoinSql(parts)
  }

  /** What one schema entry executes at revision `r`: its SQL when it was
      introduced at `r`, then its update for `r` if it has one. */
  function EntryStatements(e: SchemaEntry, r: int): seq<string> {
    (if e.intro == r then [Install(e.sql)] else []) + (if r in e.updates then [e.updates[r]] else [])
  }

  /** What all schema entries execute at revision `r`, in schema order. */
  function RevisionStatements(schema: seq<SchemaEntry>, r: int): seq<string> {
    if schema == [] then [] else RevisionStatements(schema[..|schema| - 1], r) + EntryStatements(schema[|schema| - 1], r)
  }

  /** The statements executed for revisions `lo` to `hi`, ascending. */
  function Plan(schema: seq<SchemaEntry>, lo: int, hi: int): seq<string>
    decreases hi - lo + 1
  {
    if lo > hi then [] else Plan(schema, lo, hi - 1) + RevisionStatements(schema, hi)
  }

  /** The revision read back from `core.rev`: a SQLite error (no config
      table yet) and a falsy value both count as revision 0; a number is the
      revision, and `true` acts as 1. Any other error propagates. `None`
      stands for a value that is not numeric, for which the loop bound is
      never met. */
  function StartRev(stored: Result<Option<JsValue>>): Result<Option<int>> {
    match stored
    case Err(e) => if e.kind == SqliteError then Ok(Some(0)) else Err(e)
    case Ok(None) => Ok(Some(0))
    case Ok(Some(Buffer(_))) => Ok(None)
    case Ok(Some(Plain(j))) =>
      if !Truthy(Some(j)) then Ok(Some(0))
      else if j.JNumber? then Ok(Some(j.n))
      else if j == JBool(true) then Ok(Some(1))
      else Ok(None)
  }

  /** The contents of the database that matter here: the tables created so
      far, the rows of the config table, and the statements whose effects
      the database holds, in order. */
  datatype Db = Db(tables: set<string>, config: map<string, ConfigRow>, executed: seq<string>)

  const NoConfigTable: Error := Error(SqliteError, "no such table: config")

  /** The table a schema statement creates: the statement begins with that
      table's `CREATE TABLE`. Other statements are not interpreted. */
  function TableOf(stmt: string): Option<string> {
    if CreateConfig <= stmt then Some("config")
    else if CreateToken <= stmt then Some("token")
    else None
  }

  /** `getConfig(key)` on a database: preparing the query fails while the
      config table does not exist. */
  function ReadConfig(codec: Codec, db: Db, key: string): Result<Option<JsValue>> {
    if "config" !in db.tables then Err(NoConfigTable)
    else Decode(codec, if key in db.config then Some(db.config[key]) else None)
  }

  /** `setConfig(key, value)` on a database. */
  function WriteConfig(codec: Codec, db: Db, key: string, value: JsValue): Result<Db> {
    if "config" !in db.tables then Err(NoConfigTable)
    else Ok(db.(config := db.config[key := Encode(codec, value)]))
  }

  /** SQLite's error for a `CREATE TABLE` of a table that exists. */
  function TableExists(t: string): Error {
    Error(SqliteError, "table " + t + " already exists")
  }

  /** `exec(stmt)`: creating a table that exists fails; a new config table
      starts empty. */
  function ExecStmt(db: Db, stmt: string): Result<Db> {
    match TableOf(stmt)
    case Some(t) =>
      if t in db.tables then Err(TableExists(t))
      else Ok(Db(db.tables + {t}, if t == "config" then map[] else db.config, db.executed + [stmt]))
    case None => Ok(db.(executed := db.executed + [stmt]))
  }

  /** The statements executed one after the other, stopping at the first
      failure. */
  function ExecAll(db: Db, stmts: seq<string>): Result<Db> {
    if stmts == [] then Ok(db)
    else
      match ExecAll(db, stmts[..|stmts| - 1])
      case Err(e) => Err(e)
      case Ok(d) => ExecStmt(d, stmts[|stmts| - 1])
  }

  /** The transaction of `_checkSchemas`: the plan for revisions
      `startRev + 1` to `endRev`, then `core.rev` when the two differ. A
      failure rolls the whole transaction back, so `Err` leaves the
      database as it was. */
  function UpdateSpec(codec: Codec, db: Db, schema: seq<SchemaEntry>, startRev: int, endRev: int): Result<Db> {
    match ExecAll(db, Plan(schema, startRev + 1, endRev))
    case Err(e) => Err(e)
    case Ok(d) => if startRev != endRev then WriteConfig(codec, d, "core.rev", Plain(JNumber(endRev))) else Ok(d)
  }

  /** `_checkSchemas()`: read `core.rev`, then run the transaction from
      that revision. A revision that is not numeric runs no revision and
      rewrites `core.rev`. */
  function CheckSpec(codec: Codec, db: Db, schema: seq<SchemaEntry>, endRev: int): Result<Db> {
    match StartRev(ReadConfig(codec, db, "core.rev"))
    case Err(e) => Err(e)
    case Ok(None) => WriteConfig(codec, db, "core.rev", Plain(JNumber(endRev)))
    case Ok(Some(start)) => UpdateSpec(codec, db, schema, start, endRev)
  }

  /** Running `a` then `b` is running `a + b`. */
  lemma {:induction false} ExecAllAppend(db: Db, a: seq<string>, b: seq<string>)
    ensures ExecAll(db, a + b) == match ExecAll(db, a) case Err(e) => Err(e) case Ok(d) => ExecAll(d, b)
    decreases |b|
  {
    if b == [] {
      assert a + b == a;
    } else {
      var c := b[..|b| - 1];
      assert (a + b)[..|a + b| - 1] == a + c;
      ExecAllAppend(db, a, c);
    }
  }

  class Storage {
    var tables: set<string>
    var config: map<string, ConfigRow>
    var executed: seq<string>
    const codec: Codec

    function State(): Db
      reads this
    {
      Db(tables, config, executed)
    }

    /** `sqlite3(databaseFile)`: the connection to a database file holding
      `db`. */
    constructor(codec: Codec, db: Db)
      ensures State() == db && this.codec == codec
    {
      tables := db.tables;
      config := db.config;
      executed := db.executed;
      this.codec := codec;
    }

    /** `new Storage(databaseFile)`: open the file, then bring its schema to
      the current revision; a failure of the check throws from the
      constructor, so there is no object. */
    static method Open(codec: Codec, db: Db) returns (r: Result<Storage>)
      ensures var c := CheckSpec(codec, db, Schema, SchemaRevision);
        && (c.Err? ==> r == Err(c.error))
        && (c.Ok? ==> r.Ok? && fresh(r.value) && r.value.codec == codec && r.value.State() == c.value)
    {
      var s := new Storage(codec, db);
      var checked := s.CheckSchemas(Schema, SchemaRevision);
      if checked.Err? {
        return Err(checked.error);
      }
      r := Ok(s);
    }

    /** `getConfig(key)`. */
    method GetConfig(key: string) returns (r: Result<Option<JsValue>>)
      ensures r == ReadConfig(codec, State(), key)
    {
      if "config" !in tables {
        return Err(NoConfigTable);
      }
      if key !in config {
        return Ok(None);
      }
      var row := config[key];
      match row
      case RawText(s) => r := Ok(Some(Plain(JString(s))));
      case RawBytes(b) => r := Ok(Some(Buffer(b)));
      case Serialized(t) =>
        var parsed := codec.parse(t);
        if parsed.None? {
          return Err(Error(SyntaxError, "Unexpected token in JSON"));
        }
        r := Ok(Some(Plain(parsed.value)));
    }

    /** `setConfig(key, value)`: `REPLACE INTO`, so an earlier value for the
      key is overwritten. */
    method SetConfig(key: string, value: JsValue) returns (r: Result<()>)
      modifies this
      ensures var w := WriteConfig(codec, old(State()), key, value);
        && (w.Err? ==> r == Err(w.error) && State() == old(State()))
        && (w.Ok? ==> r == Ok(()) && State() == w.value)
    {
      if "config" !in tables {
        return Err(NoConfigTable);
      }
      var row: ConfigRow;
      if value.Plain? && !value.value.JString? {
        row := Serialized(codec.stringify(value.value));
      } else if value.Buffer? {
        row := RawBytes(value.bytes);
      } else {
        row := RawText(value.value.s);
      }
      config := config[key := row];
      r := Ok(());
    }

    /** `exec(stmt)`. */
    method Exec(stmt: string) returns (r: Result<()>)
      modifies this
      ensures var x := ExecStmt(old(State()), stmt);
        && (x.Err? ==> r == Err(x.error) && State() == old(State()))
        && (x.Ok? ==> r == Ok(()) && State() == x.value)
    {
      var t := TableOf(stmt);
      if t.Some? {
        if t.value in tables {
          return Err(TableExists(t.value));
        }
        if t.value == "config" {
          config := map[];
        }
        tables := tables + {t.value};
      }
      executed := executed + [stmt];
      r := Ok(());
    }

    /** What one schema entry executes at revision `rev`: its SQL if
      introduced at `rev`, then its update for `rev`. */
    method RunEntry(entry: SchemaEntry, rev: int) returns (r: Result<()>)
      modifies this
      ensures var x := ExecAll(old(State()), EntryStatements(entry, rev));
        && (x.Err? ==> r == Err(x.error))
        && (x.Ok? ==> r == Ok(()) && State() == x.value)
    {
      ghost var before := State();
      var install: seq<string> := if entry.intro == rev then [Install(entry.sql)] else [];
      var update: seq<string> := if rev in entry.updates then [entry.updates[rev]] else [];
      assert EntryStatements(entry, rev) == install + update;
      ExecAllAppend(before, install, update);
      r := Ok(());
      if entry.intro == rev {
        assert install == [] + [Install(entry.sql)];
        r := Exec(Install(entry.sql));
        if r.Err? {
          return;
        }
      }
      if rev in entry.updates {
        assert update == [] + [entry.updates[rev]];
        r := Exec(entry.updates[rev]);
      }
    }

    /** One revision of the migration: every schema entry, in order. A
      failure stops it, leaving what ran so far for the transaction to roll
      back. */
    method RunRevision(schema: seq<SchemaEntry>, rev: int) returns (r: Result<()>)
      modifies this
      ensures var x := ExecAll(old(State()), RevisionStatements(schema, rev));
        && (x.Err? ==> r == Err(x.error))
        && (x.Ok? ==> r == Ok(()) && State() == x.value)
    {
      ghost var start := State();
      var i := 0;
      while i < |schema|
        invariant 0 <= i <= |schema|
        invariant ExecAll(start, RevisionStatements(schema[..i], rev)) == Ok(State())
      {
        assert schema[..i + 1][..i] == schema[..i];
        ExecAllAppend(start, RevisionStatements(schema[..i], rev), EntryStatements(schema[i], rev));
        var x := RunEntry(schema[i], rev);
        if x.Err? {
          RevisionFails(start, schema, i, rev);
          return x;
        }
        i := i + 1;
      }
      assert schema[..i] == schema;
      r := Ok(());
    }

    /** Revisions `lo` to `hi` in ascending order, stopping at the first
      failure. */
    method RunPlan(schema: seq<SchemaEntry>, lo: int, hi: int) returns (r: Result<()>)
      modifies this
      ensures var x := ExecAll(old(State()), Plan(schema, lo, hi));
        && (x.Err? ==> r == Err(x.error))
        && (x.Ok? ==> r == Ok(()) && State() == x.value)
    {
      ghost var start := State();
      var rev := lo;
      while rev <= hi
        invariant lo <= rev && (rev <= hi + 1 || rev == lo)
        invariant ExecAll(start, Plan(schema, lo, rev - 1)) == Ok(State())
      {
        ExecAllAppend(start, Plan(schema, lo, rev - 1), RevisionStatements(schema, rev));
        assert Plan(schema, lo, rev) == Plan(schema, lo, rev - 1) + RevisionStatements(schema, rev);
        var x := RunRevision(schema, rev);
        if x.Err? {
          PlanFails(start, schema, lo, rev, hi);
          return x;
        }
        rev := rev + 1;
      }
      assert Plan(schema, lo, rev - 1) == Plan(schema, lo, hi);
      r := Ok(());
    }

    /** The transaction of `_checkSchemas`: revisions `startRev + 1` to
      `endRev` in ascending order, then `core.rev` when the two differ; on a
      failure the database is restored. */
    method UpdateSchema(schema: seq<SchemaEntry>, startRev: int, endRev: int) returns (r: Result<()>)
      modifies this
      ensures var u := UpdateSpec(codec, old(State()), schema, startRev, endRev);
        && (u.Err? ==> r == Err(u.error) && State() == old(State()))
        && (u.Ok? ==> r == Ok(()) && State() == u.value)
    {
      var saved := State();
      r := RunPlan(schema, startRev + 1, endRev);
      if r.Err? {
        tables, config, executed := saved.tables, saved.config, saved.executed;
        return;
      }
      if startRev != endRev {
        r := SetConfig("core.rev", Plain(JNumber(endRev)));
        if r.Err? {
          tables, config, executed := saved.tables, saved.config, saved.executed;
        }
      }
    }

    /** `_checkSchemas()`: read `core.rev`, where a missing config table
      counts as revision 0 and another error propagates, then run the
      transaction. */
    method CheckSchemas(schema: seq<SchemaEntry>, endRev: int) returns (r: Result<()>)
      modifies this
      ensures var c := CheckSpec(codec, old(State()), schema, endRev);
        && (c.Err? ==> r == Err(c.error) && State() == old(State()))
        && (c.Ok? ==> r == Ok(()) && State() == c.value)
    {
      var stored := GetConfig("core.rev");
      var start := StartRev(stored);
      if start.Err? {
        return Err(start.error);
      }
      if start.value.Some? {
        r := UpdateSchema(schema, start.value.value, endRev);
      } else {
        r := SetConfig("core.rev", Plain(JNumber(endRev)));
      }
    }
  }

  /** The statements of a revision are those of the first `k` entries
      followed by those of the rest. */
  lemma {:induction false} RevisionSplits(schema: seq<SchemaEntry>, k: nat, r: int)
    requires k <= |schema|
    ensures RevisionStatements(schema, r) == RevisionStatements(schema[..k], r) + RevisionStatements(schema[k..], r)
    decreases |schema|
  {
    if k < |schema| {
      var init := schema[..|schema| - 1];
      RevisionSplits(init, k, r);
      assert init[..k] == schema[..k];
      assert schema[k..][..|schema[k..]| - 1] == init[k..];
    } else {
      assert schema[..k] == schema;
      assert schema[k..] == [];
    }
  }

  /** An entry that fails makes its whole revision fail with its error. */
  lemma RevisionFails(db: Db, schema: seq<SchemaEntry>, i: nat, r: int)
    requires i < |schema|
    requires ExecAll(db, RevisionStatements(schema[..i + 1], r)).Err?
    ensures ExecAll(db, RevisionStatements(schema, r)) == ExecAll(db, RevisionStatements(schema[..i + 1], r))
  {
    RevisionSplits(schema, i + 1, r);
    ExecAllAppend(db, RevisionStatements(schema[..i + 1], r), RevisionStatements(schema[i + 1..], r));
  }

  /** A revision that fails makes the whole plan up to `hi` fail with its
      error. */
  lemma PlanFails(db: Db, schema: seq<SchemaEntry>, lo: int, rev: int, hi: int)
    requires lo <= rev <= hi
    requires ExecAll(db, Plan(schema, lo, rev)).Err?
    ensures ExecAll(db, Plan(schema, lo, hi)) == ExecAll(db, Plan(schema, lo, rev))
  {
    PlanSplits(schema, lo, rev, hi);
    ExecAllAppend(db, Plan(schema, lo, rev), Plan(schema, rev + 1, hi));
  }

  /** `getConfig` after `setConfig` gives back the value stored, for strings,
      Buffers and every JSON value. */
  lemma ConfigRoundTrip(codec: Codec, value: JsValue)
    requires RoundTrips(codec)
    ensures Decode(codec, Some(Encode(codec, value))) == Ok(Some(value))
  {
    if value.Plain? && !value.value.JString? {
      assert codec.parse(codec.stringify(value.value)) == Some(value.value);
    }
  }

  /** A statement is executed by the migration exactly when some schema
      entry introduces it, or updates to it, at a revision in the range. */
  lemma PlanMembership(schema: seq<SchemaEntry>, lo: int, hi: int, stmt: string)
    ensures stmt in Plan(schema, lo, hi) <==>
      (exists r, i :: lo <= r <= hi && 0 <= i < |schema| && stmt in EntryStatements(schema[i], r))
  {
    if stmt in Plan(schema, lo, hi) {
      var r, i := PlanWitness(schema, lo, hi, stmt);
    }
    if exists r, i :: lo <= r <= hi && 0 <= i < |schema| && stmt in EntryStatements(schema[i], r) {
      var r, i :| lo <= r <= hi && 0 <= i < |schema| && stmt in EntryStatements(schema[i], r);
      PlanContains(schema, lo, hi, r, i, stmt);
    }
  }

  /** The revision and the schema entry an executed statement comes from. */
  lemma {:induction false} PlanWitness(schema: seq<SchemaEntry>, lo: int, hi: int, stmt: string) returns (r: int, i: nat)
    requires stmt in Plan(schema, lo, hi)
    ensures lo <= r <= hi && i < |schema| && stmt in EntryStatements(schema[i], r)
    decreases hi - lo + 1
  {
    assert lo <= hi;
    if stmt in Plan(schema, lo, hi - 1) {
      r, i := PlanWitness(schema, lo, hi - 1, stmt);
    } else {
      r := hi;
      i := RevisionWitness(schema, hi, stmt);
    }
  }

  /** A statement an entry contributes at a revision in the range is
      executed. */
  lemma {:induction false} PlanContains(schema: seq<SchemaEntry>, lo: int, hi: int, r: int, i: nat, stmt: string)
    requires lo <= r <= hi && i < |schema| && stmt in EntryStatements(schema[i], r)
    ensures stmt in Plan(schema, lo, hi)
    decreases hi - lo + 1
  {
    assert Plan(schema, lo, hi) == Plan(schema, lo, hi - 1) + RevisionStatements(schema, hi);
    if r < hi {
      PlanContains(schema, lo, hi - 1, r, i, stmt);
    } else {
      RevisionContains(schema, hi, i, stmt);
    }
  }

  /** A statement runs at revision `r` exactly when some entry contributes
      it there. */
  lemma RevisionMembership(schema: seq<SchemaEntry>, r: int, stmt: string)
    ensures stmt in RevisionStatements(schema, r) <==>
      (exists i :: 0 <= i < |schema| && stmt in EntryStatements(schema[i], r))
  {
    if stmt in RevisionStatements(schema, r) {
      var i := RevisionWitness(schema, r, stmt);
    }
    if exists i :: 0 <= i < |schema| && stmt in EntryStatements(schema[i], r) {
      var i :| 0 <= i < |schema| && stmt in EntryStatements(schema[i], r);
      RevisionContains(schema, r, i, stmt);
    }
  }

  lemma {:induction false} RevisionWitness(schema: seq<SchemaEntry>, r: int, stmt: string) returns (i: nat)
    requires stmt in RevisionStatements(schema, r)
    ensures i < |schema| && stmt in EntryStatements(schema[i], r)
  {
    var init := schema[..|schema| - 1];
    if stmt in RevisionStatements(init, r) {
      i := RevisionWitness(init, r, stmt);
      assert init[i] == schema[i];
    } else {
      i := |schema| - 1;
    }
  }

  lemma {:induction false} RevisionContains(schema: seq<SchemaEntry>, r: int, i: nat, stmt: string)
    requires i < |schema| && stmt in EntryStatements(schema[i], r)
    ensures stmt in RevisionStatements(schema, r)
  {
    if i < |schema| - 1 {
      var init := schema[..|schema| - 1];
      assert init[i] == schema[i];
      RevisionContains(init, r, i, stmt);
    }
  }

  /** Statements of a lower revision all come before those of a higher one:
      the plan for `lo..hi` is the plan for `lo..mid` followed by the plan
      for `mid+1..hi`. */
  lemma {:induction false} PlanSplits(schema: seq<SchemaEntry>, lo: int, mid: int, hi: int)
    requires lo - 1 <= mid <= hi
    ensures Plan(schema, lo, hi) == Plan(schema, lo, mid) + Plan(schema, mid + 1, hi)
    decreases hi - mid
  {
    if mid < hi {
      PlanSplits(schema, lo, mid, hi - 1);
    }
  }

  /** When the stored revision is already current, nothing is executed and
      `core.rev` is not written. */
  lemma CurrentRevisionNoop(schema: seq<SchemaEntry>, rev: int)
    ensures Plan(schema, rev + 1, rev) == []
  {
  }

  /** Opening a database with no `core.rev` (or no config table) creates the
      config and token tables with their unique indexes. */
  lemma FreshDatabasePlan()
    ensures Plan(Schema, 1, SchemaRevision) == [ConfigTable + "; " + ConfigIndex, TokenTable + "; " + TokenIndex]
    ensures StartRev(Err(Error(SqliteError, "no such table: config"))) == Ok(Some(0))
  {
    assert Schema[..1][..0] == [];
    assert Schema[..1] == [Schema[0]];
    assert RevisionStatements(Schema[..1], 1) == [Install(Schema[0].sql)];
    var c := Schema[0].sql.stmts;
    var t := Schema[1].sql.stmts;
    assert c == [ConfigTable, ConfigIndex] && t == [TokenTable, TokenIndex];
    assert c[1..] == [c[1]] && t[1..] == [t[1]];
    assert JoinSql(c) == c[0] + "; " + JoinSql([c[1]]);
    assert JoinSql(t) == t[0] + "; " + JoinSql([t[1]]);
    assert Install(Schema[0].sql) == c[0] + "; " + c[1];
    assert Install(Schema[1].sql) == t[0] + "; " + t[1];
    assert RevisionStatements(Schema, 1) == [Install(Schema[0].sql), Install(Schema[1].sql)];
    assert Plan(Schema, 1, 1) == Plan(Schema, 1, 0) + RevisionStatements(Schema, 1);
  }

  /** Under a codec that round-trips, a value written with `setConfig` is
      read back by `getConfig`, and every other key reads as before. */
  lemma WriteThenRead(codec: Codec, db: Db, key: string, value: JsValue, other: string)
    requires RoundTrips(codec)
    requires WriteConfig(codec, db, key, value).Ok?
    ensures ReadConfig(codec, WriteConfig(codec, db, key, value).value, key) == Ok(Some(value))
    ensures other != key ==>
      ReadConfig(codec, WriteConfig(codec, db, key, value).value, other) == ReadConfig(codec, db, other)
  {
    ConfigRoundTrip(codec, value);
  }

  /** After a check that succeeds, `core.rev` reads back as the target
      revision. */
  lemma CheckSettles(codec: Codec, db: Db, schema: seq<SchemaEntry>, endRev: int)
    requires RoundTrips(codec)
    requires CheckSpec(codec, db, schema, endRev).Ok?
    ensures StartRev(ReadConfig(codec, CheckSpec(codec, db, schema, endRev).value, "core.rev")) == Ok(Some(endRev))
  {
    var d := CheckSpec(codec, db, schema, endRev).value;
    var start := StartRev(ReadConfig(codec, db, "core.rev"));
    if start.value.None? || start.value.value != endRev {
      var before := if start.value.None? then db else ExecAll(db, Plan(schema, start.value.value + 1, endRev)).value;
      assert d == WriteConfig(codec, before, "core.rev", Plain(JNumber(endRev))).value;
      WriteThenRead(codec, before, "core.rev", Plain(JNumber(endRev)), "core.rev");
    } else {
      assert Plan(schema, endRev + 1, endRev) == [];
      assert d == db;
    }
  }

  /** Checking the schema again after a check that succeeded executes
      nothing and changes nothing. */
  lemma CheckIdempotent(codec: Codec, db: Db, schema: seq<SchemaEntry>, endRev: int)
    requires RoundTrips(codec)
    requires CheckSpec(codec, db, schema, endRev).Ok?
    ensures var d := CheckSpec(codec, db, schema, endRev).value;
      CheckSpec(codec, d, schema, endRev) == Ok(d)
  {
    var d := CheckSpec(codec, db, schema, endRev).value;
    CheckSettles(codec, db, schema, endRev);
    assert Plan(schema, endRev + 1, endRev) == [];
  }

  /** The schema's two install statements create the config and the token
      table. */
  lemma SchemaTables()
    ensures TableOf(ConfigTable + "; " + ConfigIndex) == Some("config")
    ensures TableOf(TokenTable + "; " + TokenIndex) == Some("token")
  {
    var c := ConfigTable + "; " + ConfigIndex;
    var t := TokenTable + "; " + TokenIndex;
    assert c[..|CreateConfig|] == CreateConfig;
    assert t[..|CreateToken|] == CreateToken;
    assert t[13] == CreateToken[13];
  }

  /** Opening a new, empty database file creates both tables with their
      indexes and records revision 1. */
  lemma OpenFresh(codec: Codec)
    ensures CheckSpec(codec, Db({}, map[], []), Schema, SchemaRevision) == Ok(Db(
      {"config", "token"},
      map["core.rev" := Encode(codec, Plain(JNumber(1)))],
      [ConfigTable + "; " + ConfigIndex, TokenTable + "; " + TokenIndex]))
  {
    var db := Db({}, map[], []);
    var c := ConfigTable + "; " + ConfigIndex;
    var t := TokenTable + "; " + TokenIndex;
    FreshDatabasePlan();
    assert ReadConfig(codec, db, "core.rev") == Err(NoConfigTable);
    SchemaTables();
    var both: seq<string> := [c, t];
    var first: seq<string> := [c];
    assert both[..1] == first && first[..0] == [];
    var d1 := Db({"config"}, map[], first);
    assert TableOf(c) == Some("config") && "config" !in db.tables;
    assert db.tables + {"config"} == {"config"} && db.executed + [c] == first;
    assert ExecStmt(db, c) == Ok(d1);
    assert ExecAll(db, first) == Ok(d1);
    assert TableOf(t) == Some("token") && "token" !in d1.tables;
    assert d1.tables + {"token"} == {"config", "token"} && d1.executed + [t] == both;
    assert ExecStmt(d1, t) == Ok(Db({"config", "token"}, map[], both));
    assert ExecAll(db, both) == Ok(Db({"config", "token"}, map[], both));
  }

  /** A database that has a config table but no `core.rev` counts as
      revision 0, so the check creates the config table again, which fails,
      and the file cannot be opened. */
  lemma ConfigWithoutRevisionFails(codec: Codec, config: map<string, ConfigRow>)
    requires "core.rev" !in config
    ensures CheckSpec(codec, Db({"config"}, config, []), Schema, SchemaRevision)
      == Err(TableExists("config"))
  {
    var db := Db({"config"}, config, []);
    var c := ConfigTable + "; " + ConfigIndex;
    var t := TokenTable + "; " + TokenIndex;
    var e := TableExists("config");
    assert ReadConfig(codec, db, "core.rev") == Ok(None);
    assert StartRev(ReadConfig(codec, db, "core.rev")) == Ok(Some(0));
    SchemaTables();
    assert ExecStmt(db, c) == Err(e);
    var first: seq<string> := [c];
    assert first[..0] == [];
    assert ExecAll(db, first) == Err(e);
    ExecAllAppend(db, first, [t]);
    FreshDatabasePlan();
    assert first + [t] == Plan(Schema, 1, SchemaRevision);
    assert UpdateSpec(codec, db, Schema, 0, SchemaRevision) == Err(e);
  }
}
