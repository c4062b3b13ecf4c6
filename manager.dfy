/** token/manager.js: the token table (`token` in SQLite, unique on
    `token_id`) and the operations on it. */
module TokenStore {
  import opened Base
  import opened Json
  import opened Tokens

  /** One row of the token table: the serialised payload, the application
      id as bound and the 0/1 user flag. */
  datatype Row = Row(value: string, appId: Json, isUser: int)

  /** What `get(id)` returns: `{appId, isUser, token}`. */
  datatype Entry = Entry(appId: Json, isUser: bool, token: Json)

  /** The grace period, in days, after which `cleanup` purges a token. */
  const CleanupGraceDays: int := 15

  /** The error SQLite raises when an insert repeats a `token_id`. */
  const DuplicateId: Error := Error(SqliteError, "UNIQUE constraint failed: token.token_id")

  /** The error destructuring the absent row throws. */
  const NoRow: Error := Error(TypeError, "Cannot destructure property 'value' of 'storage.get(...)' as it is undefined.")

  /** `get(id)` against the table. */
  function GetSpec(codec: Codec, table: map<string, Row>, id: string): Result<Entry> {
    if id !in table then Err(NoRow)
    else
      var row := table[id];
      match codec.parse(row.value)
      case None => Err(Error(PlainError, Format("Cannot parse token for '%s'", [id])))
      case Some(t) => Ok(Entry(row.appId, row.isUser != 0, t))
  }

  /** The row `set` and `update` write. */
  function RowOf(codec: Codec, appId: Json, isUser: bool, token: Json): Row {
    Row(codec.stringify(token), appId, if isUser then 1 else 0)
  }

  /** What `cleanup` decides for one row. */
  datatype Verdict = Keep | Purge | Throws

  /** A row whose value does not parse is skipped; otherwise the row is
      purged when its token `isExpiredByDays(15)`, and a payload of `null`
      makes that test throw. */
  function VerdictOf(codec: Codec, row: Row, nowMs: int): Verdict {
    match codec.parse(row.value)
    case None => Keep
    case Some(info) =>
      match ExpiredByDays(info, CleanupGraceDays, nowMs)
      case Err(_) => Throws
      case Ok(expired) => if expired then Purge else Keep
  }

  /** The table after one `cleanup` pass: every row whose verdict is Purge is
      deleted; when one row throws, the transaction is rolled back and the
      error propagates. */
  function CleanupSpec(codec: Codec, table: map<string, Row>, nowMs: int): Result<map<string, Row>> {
    if exists id :: id in table && VerdictOf(codec, table[id], nowMs) == Throws then Err(NullPayload)
    else Ok(map id | id in table && VerdictOf(codec, table[id], nowMs) == Keep :: table[id])
  }

  class TokenManager {
    var table: map<string, Row>
    const codec: Codec

    constructor(codec: Codec)
      ensures table == map[] && this.codec == codec
    {
      table := map[];
      this.codec := codec;
    }

    /** `get(id)`. */
    method Get(id: string) returns (r: Result<Entry>)
      ensures r == GetSpec(codec, table, id)
    {
      if id !in table {
        return Err(NoRow);
      }
      var row := table[id];
      var token := codec.parse(row.value);
      if token.None? {
        return Err(Error(PlainError, Format("Cannot parse token for '%s'", [id])));
      }
      r := Ok(Entry(row.appId, row.isUser != 0, token.value));
    }

    /** `set(id, appId, isUser, token)`: one insert, refused on a repeated id. */
    method Set(id: string, appId: Json, isUser: bool, token: Json) returns (r: Result<()>)
      modifies this
      ensures id in old(table) ==> r == Err(DuplicateId) && table == old(table)
      ensures id !in old(table) ==> r == Ok(()) && table == old(table)[id := RowOf(codec, appId, isUser, token)]
    {
      if id in table {
        return Err(DuplicateId);
      }
      table := table[id := Row(codec.stringify(token), appId, if isUser then 1 else 0)];
      r := Ok(());
    }

    /** `update(id, appId, isUser, token)`: delete then insert in one
      transaction; the insert cannot collide after the delete. */
    method Update(id: string, appId: Json, isUser: bool, token: Json) returns (e: Entry)
      modifies this
      ensures table == old(table)[id := RowOf(codec, appId, isUser, token)]
      ensures e == Entry(appId, isUser, token)
    {
      Remove(id);
      var inserted := Set(id, appId, isUser, token);
      assert inserted.Ok?;
      assert table == old(table)[id := RowOf(codec, appId, isUser, token)];
      e := Entry(appId, isUser, token);
    }

    /** `remove(id)`. */
    method Remove(id: string)
      modifies this
      ensures table == old(table) - {id}
    {
      table := table - {id};
    }

    /** The body of the `cleanup` loop for one record: skip a value that
      does not parse, otherwise ask the token whether it is 15 days past
      expiry. */
    method RowVerdict(id: string, row: Row, nowMs: int) returns (v: Verdict)
      ensures v == VerdictOf(codec, row, nowMs)
    {
      var tokenObj := codec.parse(row.value);
      if tokenObj.None? {
        return Keep;
      }
      var token := new Token(id, row.appId, JBool(row.isUser != 0), tokenObj.value);
      var expired := token.IsExpiredByDays(CleanupGraceDays, nowMs);
      if expired.Err? {
        return Throws;
      }
      v := if expired.value then Purge else Keep;
    }

    /** `cleanup()`: collect the ids to delete in one pass over all rows,
      then delete them. */
    method Cleanup(nowMs: int) returns (r: Result<()>)
      modifies this
      ensures CleanupSpec(codec, old(table), nowMs).Err? ==>
        r == Err(NullPayload) && table == old(table)
      ensures CleanupSpec(codec, old(table), nowMs).Ok? ==>
        r == Ok(()) && table == CleanupSpec(codec, old(table), nowMs).value
    {
      var rows := table;
      var records := rows.Keys;
      ghost var seen: set<string> := {};
      var rm: seq<string> := [];
      while records != {}
        invariant table == rows
        invariant records !! seen && records + seen == rows.Keys
        invariant forall id :: id in seen ==> VerdictOf(codec, rows[id], nowMs) != Throws
        invariant forall id :: id in rm <==> id in seen && VerdictOf(codec, rows[id], nowMs) == Purge
        decreases records
      {
        var id :| id in records;
        records := records - {id};
        var verdict := RowVerdict(id, rows[id], nowMs);
        if verdict == Throws {
          return Err(NullPayload);
        }
        seen := seen + {id};
        if verdict == Purge {
          rm := rm + [id];
        }
      }
      ghost var gone: set<string> := {};
      var i := 0;
      while i < |rm|
        invariant 0 <= i <= |rm|
        invariant table == rows - gone
        invariant forall id :: id in gone <==> id in rm[..i]
      {
        table := table - {rm[i]};
        gone := gone + {rm[i]};
        i := i + 1;
      }
      assert rm[..i] == rm;
      PurgedRows(codec, rows, gone, nowMs);
      r := Ok(());
    }
  }

  /** Deleting exactly the rows judged Purge, when none throws, is one
      `cleanup` pass. */
  lemma PurgedRows(codec: Codec, table: map<string, Row>, purged: set<string>, nowMs: int)
    requires forall id :: id in table ==> VerdictOf(codec, table[id], nowMs) != Throws
    requires forall id :: id in purged <==> id in table && VerdictOf(codec, table[id], nowMs) == Purge
    ensures CleanupSpec(codec, table, nowMs) == Ok(table - purged)
  {
    assert !exists id :: id in table && VerdictOf(codec, table[id], nowMs) == Throws;
    var kept := map id | id in table && VerdictOf(codec, table[id], nowMs) == Keep :: table[id];
    assert kept.Keys == (table - purged).Keys;
    assert forall id :: id in kept ==> kept[id] == (table - purged)[id];
    assert kept == table - purged;
  }

  /** `get` of an id that has no row throws (destructuring `undefined`), and
      `get` of a row whose value does not parse throws "Cannot parse token". */
  lemma GetErrors(codec: Codec, table: map<string, Row>, id: string)
    ensures id !in table ==> GetSpec(codec, table, id) == Err(NoRow)
    ensures id in table && codec.parse(table[id].value).None? ==>
      GetSpec(codec, table, id).Err? && GetSpec(codec, table, id).error.kind == PlainError
  {
  }

  /** After `set` or `update` of `(appId, isUser, token)` under `id`, `get(id)`
      gives back exactly `(appId, isUser, token)`, and `get` of every other
      id is what it was. */
  lemma GetAfterWrite(codec: Codec, table: map<string, Row>, id: string, appId: Json, isUser: bool, token: Json, other: string)
    requires RoundTrips(codec)
    ensures GetSpec(codec, table[id := RowOf(codec, appId, isUser, token)], id) == Ok(Entry(appId, isUser, token))
    ensures other != id ==> GetSpec(codec, table[id := RowOf(codec, appId, isUser, token)], other) == GetSpec(codec, table, other)
  {
    assert codec.parse(codec.stringify(token)) == Some(token);
  }

  /** After `remove(id)`, `get(id)` throws and nothing else changes. */
  lemma GetAfterRemove(codec: Codec, table: map<string, Row>, id: string, other: string)
    ensures GetSpec(codec, table - {id}, id) == Err(NoRow)
    ensures other != id ==> GetSpec(codec, table - {id}, other) == GetSpec(codec, table, other)
  {
  }

  /** `cleanup` removes exactly the rows past the grace period: rows that do
      not parse, or are not yet 15 days past expiry, survive unchanged. */
  lemma CleanupExactly(codec: Codec, table: map<string, Row>, nowMs: int, id: string)
    requires CleanupSpec(codec, table, nowMs).Ok?
    ensures var kept := CleanupSpec(codec, table, nowMs).value;
      && (id in kept <==> id in table && VerdictOf(codec, table[id], nowMs) == Keep)
      && (id in kept ==> kept[id] == table[id])
      && (id in table && codec.parse(table[id].value).None? ==> id in kept)
  {
  }

  /** `cleanup` throws exactly when some row's payload parses to `null`. */
  lemma CleanupThrows(codec: Codec, table: map<string, Row>, nowMs: int)
    ensures CleanupSpec(codec, table, nowMs).Err? <==>
      exists id :: id in table && codec.parse(table[id].value) == Some(JNull)
  {
    if CleanupSpec(codec, table, nowMs).Err? {
      var id :| id in table && VerdictOf(codec, table[id], nowMs) == Throws;
      assert codec.parse(table[id].value) == Some(JNull);
    }
    if exists id :: id in table && codec.parse(table[id].value) == Some(JNull) {
      var id :| id in table && codec.parse(table[id].value) == Some(JNull);
      assert VerdictOf(codec, table[id], nowMs) == Throws;
    }
  }

  /** A second `cleanup` at the same time deletes nothing. */
  lemma CleanupIdempotent(codec: Codec, table: map<string, Row>, nowMs: int)
    requires CleanupSpec(codec, table, nowMs).Ok?
    ensures CleanupSpec(codec, CleanupSpec(codec, table, nowMs).value, nowMs)
         == CleanupSpec(codec, table, nowMs)
  {
    var kept := CleanupSpec(codec, table, nowMs).value;
    assert forall id :: id in kept ==> VerdictOf(codec, kept[id], nowMs) == Keep;
    assert CleanupSpec(codec, kept, nowMs).value == kept;
  }
}
