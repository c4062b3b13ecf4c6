/** logger.js: validation of the `logging` options and the gating of the
    `proxy_log` table. Console output is not modelled; the `proxy_log` table
    is the sequence of rows inserted and not yet deleted. */
module Logging {
  import opened Base
  import opened Json
  import opened Helpers
  import opened Configuration

  const DaySeconds: int := 86400

  /** The duration, in days, used when none is configured. */
  const DefaultDuration: int := 30

  datatype LogType = StorageLog | Stdio

  /** The allow-list of the `switch`: "storage" and "stdio". */
  function TypeOf(part: string): Option<LogType> {
    if part == "storage" then Some(StorageLog)
    else if part == "stdio" then Some(Stdio)
    else None
  }

  function UnknownType(part: string): Error {
    Error(PlainError, Format("Logging type '%s' is not defined", [part]))
  }

  /** `s.split("+")`: the pieces between the plus signs, one more than
      there are plus signs. */
  function SplitPlus(s: string): (parts: seq<string>)
    ensures |parts| >= 1
    ensures forall i :: 0 <= i < |parts| ==> '+' !in parts[i]
  {
    if s == [] then [""]
    else
      var rest := SplitPlus(s[1..]);
      if s[0] == '+' then [""] + rest else [[s[0]] + rest[0]] + rest[1..]
  }

  /** `parts.join("+")`. */
  function JoinPlus(parts: seq<string>): string
    requires |parts| >= 1
  {
    if |parts| == 1 then parts[0] else parts[0] + "+" + JoinPlus(parts[1..])
  }

  /** `parts.map(s => s.trim())`. */
  function TrimAll(parts: seq<string>): (r: seq<string>)
    ensures |r| == |parts| && forall i :: 0 <= i < |parts| ==> r[i] == Trim(parts[i])
  {
    seq(|parts|, i requires 0 <= i < |parts| => Trim(parts[i]))
  }

  /** What the loop over the parts ends with: the types it added, or the
      part its `default` branch throws on. */
  datatype Collected = Accepted(types: set<LogType>) | Rejected(part: string)

  /** The types the loop collects from the trimmed parts: every part must be
      on the allow-list, and the first one that is not is reported. */
  function PartsTypes(parts: seq<string>): Collected {
    if parts == [] then Accepted({})
    else
      match PartsTypes(parts[..|parts| - 1])
      case Rejected(p) => Rejected(p)
      case Accepted(ts) =>
        match TypeOf(parts[|parts| - 1])
        case None => Rejected(parts[|parts| - 1])
        case Some(t) => Accepted(ts + {t})
  }

  /** The `types` set the constructor builds from the `type` option: a falsy
      option gives {stdio}; any other value must be a string (or `split`
      throws), split on "+" and trimmed. */
  function TypesSpec(typeOption: Json): Result<set<LogType>> {
    if !Truthy(Some(typeOption)) then Ok({Stdio})
    else if !typeOption.JString? then Err(Error(TypeError, "type.split is not a function"))
    else
      match PartsTypes(TrimAll(SplitPlus(typeOption.s)))
      case Rejected(p) => Err(UnknownType(p))
      case Accepted(ts) => if ts == {} then Ok({Stdio}) else Ok(ts)
  }

  /** The `duration` option: a truthy one must be a positive number, a
      falsy one gives 30 days. */
  function DurationSpec(durationOption: Json): (r: Result<int>)
    ensures r.Ok? ==> r.value > 0
    ensures !Truthy(Some(durationOption)) ==> r == Ok(DefaultDuration)
    ensures durationOption.JNumber? && durationOption.n > 0 ==> r == Ok(durationOption.n)
  {
    if !Truthy(Some(durationOption)) then Ok(DefaultDuration)
    else if durationOption.JNumber? && durationOption.n > 0 then Ok(durationOption.n)
    else Err(Error(PlainError, Format("Logging duration '%s' is incorrect", [ValueString(durationOption)])))
  }

  /** What the constructor makes of the `logging` section: both options must
      be present; the types are checked before the duration. */
  function Options(logging: CfgValue): Result<(set<LogType>, int)> {
    match GetOn(logging, ["type", "duration"])
    case Err(e) => Err(e)
    case Ok(got) =>
      if !got.Many? || |got.values| != 2 then Err(Error(TypeError, "get is not a function"))
      else
        match TypesSpec(ToJson(got.values[0]))
        case Err(e) => Err(e)
        case Ok(ts) =>
          match DurationSpec(ToJson(got.values[1]))
          case Err(e) => Err(e)
          case Ok(d) => Ok((ts, d))
  }

  /** The loop of the constructor over the trimmed parts. */
  method CollectTypes(parts: seq<string>) returns (r: Result<set<LogType>>)
    ensures PartsTypes(parts).Accepted? ==> r == Ok(PartsTypes(parts).types)
    ensures PartsTypes(parts).Rejected? ==> r == Err(UnknownType(PartsTypes(parts).part))
  {
    var types: set<LogType> := {};
    var i := 0;
    while i < |parts|
      invariant 0 <= i <= |parts|
      invariant PartsTypes(parts[..i]) == Accepted(types)
    {
      assert parts[..i + 1][..i] == parts[..i] && parts[..i + 1][i] == parts[i];
      var t := TypeOf(parts[i]);
      if t.None? {
        assert PartsTypes(parts[..i + 1]) == Rejected(parts[i]);
        PartsTypesPrefixErr(parts, i + 1);
        return Err(UnknownType(parts[i]));
      }
      assert PartsTypes(parts[..i + 1]) == Accepted(types + {t.value});
      types := types + {t.value};
      i := i + 1;
    }
    assert parts[..i] == parts;
    r := Ok(types);
  }

  /** The `type` half of the constructor. */
  method ParseTypeOption(typeOption: Json) returns (r: Result<set<LogType>>)
    ensures r == TypesSpec(typeOption)
  {
    var types: set<LogType> := {};
    if Truthy(Some(typeOption)) {
      if !typeOption.JString? {
        return Err(Error(TypeError, "type.split is not a function"));
      }
      var collected := CollectTypes(TrimAll(SplitPlus(typeOption.s)));
      if collected.Err? {
        return Err(collected.error);
      }
      types := collected.value;
    }
    if types == {} {
      types := {Stdio};
    }
    r := Ok(types);
  }

  /** The `duration` half of the constructor. */
  method ParseDuration(durationOption: Json) returns (r: Result<int>)
    ensures r == DurationSpec(durationOption)
  {
    r := Ok(DefaultDuration);
    if Truthy(Some(durationOption)) {
      if !durationOption.JNumber? || durationOption.n <= 0 {
        return Err(Error(PlainError, Format("Logging duration '%s' is incorrect", [ValueString(durationOption)])));
      }
      r := Ok(durationOption.n);
    }
  }

  /** An error in a prefix of the parts is the error of all of them. */
  lemma {:induction false} PartsTypesPrefixErr(parts: seq<string>, n: nat)
    requires n <= |parts| && PartsTypes(parts[..n]).Rejected?
    ensures PartsTypes(parts) == PartsTypes(parts[..n])
    decreases |parts| - n
  {
    if n < |parts| {
      assert parts[..n + 1][..n] == parts[..n];
      PartsTypesPrefixErr(parts, n + 1);
    } else {
      assert parts[..n] == parts;
    }
  }

  /** One row of `proxy_log`; `entryDate` is in whole seconds since the
      epoch. */
  datatype ProxyInfo = ProxyInfo(
    client: Option<Json>, requestMethod: Option<Json>, requestUri: Option<Json>,
    status: Option<Json>, responseSize: Option<Json>, responseTime: Option<Json>)

  datatype LogRow = LogRow(entryDate: int, info: ProxyInfo)

  /** The rows `DELETE FROM proxy_log WHERE entry_date < cutoff` leaves. */
  function Retained(rows: seq<LogRow>, cutoff: int): seq<LogRow> {
    if rows == [] then []
    else (if rows[0].entryDate < cutoff then [] else [rows[0]]) + Retained(rows[1..], cutoff)
  }

  /** The cutoff of a cleanup at clock reading `nowMs`: the current second
      minus the retention period. */
  function Cutoff(nowMs: int, duration: int): int {
    Unixtime(None, nowMs) - duration * DaySeconds
  }

  class Logger {
    const types: set<LogType>
    const duration: int
    /** Whether the insert statement is prepared (`proxyLogInsert`). */
    var insertPrepared: bool
    /** Whether the daily cleanup timer is set (`cleanupInterval`). */
    var cleanupScheduled: bool
    var proxyLog: seq<LogRow>

    /** The statement is only ever prepared for a storage logger. */
    predicate Valid()
      reads this
    {
      insertPrepared ==> StorageLog in types
    }

    constructor(types: set<LogType>, duration: int, proxyLog: seq<LogRow>)
      ensures this.types == types && this.duration == duration && this.proxyLog == proxyLog
      ensures !insertPrepared && !cleanupScheduled && Valid()
    {
      this.types := types;
      this.duration := duration;
      this.proxyLog := proxyLog;
      insertPrepared := false;
      cleanupScheduled := false;
    }

    /** `new Logger(services)` with the `logging` section of the
      configuration and the existing `proxy_log` rows. */
    static method Create(logging: CfgValue, rows: seq<LogRow>) returns (r: Result<Logger>)
      ensures r.Ok? <==> Options(logging).Ok?
      ensures r.Err? ==> r.error == Options(logging).error
      ensures r.Ok? ==> && fresh(r.value) && r.value.Valid()
                        && r.value.types == Options(logging).value.0
                        && r.value.duration == Options(logging).value.1
                        && !r.value.insertPrepared && !r.value.cleanupScheduled
                        && r.value.proxyLog == rows
    {
      var got := GetOn(logging, ["type", "duration"]);
      if got.Err? {
        return Err(got.error);
      }
      if !got.value.Many? || |got.value.values| != 2 {
        return Err(Error(TypeError, "get is not a function"));
      }
      var types := ParseTypeOption(ToJson(got.value.values[0]));
      if types.Err? {
        return Err(types.error);
      }
      var duration := ParseDuration(ToJson(got.value.values[1]));
      if duration.Err? {
        return Err(duration.error);
      }
      var logger := new Logger(types.value, duration.value, rows);
      r := Ok(logger);
    }

    /** `start()`: prepare the insert for a storage logger, set the daily
      timer and run one cleanup at once. */
    method Start(nowMs: int)
      requires Valid()
      modifies this
      ensures Valid()
      ensures insertPrepared == (old(insertPrepared) || StorageLog in types)
      ensures cleanupScheduled
      ensures proxyLog == if StorageLog in types then Retained(old(proxyLog), Cutoff(nowMs, duration)) else old(proxyLog)
    {
      if StorageLog in types {
        insertPrepared := true;
      }
      cleanupScheduled := true;
      Cleanup(nowMs);
    }

    /** `stop()`: clear the timer and drop the insert statement. */
    method Stop()
      modifies this
      ensures Valid() && !insertPrepared && !cleanupScheduled && proxyLog == old(proxyLog)
    {
      cleanupScheduled := false;
      insertPrepared := false;
    }

    /** `proxyLog(dt, info)`: a row stamped with the second of `dt` is
      inserted only by a storage logger between `start` and `stop`. */
    method ProxyLog(dtMs: int, info: ProxyInfo)
      modifies this
      ensures insertPrepared == old(insertPrepared) && cleanupScheduled == old(cleanupScheduled)
      ensures proxyLog == if StorageLog in types && insertPrepared
        then old(proxyLog) + [LogRow(Unixtime(Some(dtMs), dtMs), info)]
        else old(proxyLog)
    {
      if StorageLog in types && insertPrepared {
        var ts := Unixtime(Some(dtMs), dtMs);
        proxyLog := proxyLog + [LogRow(ts, info)];
      }
    }

    /** `cleanup()`: a storage logger deletes the rows older than the
      retention period; any other logger does nothing. */
    method Cleanup(nowMs: int)
      modifies this
      ensures insertPrepared == old(insertPrepared) && cleanupScheduled == old(cleanupScheduled)
      ensures proxyLog == if StorageLog in types then Retained(old(proxyLog), Cutoff(nowMs, duration)) else old(proxyLog)
    {
      if StorageLog in types {
        var ts := Unixtime(None, nowMs);
        ts := ts - duration * DaySeconds;
        proxyLog := Retained(proxyLog, ts);
      }
    }
  }

  /** `split("+")` and `join("+")` are inverse: no character is lost. */
  lemma {:induction false} SplitJoin(s: string)
    ensures JoinPlus(SplitPlus(s)) == s
  {
    if s != [] {
      SplitJoin(s[1..]);
      var rest := SplitPlus(s[1..]);
      if s[0] == '+' {
        assert SplitPlus(s)[1..] == rest;
      } else {
        var parts := SplitPlus(s);
        assert parts[1..] == rest[1..];
        if |rest| == 1 {
          assert JoinPlus(parts) == [s[0]] + rest[0];
        } else {
          assert JoinPlus(rest) == rest[0] + "+" + JoinPlus(rest[1..]);
        }
      }
    }
  }

  /** The loop accepts the parts exactly when each is "storage" or
      "stdio". */
  lemma {:induction false} PartsTypesAccepts(parts: seq<string>)
    ensures PartsTypes(parts).Accepted? <==> forall i :: 0 <= i < |parts| ==> TypeOf(parts[i]).Some?
  {
    if parts != [] {
      var init := parts[..|parts| - 1];
      PartsTypesAccepts(init);
      assert forall i :: 0 <= i < |init| ==> init[i] == parts[i];
    }
  }

  /** An accepted option gives exactly the types of its parts. */
  lemma {:induction false} PartsTypesCollects(parts: seq<string>)
    requires PartsTypes(parts).Accepted?
    ensures forall t :: t in PartsTypes(parts).types <==> exists i :: 0 <= i < |parts| && TypeOf(parts[i]) == Some(t)
  {
    if parts != [] {
      var init := parts[..|parts| - 1];
      PartsTypesCollects(init);
      assert forall i :: 0 <= i < |init| ==> init[i] == parts[i];
      var last := |parts| - 1;
      forall t | t in PartsTypes(parts).types
        ensures exists i :: 0 <= i < |parts| && TypeOf(parts[i]) == Some(t)
      {
        if t !in PartsTypes(init).types {
          assert TypeOf(parts[last]) == Some(t);
        }
      }
    }
  }

  /** A rejected option names its first part that is not allowed. */
  lemma PartsTypesErr(parts: seq<string>)
    ensures PartsTypes(parts).Rejected? ==>
      exists i :: && 0 <= i < |parts| && TypeOf(parts[i]).None?
                  && (forall j :: 0 <= j < i ==> TypeOf(parts[j]).Some?)
                  && PartsTypes(parts).part == parts[i]
  {
    if PartsTypes(parts).Rejected? {
      var i := RejectedAt(parts);
    }
  }

  /** The index of the part the loop rejects. */
  lemma {:induction false} RejectedAt(parts: seq<string>) returns (i: nat)
    requires PartsTypes(parts).Rejected?
    ensures i < |parts| && TypeOf(parts[i]).None?
    ensures forall j :: 0 <= j < i ==> TypeOf(parts[j]).Some?
    ensures PartsTypes(parts).part == parts[i]
  {
    var last := |parts| - 1;
    var init := parts[..last];
    if PartsTypes(init).Rejected? {
      i := RejectedAt(init);
      assert forall j :: 0 <= j <= i ==> init[j] == parts[j];
    } else {
      PartsTypesAccepts(init);
      assert forall j :: 0 <= j < last ==> init[j] == parts[j];
      i := last;
    }
  }

  /** A logger always has at least one type, and a type option made only of
      allowed parts is honoured. */
  lemma TypesNonEmpty(typeOption: Json)
    ensures TypesSpec(typeOption).Ok? ==> TypesSpec(typeOption).value != {}
    ensures !Truthy(Some(typeOption)) ==> TypesSpec(typeOption) == Ok({Stdio})
  {
    if Truthy(Some(typeOption)) && typeOption.JString? {
      var collected := PartsTypes(TrimAll(SplitPlus(typeOption.s)));
      assert collected.Accepted? ==> TypesSpec(typeOption).value == (if collected.types == {} then {Stdio} else collected.types);
    }
  }

  /** A row survives a cleanup exactly when it is not older than the cutoff;
      the survivors keep their order. */
  lemma {:induction false} RetainedExactly(rows: seq<LogRow>, cutoff: int, row: LogRow)
    ensures row in Retained(rows, cutoff) <==> row in rows && row.entryDate >= cutoff
    ensures |Retained(rows, cutoff)| <= |rows|
  {
    if rows != [] {
      RetainedExactly(rows[1..], cutoff, row);
      assert rows == [rows[0]] + rows[1..];
    }
  }

  /** A later cleanup after an earlier one is the same as the later one
      alone; in particular a second cleanup at the same time deletes
      nothing. */
  lemma {:induction false} RetainedTwice(rows: seq<LogRow>, c1: int, c2: int)
    requires c1 <= c2
    ensures Retained(Retained(rows, c1), c2) == Retained(rows, c2)
  {
    if rows != [] {
      RetainedTwice(rows[1..], c1, c2);
      var head := if rows[0].entryDate < c1 then [] else [rows[0]];
      RetainedAppend(head, Retained(rows[1..], c1), c2);
    }
  }

  lemma {:induction false} RetainedAppend(a: seq<LogRow>, b: seq<LogRow>, cutoff: int)
    ensures Retained(a + b, cutoff) == Retained(a, cutoff) + Retained(b, cutoff)
  {
    if a != [] {
      RetainedAppend(a[1..], b, cutoff);
      assert (a + b)[0] == a[0] && (a + b)[1..] == a[1..] + b;
      var head := if a[0].entryDate < cutoff then [] else [a[0]];
      assert Retained(a + b, cutoff) == head + Retained(a[1..] + b, cutoff);
      assert Retained(a, cutoff) == head + Retained(a[1..], cutoff);
    } else {
      assert a + b == b;
    }
  }

  /** Rows logged since the last cleanup stay for the whole retention
      period: a row stamped at or after the cutoff's second survives. */
  lemma RecentRowKept(rows: seq<LogRow>, dtMs: int, nowMs: int, duration: int, info: ProxyInfo)
    requires duration > 0 && dtMs <= nowMs && nowMs - dtMs < duration * DaySeconds * 1000
    ensures LogRow(Unixtime(Some(dtMs), dtMs), info) in Retained(rows + [LogRow(Unixtime(Some(dtMs), dtMs), info)], Cutoff(nowMs, duration))
  {
    var row := LogRow(Unixtime(Some(dtMs), dtMs), info);
    assert row in rows + [row];
    var k := duration * DaySeconds;
    assert duration * DaySeconds * 1000 == k * 1000;
    assert (nowMs - k * 1000) / 1000 == nowMs / 1000 - k;
    assert dtMs / 1000 >= (nowMs - k * 1000) / 1000;
    assert Unixtime(Some(dtMs), dtMs) == dtMs / 1000;
    assert Cutoff(nowMs, duration) == nowMs / 1000 - k;
    assert row.entryDate >= Cutoff(nowMs, duration);
    RetainedExactly(rows + [row], Cutoff(nowMs, duration), row);
  }
}
