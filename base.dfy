/** Shared value types of the graph-layer model: optional values, results
    carrying the JavaScript exception a call would throw, and the small
    string helpers (`String(n)` and `util.format`) the error texts are built
    with. */
module Base {

  datatype Option<+T> = None | Some(value: T)

  /** The exception classes the source throws. `ErrorF`, `EndpointError` and
      `TokenError` all inherit the `name` "Error" from `Error`; the other three
      are thrown by the runtime or by SQLite / `JSON.parse`. */
  datatype ErrorKind =
    | EndpointError   // business-rule violation, turned into an `error` reply
    | TokenError      // missing or unrefreshable token
    | PlainError      // `ErrorF` / `Error`
    | TypeError       // the runtime's TypeError
    | SqliteError     // better-sqlite3's SqliteError
    | SyntaxError     // JSON.parse failure

  datatype Error = Error(kind: ErrorKind, message: string)

  datatype Result<+T> = Ok(value: T) | Err(error: Error)

  /** The `name` property an exception of each kind carries. */
  function KindName(k: ErrorKind): string {
    match k
    case TypeError => "TypeError"
    case SqliteError => "SqliteError"
    case SyntaxError => "SyntaxError"
    case _ => "Error"
  }

  /** `err.toString()`: "<name>: <message>". */
  function Describe(e: Error): (s: string)
    ensures |s| == |KindName(e.kind)| + 2 + |e.message|
    ensures s[|KindName(e.kind)| + 2..] == e.message
  {
    KindName(e.kind) + ": " + e.message
  }

  function DigitChar(d: nat): (c: char)
    requires d < 10
    ensures '0' <= c <= '9'
  {
    ('0' as int + d) as char
  }

  function NatToString(n: nat): (s: string)
    ensures |s| >= 1
    ensures forall i :: 0 <= i < |s| ==> '0' <= s[i] <= '9'
  {
    if n < 10 then [DigitChar(n)] else NatToString(n / 10) + [DigitChar(n % 10)]
  }

  /** `String(n)` for an integer. */
  function IntToString(n: int): (s: string)
    ensures |s| >= 1
    ensures n < 0 <==> s[0] == '-'
  {
    if n < 0 then "-" + NatToString(-n) else NatToString(n)
  }

  /** `util.format(fmt, ...args)` with every argument already converted to
      its string form. With no arguments the format is returned untouched;
      otherwise each `%s` or `%d` takes the next argument, `%%` becomes `%`,
      and arguments left over are appended, each after one space. */
  function Format(fmt: string, args: seq<string>): string {
    if args == [] then fmt else Substitute(fmt, args)
  }

  function Substitute(fmt: string, args: seq<string>): string
    decreases |fmt|
  {
    if |fmt| == 0 then Trailing(args)
    else if |fmt| >= 2 && fmt[0] == '%' && (fmt[1] == 's' || fmt[1] == 'd') && args != [] then
      args[0] + Substitute(fmt[2..], args[1..])
    else if |fmt| >= 2 && fmt[0] == '%' && fmt[1] == '%' then
      "%" + Substitute(fmt[2..], args)
    else [fmt[0]] + Substitute(fmt[1..], args)
  }

  function Trailing(args: seq<string>): string {
    if args == [] then "" else " " + args[0] + Trailing(args[1..])
  }

  /** A format without `%` and with one argument gets that argument after a
      single space. */
  lemma {:induction false} FormatNoDirective(fmt: string, arg: string)
    requires '%' !in fmt
    ensures Format(fmt, [arg]) == fmt + " " + arg
  {
    SubstitutePlain(fmt, [arg]);
  }

  lemma {:induction false} SubstitutePlain(fmt: string, args: seq<string>)
    requires '%' !in fmt
    ensures Substitute(fmt, args) == fmt + Trailing(args)
  {
    if |fmt| > 0 {
      assert fmt == [fmt[0]] + fmt[1..];
      SubstituteLiteral(fmt, args);
      SubstitutePlain(fmt[1..], args);
    }
  }

  /** A character other than `%` is copied as it is. */
  lemma SubstituteLiteral(fmt: string, args: seq<string>)
    requires |fmt| > 0 && fmt[0] != '%'
    ensures Substitute(fmt, args) == [fmt[0]] + Substitute(fmt[1..], args)
  {
  }
}
