/** What every add/edit form has in common: a submit either is blocked by the schema,
    throws before reaching the backend, or sends exactly one payload. */
module Forms {
  import opened Wrappers
  import opened Json

  /** A payload or a row: column name to JSON value. An `undefined` property is absent,
      because JSON serialisation drops it. */
  type Row = map<string, Json>

  /** The result of pressing submit.
      - Blocked: the schema rejected the listed fields; no request is made.
      - Thrown: the mutation threw before any request (e.g. no signed-in user).
      - Sent: exactly one request carrying `payload` was made; the backend's answer only
        decides the toast, and its error message is shown verbatim. */
  datatype Submission<+P> = Blocked(issues: set<string>) | Thrown(message: string) | Sent(payload: P)

  /** `{ ...row, key: value }` where `value` may be `undefined`. */
  function PutOpt(row: Row, key: string, value: Option<Json>): (r: Row)
    ensures value.Some? ==> r == row[key := value.value]
    ensures value.None? ==> r == row
  {
    match value
    case Some(v) => row[key := v]
    case None => row
  }

  function OptStr(s: Option<string>): Option<Json> {
    match s
    case Some(v) => Some(JStr(v))
    case None => None
  }

  function OptNum(n: Option<real>): Option<Json> {
    match n
    case Some(v) => Some(JNum(v))
    case None => None
  }

  function OptBool(b: Option<bool>): Option<Json> {
    match b
    case Some(v) => Some(JBool(v))
    case None => None
  }

  /** A field read with `z.coerce.number().optional()`: left undefined, coerced to NaN,
      or coerced to a number. */
  datatype NumField = Absent | NotANumber | Num(value: real)

  /** `z.coerce.number().min(0).optional()`: undefined passes, NaN and negatives fail. */
  predicate OptionalNonNegative(f: NumField) {
    f.Absent? || (f.Num? && f.value >= 0.0)
  }

  /** The validated value of such a field. */
  function NumValue(f: NumField): Option<real> {
    if f.Num? then Some(f.value) else None
  }

  /** `z.string().url().optional().or(z.literal(''))`: undefined, a URL, or the empty
      string. Whether a string is a URL is decided by `isUrl`. */
  predicate UrlOrEmpty(isUrl: string -> bool, s: Option<string>) {
    s.None? || s.value == "" || isUrl(s.value)
  }

  /** `z.string().min(n)`: the string has at least `n` characters. */
  predicate MinLength(s: string, n: nat) { |s| >= n }

  /** An issue for `key` when `ok` fails. */
  function Check(ok: bool, key: string): (r: set<string>)
    ensures key in r <==> !ok
    ensures r <= {key}
  {
    if ok then {} else {key}
  }
}
