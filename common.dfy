/** Values shared by the whole forum client: optional values, settled promises,
    JSON response bodies, HTTP requests and the JavaScript truthiness rules the
    code relies on. */
module Common {

  /** `T | null | undefined`; the client never distinguishes null from undefined
      in the code modelled here. */
  datatype Option<+T> = None | Some(value: T)

  /** A rejected axios call: the HTTP status is absent when no response arrived. */
  datatype HttpError = HttpError(status: Option<int>, message: string)

  /** A settled promise: resolved with a value, or rejected with an error. */
  datatype Outcome<+T> = Resolved(value: T) | Rejected(error: HttpError)

  /** A response body as the browser decodes it (numbers are integers here). */
  datatype Json =
    | Null
    | Bool(b: bool)
    | Num(n: int)
    | Str(s: string)
    | Arr(items: seq<Json>)
    | Obj(fields: map<string, Json>)

  datatype Method = Get | Post | Put | Delete

  /** A value in an axios `params` object. */
  datatype ParamValue = Text(text: string) | Number(number: int)

  /** An axios `params` object, in the order its keys are written. */
  type Params = seq<(string, ParamValue)>

  /** One call through the request dispatcher: `params` is `undefined` when absent. */
  datatype Request = Request(verb: Method, url: string, params: Option<Params>, body: Option<Json>)

  /** The backend, seen from a service caller: what every request settles to. */
  type Server = Request -> Outcome<Json>

  /** JavaScript truthiness of an optional string: `undefined`, `null` and `""` are falsy. */
  predicate TruthyString(s: Option<string>) {
    s.Some? && s.value != ""
  }

  /** JavaScript truthiness of an optional number: `undefined` and `0` are falsy
      (NaN is not modelled). */
  predicate TruthyNumber(n: Option<int>) {
    n.Some? && n.value != 0
  }

  /** `n || d`: the default replaces every falsy number, 0 included. */
  function OrDefault(n: Option<int>, d: int): (r: int) {
    if TruthyNumber(n) then n.value else d
  }

  /** A destructuring default `{ n = d }`: it replaces only `undefined`. */
  function Defaulted(n: Option<int>, d: int): (r: int) {
    if n.Some? then n.value else d
  }

  predicate StartsWith(s: string, prefix: string) {
    prefix <= s
  }

  function DigitChar(d: nat): (r: char)
    requires d < 10
  {
    "0123456789"[d]
  }

  function NatToString(n: nat): (r: string)
    decreases n
  {
    if n < 10 then [DigitChar(n)] else NatToString(n / 10) + [DigitChar(n % 10)]
  }

  /** `Number.prototype.toString()` on an integer. */
  function NumberToString(n: int): (r: string) {
    if n < 0 then "-" + NatToString(-n) else NatToString(n)
  }
}
