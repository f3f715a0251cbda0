/** Values shared by every part of the proxy model: optional values and
    results, JSON documents, HTTP header maps and bodies, the duck-typed
    JavaScript error record, and the few string operations the source takes
    from the JavaScript runtime (lower-casing, `includes`, `join`, number
    formatting, `||` defaults). */
module Common {

  datatype Option<+T> = None | Some(value: T)

  datatype Result<+T, +E> = Ok(value: T) | Err(error: E)

  /** Outcome of an operation that returns nothing or throws. */
  datatype Outcome<+E> = Pass | Fail(error: E)

  newtype byte = x: int | 0 <= x < 256

  /** A parsed JSON document. */
  datatype Json =
    | JNull
    | JBool(b: bool)
    | JNumber(n: int)
    | JString(s: string)
    | JArray(items: seq<Json>)
    | JObject(fields: map<string, Json>)

  /** A header value as Node and axios hand it over: one string or a list. */
  datatype HeaderValue = Str(s: string) | List(values: seq<string>)

  type Headers = map<string, HeaderValue>

  /** A response or request body: parsed JSON, decoded text, or raw bytes. */
  datatype Body = JsonBody(json: Json) | TextBody(text: string) | RawBody(bytes: seq<byte>)

  /** The `response` part of an axios error: the status line it carries. */
  datatype ResponseInfo = ResponseInfo(status: int, statusText: string)

  /** A thrown JavaScript value, with every field the source reads from one.
      Absent fields are `None`; `request` says whether a request object is
      attached (axios sets it when the request was sent); `parseType` is the
      `type` field body parsers put on their SyntaxErrors. */
  datatype JsError = JsError(
    name: string,
    message: string,
    code: Option<string>,
    status: Option<int>,
    response: Option<ResponseInfo>,
    request: bool,
    stack: Option<string>,
    parseType: Option<string>,
    details: Option<Json>)

  /** `new Error(message)`: a plain error with nothing else attached. */
  function PlainError(message: string): (e: JsError)
    ensures e.name == "Error" && e.message == message
    ensures e.code.None? && e.status.None? && e.response.None? && !e.request
  {
    JsError("Error", message, None, None, None, false, None, None, None)
  }

  /** `s || fallback` for an optional string: empty and absent are both falsy. */
  function OrDefault(s: Option<string>, fallback: string): (r: string)
    ensures s.Some? && s.value != "" ==> r == s.value
    ensures s.None? || s.value == "" ==> r == fallback
  {
    if s.Some? && s.value != "" then s.value else fallback
  }

  /** `s || fallback` for a string. */
  function StrOr(s: string, fallback: string): (r: string)
    ensures r == (if s != "" then s else fallback)
  {
    if s != "" then s else fallback
  }

  // ---------------------------------------------------------------- strings

  /** ASCII lower-casing of one character (header names are ASCII tokens). */
  function LowerChar(c: char): char
  {
    if 'A' <= c <= 'Z' then (c as int + 32) as char else c
  }

  function Lower(s: string): (r: string)
    ensures |r| == |s|
  {
    if s == [] then [] else [LowerChar(s[0])] + Lower(s[1..])
  }

  /** `s.includes(sub)`. */
  predicate Contains(s: string, sub: string)
    decreases |s|
  {
    if |sub| > |s| then false
    else s[..|sub|] == sub || Contains(s[1..], sub)
  }

  lemma {:induction false} ContainsInfix(a: string, sub: string, b: string)
    ensures Contains(a + sub + b, sub)
    decreases |a|
  {
    var s := a + sub + b;
    if a == [] {
      assert s[..|sub|] == sub;
    } else {
      assert s[1..] == a[1..] + sub + b;
      ContainsInfix(a[1..], sub, b);
    }
  }

  lemma {:induction false} ContainsNoLonger(s: string, sub: string)
    requires Contains(s, sub)
    ensures |sub| <= |s|
    decreases |s|
  {
    if s[..|sub|] != sub {
      ContainsNoLonger(s[1..], sub);
    }
  }

  /** `items.join(sep)`. */
  function Join(items: seq<string>, sep: string): string
  {
    if |items| == 0 then ""
    else if |items| == 1 then items[0]
    else items[0] + sep + Join(items[1..], sep)
  }

  function DigitChar(d: nat): char
    requires d < 10
  {
    "0123456789"[d]
  }

  function NatToString(n: nat): string
  {
    if n < 10 then [DigitChar(n)] else NatToString(n / 10) + [DigitChar(n % 10)]
  }

  /** The decimal text a template literal gives an integer. */
  function IntToString(i: int): string
  {
    if i < 0 then "-" + NatToString(-i) else NatToString(i)
  }

  function Min(a: int, b: int): int
  {
    if a <= b then a else b
  }

  function Max(a: int, b: int): int
  {
    if a >= b then a else b
  }
}
