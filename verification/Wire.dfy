/**
 The values that cross the engine's seams: parsed documents, requests, responses,
 cursors, error codes and results.
 */
module Wire {

  datatype Option<+T> = None | Some(value: T)

  /** A parsed JSON document. Only the forms the adapters look at are told apart. */
  datatype Json =
    | Null
    | Num(n: int)
    | Str(s: string)
    | Arr(items: seq<Json>)
    | Obj(fields: map<string, Json>)
  {
    /** The member `key`; absent on anything that is not an object. */
    function Field(key: string): Option<Json> {
      if Obj? && key in fields then Some(fields[key]) else None
    }
  }

  /** The document holds exactly this list under that key. */
  predicate HoldsList(doc: Json, key: string, items: seq<Json>) {
    doc.Obj? && key in doc.fields && doc.fields[key] == Arr(items)
  }

  predicate HoldsAList(doc: Json, key: string) {
    doc.Obj? && key in doc.fields && doc.fields[key].Arr?
  }

  // source/core/types.hpp: status classes (section 15 of RFC 9110, section 4 of RFC 6585)
  const HTTP_RATE_LIMITED := 429

  // source/core/limits.hpp
  const MAX_RETRY_AFTER_SECS := 3600
  const MS_PER_SECOND := 1000

  /** What an adapter asks the vendor for. Only the part that depends on the cursor is kept. */
  datatype Request =
    | Page(token: string)
    | Range(fromSec: int, toSec: int)
    | Prompt(content: string)

  /** What the transport hands back. Status 0 stands for a network failure or an abort;
      a body of None is one the JSON parser rejects. */
  datatype Response = Response(status: int, body: Option<Json>, retryAfter: string)

  predicate IsRateLimited(r: Response) { r.status == HTTP_RATE_LIMITED }

  predicate IsServerError(r: Response) { 500 <= r.status <= 599 }

  predicate IsClientError(r: Response) { 400 <= r.status <= 499 && r.status != HTTP_RATE_LIMITED }

  /** All four adapters retry exactly on 429 and on 5xx. */
  predicate IsRetryable(r: Response) { IsRateLimited(r) || IsServerError(r) }

  /** The statuses handle_error lets through to the parser. */
  predicate Proceeds(r: Response) {
    r.status != 0 && !IsClientError(r) && !IsRetryable(r)
  }

  const EXTRA_MAX_ENTRIES := 16
  const EXTRA_MAX_VALUE_LEN := 256
  const EXTRA_TOKEN_COUNT := "_token_count"

  /** Where the stream stands: a time window, a page token, or both. */
  datatype Cursor = Cursor(
    start: int, end: int, token: string, exhausted: bool, extra: map<string, string>)
  {
    predicate HasTimeWindow() { start != 0 || end != 0 }

    function Window(): int { end - start }

    /** The bounded insert: an oversized value or a seventeenth key is dropped. */
    function SetExtra(key: string, value: string): Cursor {
      if |value| > EXTRA_MAX_VALUE_LEN then this
      else if key !in extra && |extra| >= EXTRA_MAX_ENTRIES then this
      else this.(extra := extra[key := value])
    }
  }

  const ZERO_CURSOR := Cursor(0, 0, "", false, map[])

  datatype Code =
    | OK | EXHAUSTED | RATE_LIMIT | SERVER | CLIENT | PARSE | NETWORK
    | CANCELLED | INVALID_ARG | BUDGET_EXHAUSTED

  /** The records of one page, in order. */
  type Batch = seq<Json>

  /** FetchResult<JsonBatch>: an OK result carries one batch, any other none. */
  datatype Result = Result(error: Code, batches: seq<Batch>)
  {
    predicate Ok() { error == OK }
  }

  function Failed(error: Code): Result { Result(error, []) }

  function Yielded(batch: Batch): Result { Result(OK, [batch]) }

  /** How far a jittered delay may stray: a factor in [0.75, 1.25]. */
  type Jitter = j: real | 0.75 <= j <= 1.25 witness 1.0

  function Min(a: int, b: int): int { if a <= b then a else b }

  function Max(a: int, b: int): int { if a >= b then a else b }
}
