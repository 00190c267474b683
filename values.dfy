/**
 * Parsed JSON values, account records and the outcome of combining them.
 * A record is the object a provider wrote into an `accounts.json` file,
 * seen as a map from property names to values.
 */
module Values {

  /** A JavaScript value as `JSON.parse` can produce it, plus `undefined`,
      which the combiner stores under `chainId` when the lookup misses. */
  datatype Value =
    | Null
    | Bool(b: bool)
    | Num(n: real)
    | Str(s: string)
    | Arr(items: seq<Value>)
    | Obj(fields: map<string, Value>)
    | Undefined

  /** One account object: its own enumerable properties. */
  type Record = map<string, Value>

  /** The JSON text of one `accounts.json`, as far as the combiner cares:
      either an array of objects, or text that `JSON.parse` rejects or whose
      value has no `forEach` (not an array). */
  datatype Content = Parsed(rows: seq<Record>) | Unparseable

  datatype Option<T> = None | Some(value: T)

  /** The exception that aborts a combine: the file whose content failed. */
  datatype Error = ParseError(path: seq<string>)

  datatype Result<T> = Ok(value: T) | Err(error: Error)

  /** Sequencing of two steps that may throw: the first failure wins, and
      on success the record lists are concatenated (`Array.prototype.concat`). */
  function Then(a: Result<seq<Record>>, b: Result<seq<Record>>): (r: Result<seq<Record>>)
    ensures a.Err? ==> r == a
    ensures a.Ok? && b.Err? ==> r == b
    ensures r.Ok? <==> a.Ok? && b.Ok?
    ensures r.Ok? ==> r.value == a.value + b.value
  {
    if a.Err? then a
    else if b.Err? then b
    else Ok(a.value + b.value)
  }

  lemma ThenAssociative(a: Result<seq<Record>>, b: Result<seq<Record>>, c: Result<seq<Record>>)
    ensures Then(Then(a, b), c) == Then(a, Then(b, c))
  {
    if a.Ok? && b.Ok? && c.Ok? {
      assert (a.value + b.value) + c.value == a.value + (b.value + c.value);
    }
  }
}
