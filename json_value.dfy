/** Decoded JSON values, the errors the client raises, and Python's `data[key]`. */
module JsonValue {

  /** A JSON document after decoding. Objects are maps: JSON object keys are
      always strings, and a duplicate key keeps its last value when decoded. */
  datatype Json =
    | JNull
    | JBool(b: bool)
    | JInt(i: int)
    | JString(s: string)
    | JArray(items: seq<Json>)
    | JObject(fields: map<string, Json>)

  /** What a call of the client can raise. */
  datatype Error =
    | HttpError(status: int)     // raise_for_status on a 4xx or 5xx answer
    | RetriesExhausted           // the retry policy gave up on a retried status: a RetryError, with no status
    | KeyError(key: string)      // a required key is absent from a JSON object
    | NotSubscriptable           // `v["key"]` where v is not an object (list, str, int, bool, None)
    | NotIterable                // `for x in v` where v is an int, a bool or None

  datatype Option<+T> = None | Some(value: T)

  datatype Result<+T> = Success(value: T) | Failure(error: Error) {
    predicate IsFailure() { Failure? }

    function PropagateFailure<U>(): Result<U>
      requires Failure?
    {
      Failure(error)
    }

    function Extract(): T
      requires Success?
    {
      value
    }
  }

  /** Python's `data[key]` on a decoded value: a dictionary lookup that raises
      KeyError when the key is absent and TypeError when `data` is not a dictionary. */
  function Subscript(data: Json, key: string): Result<Json> {
    match data
    case JObject(fields) => if key in fields then Success(fields[key]) else Failure(KeyError(key))
    case _ => Failure(NotSubscriptable)
  }

  /** The keys of `keys`, in order, that `fields` lacks. */
  function MissingKeys(keys: seq<string>, fields: map<string, Json>): seq<string> {
    if keys == [] then []
    else (if keys[0] in fields then [] else [keys[0]]) + MissingKeys(keys[1..], fields)
  }

  /** `MissingKeys` of a four-key list, written out key by key. */
  lemma MissingKeysOfFour(a: string, b: string, c: string, d: string, fields: map<string, Json>)
    ensures MissingKeys([a, b, c, d], fields) ==
              (if a in fields then [] else [a]) + (if b in fields then [] else [b]) +
              (if c in fields then [] else [c]) + (if d in fields then [] else [d])
  {
    var ma, mb, mc, md := (if a in fields then [] else [a]), (if b in fields then [] else [b]),
                          (if c in fields then [] else [c]), (if d in fields then [] else [d]);
    assert [a, b, c, d][1..] == [b, c, d];
    assert [b, c, d][1..] == [c, d];
    assert [c, d][1..] == [d];
    assert MissingKeys([d], fields) == md;
    assert MissingKeys([c, d], fields) == mc + md;
    assert MissingKeys([b, c, d], fields) == mb + (mc + md);
    assert MissingKeys([a, b, c, d], fields) == ma + (mb + (mc + md));
    assert ma + (mb + (mc + md)) == ma + mb + mc + md;
  }
}
