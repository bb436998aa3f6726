/** Values that cross the wire: decoded JSON documents, the client's exceptions
    as an error datatype, and the Python built-ins (`dict()`, subscripting,
    iteration) that the client applies to decoded JSON. */
module Wire {

  datatype Option<+T> = None | Some(value: T)

  /** A decoded JSON document. JSON `null` is Python's `None`. Objects are
      maps, so the insertion order Python keeps for them is not represented. */
  datatype Json =
    | JNull
    | JBool(b: bool)
    | JInt(n: int)
    | JStr(s: string)
    | JArray(items: seq<Json>)
    | JObject(fields: map<string, Json>)

  /** A Python dict with string keys, as built from a decoded JSON value. */
  type Dict = map<string, Json>

  /** The exceptions the client raises or lets through. */
  datatype Error =
    | NotAuthorized                            // exceptions.NotAuthorizedException
    | InvalidAuthRequestResponse(text: string) // exceptions.InvalidAuthRequestResponse
    | InvalidResponse(uri: string, text: string) // exceptions.InvalidResponse
    | KeyError(key: string)                    // a required key is absent
    | TypeError                                // a value of the wrong JSON type was subscripted or iterated
    | ValueError                               // dict() met an element that is not a pair
    | AttributeError(name: string)             // a class attribute is missing
    | NotImplemented                           // the abstract request's uri()
    | InvalidTimestamp(value: Json)            // the date-time parser rejected a value
    | Unsupported(value: Json)                 // behaviour the model does not represent

  datatype Result<+T> = Ok(value: T) | Err(error: Error)

  /** `value[key]` on a decoded JSON value: a key lookup on an object, a
      TypeError on anything else. */
  function Subscript(value: Json, key: string): (r: Result<Json>)
    ensures r.Ok? <==> value.JObject? && key in value.fields
    ensures r.Ok? ==> r.value == value.fields[key]
    ensures value.JObject? && key !in value.fields ==> r == Err(KeyError(key))
    ensures !value.JObject? ==> r == Err(TypeError)
  {
    match value
    case JObject(fields) => if key in fields then Ok(fields[key]) else Err(KeyError(key))
    case _ => Err(TypeError)
  }

  /** The characters of `s`, each as a one-character string. */
  function Chars(s: string): (r: seq<Json>)
    ensures |r| == |s|
    ensures forall i :: 0 <= i < |s| ==> r[i] == JStr([s[i]])
  {
    seq(|s|, i requires 0 <= i < |s| => JStr([s[i]]))
  }

  /** What a Python `for` loop (or `list.extend`) yields when it iterates a
      decoded JSON value: an array's items, a string's characters, an
      object's keys; the scalars are not iterable. */
  function Iterate(value: Json): (r: Result<seq<Json>>)
    ensures value.JArray? ==> r == Ok(value.items)
    ensures value.JStr? ==> r.Ok? && |r.value| == |value.s| &&
                            forall i :: 0 <= i < |value.s| ==> r.value[i] == JStr([value.s[i]])
    ensures r.Err? ==> r.error == TypeError || r.error == Unsupported(value)
    ensures (value.JNull? || value.JBool? || value.JInt?) ==> r == Err(TypeError)
  {
    match value
    case JArray(items) => Ok(items)
    case JStr(s) => Ok(Chars(s))
    case JObject(fields) =>
      // keys come out in insertion order, which a map does not keep
      if fields == map[] then Ok([]) else Err(Unsupported(value))
    case _ => Err(TypeError)
  }

  /** A dict key made from a JSON value: strings are kept; arrays and
      objects are unhashable; other scalars would make a non-string key. */
  function KeyOf(k: Json): (r: Result<string>)
    ensures r.Ok? <==> k.JStr?
    ensures r.Ok? ==> r.value == k.s
  {
    match k
    case JStr(s) => Ok(s)
    case JArray(_) => Err(TypeError)
    case JObject(_) => Err(TypeError)
    case _ => Err(Unsupported(k))
  }

  /** One element of the iterable given to `dict()`, read as a key-value
      pair: it must itself iterate to exactly two items. */
  function PairOf(item: Json): (r: Result<(string, Json)>)
    ensures item.JArray? && |item.items| == 2 && item.items[0].JStr? ==>
              r == Ok((item.items[0].s, item.items[1]))
    ensures item.JStr? && |item.s| == 2 ==> r == Ok(([item.s[0]], JStr([item.s[1]])))
    ensures (item.JNull? || item.JBool? || item.JInt?) ==> r == Err(TypeError)
    ensures r.Ok? ==> item.JArray? || item.JStr?
  {
    match item
    case JArray(kv) =>
      if |kv| != 2 then Err(ValueError)
      else (match KeyOf(kv[0])
            case Ok(k) => Ok((k, kv[1]))
            case Err(e) => Err(e))
    case JStr(s) => if |s| != 2 then Err(ValueError) else Ok(([s[0]], JStr([s[1]])))
    case JObject(fields) =>
      // a two-key object yields its keys in insertion order
      if |fields| != 2 then Err(ValueError) else Err(Unsupported(item))
    case _ => Err(TypeError)
  }

  /** `dict(pairs)`: the pairs are inserted left to right, so a later pair
      overwrites an earlier one with the same key; the first bad element
      stops the construction. */
  function DictFromPairs(items: seq<Json>): (r: Result<Dict>)
    decreases |items|
  {
    if items == [] then Ok(map[])
    else
      match PairOf(items[0])
      case Err(e) => Err(e)
      case Ok(kv) =>
        match DictFromPairs(items[1..])
        case Err(e) => Err(e)
        case Ok(rest) => Ok(map[kv.0 := kv.1] + rest)
  }

  /** Key of the pair at index `i`, for a sequence whose pairs all decode. */
  function KeyAt(items: seq<Json>, i: nat): string
    requires i < |items| && PairOf(items[i]).Ok?
  {
    PairOf(items[i]).value.0
  }

  /** No element after index `i` decodes to a pair with key `k`. */
  predicate LastWithKey(items: seq<Json>, i: nat, k: string)
    requires i < |items|
  {
    forall j :: i < j < |items| && PairOf(items[j]).Ok? ==> PairOf(items[j]).value.0 != k
  }

  /** `dict()` over pairs succeeds exactly when every element is a pair. */
  lemma {:induction false} DictFromPairsOk(items: seq<Json>)
    ensures DictFromPairs(items).Ok? <==> forall i :: 0 <= i < |items| ==> PairOf(items[i]).Ok?
    decreases |items|
  {
    if items != [] {
      var tail := items[1..];
      DictFromPairsOk(tail);
      assert forall i :: 0 <= i < |tail| ==> tail[i] == items[i + 1];
      if forall i :: 0 <= i < |items| ==> PairOf(items[i]).Ok? {
        assert PairOf(items[0]).Ok?;
        assert forall i :: 0 <= i < |tail| ==> PairOf(tail[i]).Ok?;
      }
    }
  }

  /** The keys of `dict(pairs)` are exactly the keys of the pairs. */
  lemma {:induction false} DictFromPairsKeys(items: seq<Json>, k: string)
    requires DictFromPairs(items).Ok?
    ensures forall i :: 0 <= i < |items| ==> PairOf(items[i]).Ok?
    ensures k in DictFromPairs(items).value <==> exists i :: 0 <= i < |items| && KeyAt(items, i) == k
    decreases |items|
  {
    DictFromPairsOk(items);
    if items != [] {
      var tail := items[1..];
      DictFromPairsKeys(tail, k);
      var rest := DictFromPairs(tail).value;
      if k in rest {
        var j :| 0 <= j < |tail| && KeyAt(tail, j) == k;
        assert items[j + 1] == tail[j];
        assert KeyAt(items, j + 1) == k;
      }
      assert DictFromPairs(items).value == map[KeyAt(items, 0) := PairOf(items[0]).value.1] + rest;
      if exists i :: 0 <= i < |items| && KeyAt(items, i) == k {
        var i :| 0 <= i < |items| && KeyAt(items, i) == k;
        if i > 0 {
          assert items[i] == tail[i - 1];
          assert KeyAt(tail, i - 1) == k;
        }
      }
    }
  }

  /** In `dict(pairs)` each key maps to the value of the LAST pair that
      carries it: a later pair overwrites an earlier one. */
  lemma {:induction false} DictFromPairsLastWins(items: seq<Json>, i: nat)
    requires DictFromPairs(items).Ok? && i < |items|
    requires PairOf(items[i]).Ok? && LastWithKey(items, i, KeyAt(items, i))
    ensures KeyAt(items, i) in DictFromPairs(items).value
    ensures DictFromPairs(items).value[KeyAt(items, i)] == PairOf(items[i]).value.1
    decreases |items|
  {
    var tail := items[1..];
    var rest := DictFromPairs(tail).value;
    var k := KeyAt(items, i);
    if i > 0 {
      assert items[i] == tail[i - 1];
      assert LastWithKey(tail, i - 1, k) by {
        forall j | i - 1 < j < |tail| && PairOf(tail[j]).Ok?
          ensures PairOf(tail[j]).value.0 != k
        {
          assert tail[j] == items[j + 1];
        }
      }
      DictFromPairsLastWins(tail, i - 1);
    } else {
      DictFromPairsKeys(tail, k);
      assert k !in rest by {
        forall j | 0 <= j < |tail| ensures KeyAt(tail, j) != k {
          assert tail[j] == items[j + 1];
        }
      }
    }
  }

  /** Python's `dict(value)` for a decoded JSON value: a copy of an object;
      the pairs of an array (or of a string: only the empty one has none);
      a TypeError for the scalars. */
  function ToDict(value: Json): (r: Result<Dict>)
    ensures value.JObject? ==> r == Ok(value.fields)
    ensures value.JArray? ==> r == DictFromPairs(value.items)
    ensures value.JStr? ==> (r.Ok? <==> value.s == "")
    ensures (value.JNull? || value.JBool? || value.JInt?) ==> r == Err(TypeError)
  {
    match value
    case JObject(fields) => Ok(fields)
    case JArray(items) => DictFromPairs(items)
    case JStr(s) =>
      // each element is a one-character string, never a pair
      if s == "" then Ok(map[]) else Err(ValueError)
    case _ => Err(TypeError)
  }
}
