/** JSON values as `JSON.parse` produces them, with the JavaScript operations the handlers
    apply to them: property access, truthiness (`x || d`) and conversion to a string
    (`String(x)` and template literals). Numbers are integers in this model. */
module Json {
  import opened Outcomes
  import opened Text

  datatype Json =
    | JNull
    | JBool(b: bool)
    | JNum(n: int)
    | JStr(s: string)
    | JArr(elems: seq<Json>)
    | JObj(fields: seq<(string, Json)>)

  /** The value of the last field named `key`: `JSON.parse` keeps the last of duplicate names. */
  function FieldValue(fields: seq<(string, Json)>, key: string): (r: Option<Json>)
    ensures r.None? <==> forall i :: 0 <= i < |fields| ==> fields[i].0 != key
    ensures r.Some? ==> exists i :: 0 <= i < |fields| && fields[i] == (key, r.value) &&
                                   forall j :: i < j < |fields| ==> fields[j].0 != key
  {
    if fields == [] then None
    else if fields[|fields| - 1].0 == key then Some(fields[|fields| - 1].1)
    else
      var r := FieldValue(fields[..|fields| - 1], key);
      if r.Some? then LastInPrefix(fields, fields[..|fields| - 1], key, r.value); r else r
  }

  lemma LastInPrefix(fields: seq<(string, Json)>, prefix: seq<(string, Json)>, key: string, v: Json)
    requires |fields| > 0 && prefix == fields[..|fields| - 1] && fields[|fields| - 1].0 != key
    requires exists i :: 0 <= i < |prefix| && prefix[i] == (key, v) &&
                         forall j :: i < j < |prefix| ==> prefix[j].0 != key
    ensures exists i :: 0 <= i < |fields| && fields[i] == (key, v) &&
                        forall j :: i < j < |fields| ==> fields[j].0 != key
  {
    var i :| 0 <= i < |prefix| && prefix[i] == (key, v) && forall j :: i < j < |prefix| ==> prefix[j].0 != key;
    forall j | i < j < |fields| ensures fields[j].0 != key {
      if j < |prefix| {
        assert prefix[j] == fields[j];
      }
    }
    assert fields[i] == (key, v);
  }

  /** The message of the `TypeError` thrown by reading a property of `undefined` or `null`. */
  function ReadError(receiver: string, key: string): string {
    "Cannot read properties of " + receiver + " (reading '" + key + "')"
  }

  /** `v.key`, where `None` is `undefined`: throws on an `undefined` or `null` receiver,
      is `undefined` on a value that is not an object or has no such field. */
  function Member(v: Option<Json>, key: string): (r: Result<Option<Json>>)
    ensures r.Err? <==> v == None || v == Some(JNull)
    ensures v.Some? && v.value.JObj? ==> r == Ok(FieldValue(v.value.fields, key))
  {
    match v
    case None => Err(ReadError("undefined", key))
    case Some(JNull) => Err(ReadError("null", key))
    case Some(JObj(fields)) => Ok(FieldValue(fields, key))
    case Some(_) => Ok(None)
  }

  /** JavaScript truthiness: `undefined`, `null`, `false`, `0` and `""` are falsy. */
  predicate Truthy(v: Option<Json>) {
    match v
    case None => false
    case Some(JNull) => false
    case Some(JBool(b)) => b
    case Some(JNum(n)) => n != 0
    case Some(JStr(s)) => s != ""
    case Some(_) => true
  }

  /** `v || default`. */
  function OrElse(v: Option<Json>, default: Json): Json {
    if Truthy(v) then v.value else default
  }

  /** `String(v)` for a defined value; an array joins its elements with commas,
      writing `null` elements as the empty string. */
  function Stringify(v: Json): string {
    match v
    case JNull => "null"
    case JBool(b) => if b then "true" else "false"
    case JNum(n) => IntToDecimal(n)
    case JStr(s) => s
    case JArr(elems) =>
      Join(seq(|elems|, i requires 0 <= i < |elems| =>
                          if elems[i] == JNull then "" else Stringify(elems[i])), ",")
    case JObj(_) => "[object Object]"
  }

  /** `String(v)` and `${v}`, where `None` is `undefined`. */
  function ToStr(v: Option<Json>): string {
    match v
    case None => "undefined"
    case Some(j) => Stringify(j)
  }
}
