/**
 * JSON documents as the browser code sees them after `JSON.parse`, and the values
 * `localStorage` holds. A stored value is either text written as it is
 * (`setItem(key, String(x))`) or the text `JSON.stringify` produced for a document.
 * The model keeps the document itself instead of its text, so `JSON.parse` gives the
 * document back, and raw text (which this code never writes as JSON) does not parse.
 */
module Json {
  import opened Wrappers
  import opened JsText

  datatype JsonValue =
    | JNull
    | JBool(b: bool)
    | JNum(n: real)
    | JStr(s: string)
    | JArr(items: seq<JsonValue>)
    | JObj(fields: map<string, JsonValue>)

  datatype Stored = Raw(text: string) | Doc(doc: JsonValue)

  /** `JSON.parse(text)`; `None` stands for the SyntaxError it throws. */
  function Parse(item: Stored): Option<JsonValue> {
    match item
    case Doc(d) => Some(d)
    case Raw(_) => None
  }

  /** `if (!raw)` on the result of `getItem`: null and the empty text are falsy. */
  predicate Truthy(item: Option<Stored>) {
    item.Some? && item.value != Raw("")
  }

  /** The text `getItem` returns when the code uses it as plain text (not modelled for documents). */
  function RawText(item: Option<Stored>): Option<string> {
    if item.Some? && item.value.Raw? then Some(item.value.text) else None
  }

  /** `Number(getItem(key))`: `Number(null)` is 0; a stringified number reads back as itself. */
  function StoredToNumber(item: Option<Stored>): Option<real> {
    match item
    case None => Some(0.0)
    case Some(Raw(t)) => StringToNumber(t)
    case Some(Doc(JNum(n))) => Some(n)
    case Some(Doc(_)) => None
  }

  /** A property read: `undefined` or a JSON value. */
  datatype Prop = Undefined | Defined(value: JsonValue)

  /** `v.key`: throws a TypeError (`None`) on null; `undefined` unless v is an object having key. */
  function Get(v: JsonValue, key: string): Option<Prop> {
    match v
    case JNull => None
    case JObj(f) => Some(if key in f then Defined(f[key]) else Undefined)
    case _ => Some(Undefined)
  }

  /** `v?.key` */
  function OptGet(v: JsonValue, key: string): Prop {
    if v.JObj? && key in v.fields then Defined(v.fields[key]) else Undefined
  }

  /** `typeof v.key === 'string' ? v.key : undefined` */
  function StringProp(v: JsonValue, key: string): Option<string> {
    var p := OptGet(v, key);
    if p.Defined? && p.value.JStr? then Some(p.value.s) else None
  }

  /** `typeof v.key === 'number' ? v.key : undefined` */
  function NumberProp(v: JsonValue, key: string): Option<real> {
    var p := OptGet(v, key);
    if p.Defined? && p.value.JNum? then Some(p.value.n) else None
  }

  /**
   * `Object.entries(v)` as a map from key to value: the fields of an object, the
   * elements of an array under their decimal indices, the characters of a string;
   * no entries for a number or a boolean; a TypeError (`None`) for null.
   */
  function Entries(v: JsonValue): (r: Option<map<string, JsonValue>>)
    ensures r.None? <==> v.JNull?
    ensures v.JObj? ==> r == Some(v.fields)
  {
    match v
    case JNull => None
    case JObj(f) => Some(f)
    case JArr(items) => Some(IndexMap(items))
    case JStr(s) => Some(IndexMap(seq(|s|, i requires 0 <= i < |s| => JStr([s[i]]))))
    case _ => Some(map[])
  }

  function IndexMap(items: seq<JsonValue>): (m: map<string, JsonValue>)
    ensures forall i :: 0 <= i < |items| ==> Decimal(i) in m && m[Decimal(i)] == items[i]
  {
    forall i, j | 0 <= i < |items| && 0 <= j < |items| && Decimal(i) == Decimal(j) ensures i == j {
      DecimalInjective(i, j);
    }
    map i | 0 <= i < |items| :: Decimal(i) := items[i]
  }
}
