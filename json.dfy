/**
 * Dynamically typed Python values as loaded by `json.load`, the Python operations the
 * data-cleaning scripts apply to them (`d[k]`, `d.get(k, default)`, `x[0]`, iteration,
 * `str.join`, `str(x)` inside f-strings, truthiness), the exceptions those operations raise,
 * and the checks pydantic (v2, lax mode) applies to `str`, `Optional[str]` and `List[str]` fields.
 *
 * A JSON object is an association list in insertion order. Files written by `json.dump`
 * never repeat a key, so lookup takes the first binding. Numbers are integers.
 */
module Json {
  import opened Wrappers
  import opened Text

  datatype Json =
    | JNull
    | JBool(b: bool)
    | JNum(n: int)
    | JStr(s: string)
    | JList(items: seq<Json>)
    | JObj(fields: seq<Member>)

  datatype Member = Member(key: string, val: Json)

  /** The Python exceptions the modelled code can raise. */
  datatype PyError = KeyError | IndexError | TypeError | AttributeError | ValidationError | UnboundLocalError

  /** A Python computation that returns a value or raises. */
  datatype Result<+T> = Ok(value: T) | Raised(error: PyError)

  /** Python truthiness: `None`, `False`, `0`, `""`, `[]` and `{}` are false. */
  predicate Truthy(v: Json) {
    match v
    case JNull => false
    case JBool(b) => b
    case JNum(n) => n != 0
    case JStr(s) => s != ""
    case JList(items) => items != []
    case JObj(fields) => fields != []
  }

  /** The first binding of `key`, if any. */
  function Lookup(fields: seq<Member>, key: string): (r: Option<Json>)
    ensures r.Some? ==> exists i :: 0 <= i < |fields| && fields[i].key == key && fields[i].val == r.value
    ensures r.None? ==> forall i :: 0 <= i < |fields| ==> fields[i].key != key
    decreases |fields|
  {
    if fields == [] then None
    else if fields[0].key == key then Some(fields[0].val)
    else Lookup(fields[1..], key)
  }

  /** `d.get(key, default)` on a dict; on anything else `.get` raises AttributeError. */
  function Get(v: Json, key: string, default: Json): (r: Result<Json>)
    ensures r.Raised? <==> !v.JObj?
  {
    if v.JObj? then Ok(Lookup(v.fields, key).GetOr(default)) else Raised(AttributeError)
  }

  /** `d.get(key, default)` on a value known to be a dict. */
  function FieldOr(v: Json, key: string, default: Json): Json {
    if v.JObj? then Lookup(v.fields, key).GetOr(default) else default
  }

  /** `d.get(key)` on a value known to be a dict (a missing key gives `None`). */
  function Field(v: Json, key: string): Json {
    FieldOr(v, key, JNull)
  }

  /** `d[key]`: KeyError for a missing key, TypeError when `d` is not a dict (JSON dicts have string keys). */
  function Subscript(v: Json, key: string): (r: Result<Json>)
    ensures r.Ok? <==> v.JObj? && Lookup(v.fields, key).Some?
  {
    if !v.JObj? then Raised(TypeError)
    else match Lookup(v.fields, key)
      case Some(x) => Ok(x)
      case None => Raised(KeyError)
  }

  /**
   * `x[0]`: the first element of a list or the first character of a string; IndexError when
   * empty; KeyError on a dict (a JSON dict has no key `0`); TypeError on anything else.
   */
  function First(v: Json): (r: Result<Json>)
    ensures v.JList? && v.items != [] ==> r == Ok(v.items[0])
    ensures Truthy(v) && r.Ok? ==> v.JList? || v.JStr?
  {
    match v
    case JList(items) => if items == [] then Raised(IndexError) else Ok(items[0])
    case JStr(s) => if s == [] then Raised(IndexError) else Ok(JStr([s[0]]))
    case JObj(_) => Raised(KeyError)
    case _ => Raised(TypeError)
  }

  /**
   * `v[key][0] if v.get(key) else None` on a dict: the first element of a non-empty list,
   * `None` for a falsy or missing value; a truthy value that is neither a list nor a string raises.
   */
  function FirstIfTruthy(v: Json, key: string): (r: Result<Json>)
    ensures Field(v, key).JList? && Field(v, key).items != [] ==> r == Ok(Field(v, key).items[0])
    ensures !Truthy(Field(v, key)) ==> r == Ok(JNull)
    ensures Truthy(Field(v, key)) && r.Ok? ==> Field(v, key).JList? || Field(v, key).JStr?
  {
    if Truthy(Field(v, key)) then First(Field(v, key)) else Ok(JNull)
  }

  function Keys(fields: seq<Member>): (r: seq<string>)
    ensures |r| == |fields| && forall i :: 0 <= i < |r| ==> r[i] == fields[i].key
  {
    seq(|fields|, i requires 0 <= i < |fields| => fields[i].key)
  }

  /** `for x in v`: the elements of a list, the characters of a string, the keys of a dict; TypeError otherwise. */
  function Iterate(v: Json): (r: Result<seq<Json>>)
    ensures r.Ok? <==> v.JList? || v.JStr? || v.JObj?
    ensures v.JList? ==> r == Ok(v.items)
  {
    match v
    case JList(items) => Ok(items)
    case JStr(s) => Ok(seq(|s|, i requires 0 <= i < |s| => JStr([s[i]])))
    case JObj(fields) => Ok(seq(|fields|, i requires 0 <= i < |fields| => JStr(fields[i].key)))
    case _ => Raised(TypeError)
  }

  predicate AllStr(xs: seq<Json>) {
    forall i :: 0 <= i < |xs| ==> xs[i].JStr?
  }

  function Strs(xs: seq<Json>): (r: seq<string>)
    requires AllStr(xs)
    ensures |r| == |xs| && forall i :: 0 <= i < |xs| ==> r[i] == xs[i].s
  {
    seq(|xs|, i requires 0 <= i < |xs| => xs[i].s)
  }

  /** `sep.join(v)`: TypeError unless `v` is iterable and every element is a string. */
  function JoinValues(sep: string, v: Json): (r: Result<string>)
    ensures v.JList? && AllStr(v.items) ==> r == Ok(Join(Strs(v.items), sep))
    ensures v.JList? && !AllStr(v.items) ==> r.Raised?
  {
    match Iterate(v)
    case Raised(e) => Raised(e)
    case Ok(xs) => if AllStr(xs) then Ok(Join(Strs(xs), sep)) else Raised(TypeError)
  }

  /** `str(v)`, as an f-string renders a value. */
  function Show(v: Json): string
    decreases v, 0
  {
    match v
    case JNull => "None"
    case JBool(b) => if b then "True" else "False"
    case JNum(n) => IntToString(n)
    case JStr(s) => s
    case JList(items) =>
      "[" + Join(seq(|items|, i requires 0 <= i < |items| => Repr(items[i])), ", ") + "]"
    case JObj(fields) =>
      "{" + Join(seq(|fields|, i requires 0 <= i < |fields| =>
                   "'" + fields[i].key + "': " + Repr(fields[i].val)), ", ") + "}"
  }

  /** `repr(v)` as used inside a rendered list or dict; strings are quoted without escaping. */
  function Repr(v: Json): string
    decreases v, 1
  {
    if v.JStr? then "'" + v.s + "'" else Show(v)
  }

  /** A truthy value whose string form, if any, is stripped renders without a blank at either end. */
  lemma ShowSolid(v: Json)
    requires Truthy(v) && (v.JStr? ==> Trimmed(v.s, Space))
    ensures Solid(Show(v))
  {
    match v
    case JBool(b) =>
    case JNum(n) =>
    case JStr(s) =>
    case JList(items) =>
      var inner := Join(seq(|items|, i requires 0 <= i < |items| => Repr(items[i])), ", ");
      assert Show(v) == "[" + inner + "]";
    case JObj(fields) =>
      var inner := Join(seq(|fields|, i requires 0 <= i < |fields| =>
                   "'" + fields[i].key + "': " + Repr(fields[i].val)), ", ");
      assert Show(v) == "{" + inner + "}";
  }

  /** Python's `type(v).__name__`, as it appears in an AttributeError message. */
  function TypeName(v: Json): string {
    match v
    case JNull => "NoneType"
    case JBool(_) => "bool"
    case JNum(_) => "int"
    case JStr(_) => "str"
    case JList(_) => "list"
    case JObj(_) => "dict"
  }

  /** A pydantic `str` field: only a string passes. */
  function ValidStr(v: Json): (r: Result<string>)
    ensures r.Ok? <==> v.JStr?
  {
    if v.JStr? then Ok(v.s) else Raised(ValidationError)
  }

  /** A pydantic `Optional[str]` field: `None` or a string. */
  function ValidOptStr(v: Json): (r: Result<Option<string>>)
    ensures r.Ok? <==> v.JNull? || v.JStr?
    ensures r == Ok(None) <==> v.JNull?
  {
    match v
    case JNull => Ok(None)
    case JStr(s) => Ok(Some(s))
    case _ => Raised(ValidationError)
  }

  /** A pydantic `Optional[List[str]]` field. */
  function ValidOptStrList(v: Json): (r: Result<Option<seq<string>>>)
    ensures r.Ok? <==> v.JNull? || (v.JList? && AllStr(v.items))
  {
    match v
    case JNull => Ok(None)
    case JList(items) => if AllStr(items) then Ok(Some(Strs(items))) else Raised(ValidationError)
    case _ => Raised(ValidationError)
  }
}
