/** JSON-like Python values: what the stores load from their JSON files and
    what the duck-typed `dict`s of the OCR and accounting code hold. */
module Values {
  import opened Wrappers
  import opened Text
  import opened Numbers

  datatype Value =
    | Null
    | Bool(b: bool)
    | Int(i: int)
    | Float(x: real)
    | Str(s: string)
    | List(items: seq<Value>)
    | Obj(fields: map<string, Value>)

  type Dict = map<string, Value>

  /** `d.get(k)`: the value under `k`, `None` when absent. */
  function Get(d: Dict, k: string): (v: Value)
    ensures k !in d ==> v == Null
    ensures k in d ==> v == d[k]
  {
    if k in d then d[k] else Null
  }

  /** `d.get(k, default)`. */
  function GetOr(d: Dict, k: string, default: Value): (v: Value)
    ensures k !in d ==> v == default
    ensures k in d ==> v == d[k]
  {
    if k in d then d[k] else default
  }

  /** Python truthiness: `None`, `False`, zero, and empty strings,
      lists and dicts are false. */
  predicate Truthy(v: Value) {
    match v
    case Null => false
    case Bool(b) => b
    case Int(i) => i != 0
    case Float(x) => x != 0.0
    case Str(s) => s != []
    case List(items) => items != []
    case Obj(fields) => fields != map[]
  }

  /** Python's `a or b`. */
  function Or(a: Value, b: Value): (r: Value)
    ensures Truthy(a) ==> r == a
    ensures !Truthy(a) ==> r == b
  {
    if Truthy(a) then a else b
  }

  /** `isinstance(v, int | float)` (a `bool` is an `int` in Python). */
  predicate IsNumber(v: Value) {
    v.Bool? || v.Int? || v.Float?
  }

  /** The numeric value of a number. */
  function NumberValue(v: Value): real
    requires IsNumber(v)
  {
    match v
    case Bool(b) => if b then 1.0 else 0.0
    case Int(i) => i as real
    case Float(x) => x
  }

  /** `str(v)` for the scalar values; lists and dicts render as empty text. */
  function PyStr(v: Value): string {
    match v
    case Null => "None"
    case Bool(b) => if b then "True" else "False"
    case Int(i) => IntToString(i)
    case Float(x) => FloatRepr(x)
    case Str(s) => s
    case List(_) => ""
    case Obj(_) => ""
  }

  /** The message of the `TypeError` that `float()` raises for an argument of type `typeName`. */
  function FloatArgument(typeName: string): string {
    "float() argument must be a string or a real number, not '" + typeName + "'"
  }

  /** Python's `float(s)` on text: `ValueError` when it does not parse. */
  function FloatOfText(s: string): (r: Result<real>)
    ensures r.Ok? <==> ParseFloat(s).Some?
    ensures r.Ok? ==> r.value == ParseFloat(s).value
  {
    match ParseFloat(s)
    case Some(x) => Ok(x)
    case None => Err(ValueError("could not convert string to float: '" + s + "'"))
  }

  /** Python's `float(v)`: numbers convert, text is parsed, anything else
      raises `TypeError`; unparsable text raises `ValueError`. */
  function ToFloat(v: Value): (r: Result<real>)
    ensures IsNumber(v) ==> r == Ok(NumberValue(v))
    ensures v.Str? ==> r == FloatOfText(v.s)
    ensures (v.Null? || v.List? || v.Obj?) ==> r.Err? && r.error.TypeError?
  {
    match v
    case Str(s) => FloatOfText(s)
    case Null => Err(TypeError(FloatArgument("NoneType")))
    case List(_) => Err(TypeError(FloatArgument("list")))
    case Obj(_) => Err(TypeError(FloatArgument("dict")))
    case _ => Ok(NumberValue(v))
  }

  /** Storing under one key leaves every other key's entry alone. */
  lemma StoreKeeps<K, V>(m: map<K, V>, k: K, v: V, j: K)
    requires j != k && j in m
    ensures j in m[k := v] && m[k := v][j] == m[j]
  {
  }

  /** Three stores under distinct keys can each be read back. */
  lemma ThreeStores<K, V>(m: map<K, V>, k1: K, v1: V, k2: K, v2: V, k3: K, v3: V)
    requires k1 != k2 && k1 != k3 && k2 != k3
    ensures var r := m[k1 := v1][k2 := v2][k3 := v3];
            k1 in r && r[k1] == v1 && k2 in r && r[k2] == v2 && k3 in r && r[k3] == v3
  {
  }

  /** `d.update(u)`: keys of `u` override, the others are kept. */
  function Merge(d: Dict, u: Dict): (r: Dict)
    ensures r.Keys == d.Keys + u.Keys
    ensures forall k :: k in u ==> r[k] == u[k]
    ensures forall k :: k in d && k !in u ==> r[k] == d[k]
  {
    d + u
  }

  // ---- fields of a loaded JSON object ----

  /** `d[key]`: `KeyError` when absent. */
  function Item(d: Dict, key: string): (r: Result<Value>)
    ensures r.Ok? <==> key in d
    ensures r.Ok? ==> r.value == d[key]
    ensures r.Err? ==> r.error == KeyError(key)
  {
    if key in d then Ok(d[key]) else Err(KeyError(key))
  }

  /** `data[key]` holding text; `KeyError` when absent.  A value of
      another type is refused here, where Python would carry it along. */
  function TextField(d: Dict, key: string): (r: Result<string>)
    ensures key !in d ==> r == Err(KeyError(key))
    ensures r.Ok? ==> key in d && d[key] == Str(r.value)
  {
    if key !in d then Err(KeyError(key))
    else if d[key].Str? then Ok(d[key].s)
    else Err(TypeError("expected a string under '" + key + "'"))
  }

  /** Optional text as JSON: `None` is `null`. */
  function OptionalText(v: Option<string>): Value {
    match v
    case Some(s) => Str(s)
    case None => Null
  }

  /** `data.get(key)` holding text or `None`. */
  function OptionalTextField(d: Dict, key: string): (r: Result<Option<string>>)
    ensures r.Ok? ==> Get(d, key) == OptionalText(r.value)
  {
    match Get(d, key)
    case Null => Ok(None)
    case Str(s) => Ok(Some(s))
    case _ => Err(TypeError("expected a string or None under '" + key + "'"))
  }

  /** Text stored under `key` is read back. */
  lemma TextFieldOf(d: Dict, key: string, t: string)
    requires key in d && d[key] == Str(t)
    ensures TextField(d, key) == Ok(t)
  {
  }

  /** Optional text stored under `key` is read back. */
  lemma OptionalTextFieldOf(d: Dict, key: string, t: Option<string>)
    requires Get(d, key) == OptionalText(t)
    ensures OptionalTextField(d, key) == Ok(t)
  {
  }

  /** An optional object as JSON. */
  function OptionalObject(v: Option<Dict>): Value {
    match v
    case Some(m) => Obj(m)
    case None => Null
  }

  /** `data.get(key)` holding an object or `None`. */
  function OptionalObjectField(d: Dict, key: string): (r: Result<Option<Dict>>)
    ensures r.Ok? ==> Get(d, key) == OptionalObject(r.value)
  {
    match Get(d, key)
    case Null => Ok(None)
    case Obj(m) => Ok(Some(m))
    case _ => Err(TypeError("expected an object or None under '" + key + "'"))
  }
}
