/** The values the nutrition store holds and the tools exchange: JSON values
    as Python's `json` module builds them, food records as flat key/value
    documents, the store as the ordered list of its documents, and the
    exceptions the Python code lets escape. */
module Records {
  import opened Wrappers

  /** A decoded JSON value. Integers and floats stay apart because Python
      treats them differently (slicing accepts only integers). */
  datatype Json =
    | JNull
    | JBool(b: bool)
    | JInt(i: int)
    | JFloat(f: real)
    | JStr(s: string)
    | JArr(items: seq<Json>)
    | JObj(fields: map<string, Json>)

  /** One document of the food table: `food_id`, `description`, `source`,
      `confidence`, the per-100 g nutrient fields and any other keys. */
  type Record = map<string, Json>

  /** The food table, in insertion order. */
  type Store = seq<Record>

  /** The Python exceptions the modelled code raises or lets through. */
  datatype PyError =
    | KeyError(key: string)
    | TypeError(reason: string)
    | AttributeError(reason: string)
    | ValueError(message: string)
    | RuntimeError(message: string)
    | JsonDecodeError
    | ValidationError(model: string)

  /** `str(e)` for the exceptions the model distinguishes. A decode error's
      text depends on the parser's position reporting, which is not modelled. */
  function Describe(e: PyError): string {
    match e
    case KeyError(k) => "'" + k + "'"
    case TypeError(m) => m
    case AttributeError(m) => m
    case ValueError(m) => m
    case RuntimeError(m) => m
    case JsonDecodeError => "invalid JSON"
    case ValidationError(m) => "validation error for " + m
  }

  /** The numeric value of an `int`, `float` or `bool` (a `bool` is an `int`
      in Python); `None` for anything arithmetic rejects. */
  function AsNumber(j: Json): Option<real> {
    match j
    case JInt(i) => Some(i as real)
    case JFloat(f) => Some(f)
    case JBool(b) => Some(if b then 1.0 else 0.0)
    case _ => None
  }

  /** `json.loads`: the decoded value, `None` where it raises
      `JSONDecodeError`. JSON text syntax is not modelled. */
  type Loader = string -> Option<Json>

  /** `JSONDecoder().raw_decode`: the value of the JSON text at the very
      start of the string, whatever follows it; `None` where it raises
      `JSONDecodeError`. */
  type RawDecoder = string -> Option<Json>

  /** A pydantic model's `model_validate`: the model instance, `None` where
      it raises `ValidationError`. */
  type Validator<M> = Json -> Option<M>

  /** `d.get(k, default)` */
  function Get(r: Record, k: string, default: Json): Json {
    if k in r then r[k] else default
  }

  /** `type(j).__name__` for a decoded value. */
  function TypeName(j: Json): string {
    match j
    case JNull => "NoneType"
    case JBool(_) => "bool"
    case JInt(_) => "int"
    case JFloat(_) => "float"
    case JStr(_) => "str"
    case JArr(_) => "list"
    case JObj(_) => "dict"
  }

  /** What `j.lower()` raises on a value that is not a string. */
  function NoLower(j: Json): PyError {
    AttributeError("'" + TypeName(j) + "' object has no attribute 'lower'")
  }

  /** A record whose `description` is a string. */
  predicate HasDescription(r: Record) {
    "description" in r && r["description"].JStr?
  }

  function Description(r: Record): string
    requires HasDescription(r)
  {
    r["description"].s
  }

  /** A `description` that is present but not a string: lower-casing it
      raises. */
  predicate BadDescription(r: Record) {
    "description" in r && !r["description"].JStr?
  }

  /** What `r['description'].lower()` raises, if anything: `KeyError` for a
      missing description, `AttributeError` for one that is not a string. */
  function DescriptionError(r: Record): Option<PyError> {
    if "description" !in r then Some(KeyError("description"))
    else if r["description"].JStr? then None
    else Some(NoLower(r["description"]))
  }

  /** Every document has a string description, so every description can be
      read and lower-cased. */
  predicate ValidStore(db: Store) {
    forall i :: 0 <= i < |db| ==> HasDescription(db[i])
  }

  /** A value used as a slice bound `xs[:j]`: an integer (a `bool` is one)
      or `None`, which keeps everything; any other value makes the slice
      raise `TypeError`. */
  function SliceBound(j: Json): Result<Option<int>, PyError> {
    match j
    case JInt(i) => Ok(Some(i))
    case JBool(b) => Ok(Some(if b then 1 else 0))
    case JNull => Ok(None)
    case _ => Err(TypeError("slice indices must be integers or None or have an __index__ method"))
  }

  /** `a >= b` on strings: code points compared left to right, a proper
      prefix ordered first. */
  predicate StrAtLeast(a: string, b: string)
    decreases |b|
  {
    if b == [] then true
    else if a == [] then false
    else if a[0] != b[0] then a[0] > b[0]
    else StrAtLeast(a[1..], b[1..])
  }

  /** Python's `a >= b` on decoded values: numbers (a `bool` is one) by
      value, strings by code points; `None` where Python raises
      `TypeError`, which is every other pairing. */
  function AtLeast(a: Json, b: Json): Option<bool> {
    if AsNumber(a).Some? && AsNumber(b).Some? then Some(AsNumber(a).value >= AsNumber(b).value)
    else if a.JStr? && b.JStr? then Some(StrAtLeast(a.s, b.s))
    else None
  }

  /** The `TypeError` of a comparison `a >= b` that Python refuses. */
  function NotComparable(a: Json, b: Json): PyError {
    TypeError("'>=' not supported between instances of '" + TypeName(a) + "' and '" + TypeName(b) + "'")
  }
}
