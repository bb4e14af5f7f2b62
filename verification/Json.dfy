/** The untyped values that local bindings are made of, and the readers every handler uses. */
module Json {

  datatype Option<+T> = None | Some(value: T)

  /** `Undefined` only occurs in memory: writing a record to the store drops such fields. */
  datatype Json =
    | Undefined
    | Null
    | Bool(bool)
    | Number(int)
    | Str(text: string)
    | Arr(items: seq<Json>)
    | Obj(fields: Fields)

  type Fields = map<string, Json>

  /** ECMAScript white space and line terminators. */
  predicate IsSpace(c: char) {
    c in {' ', '\t', '\n', '\r', '\U{000B}', '\U{000C}', '\U{00A0}', '\U{1680}', '\U{2028}', '\U{2029}',
          '\U{202F}', '\U{205F}', '\U{3000}', '\U{FEFF}'}
    || '\U{2000}' <= c <= '\U{200A}'
  }

  function TrimStart(s: string): string {
    if s != "" && IsSpace(s[0]) then TrimStart(s[1..]) else s
  }

  function TrimEnd(s: string): string {
    if s != "" && IsSpace(s[|s| - 1]) then TrimEnd(s[..|s| - 1]) else s
  }

  function Trim(s: string): string { TrimEnd(TrimStart(s)) }

  predicate Blank(s: string) { Trim(s) == "" }

  /** An object, not null and not an array. */
  function Record(v: Json): Option<Fields> {
    if v.Obj? then Some(v.fields) else None
  }

  function Get(m: Fields, key: string): Json {
    if key in m then m[key] else Undefined
  }

  /** A string with something in it besides white space; handed on untrimmed. */
  function NonEmptyString(v: Json): Option<string> {
    if v.Str? && !Blank(v.text) then Some(v.text) else None
  }

  /** The same reader on one field of what may or may not be a record. */
  function StringField(r: Option<Fields>, key: string): Option<string> {
    if r.Some? then NonEmptyString(Get(r.value, key)) else None
  }

  /** The first reading that found something. */
  function OrElse<T>(a: Option<T>, b: Option<T>): Option<T> {
    if a.Some? then a else b
  }

  /** What reaches the database: fields without a value are not written. */
  function Stored(m: Fields): Fields {
    map k | k in m && m[k] != Undefined :: m[k]
  }

  /** updatePlatformBindings: a shallow merge, then stored. */
  function Merge(current: Fields, patch: Fields): Fields {
    Stored(current + patch)
  }

  lemma MergedField(current: Fields, patch: Fields, k: string)
    ensures Get(Merge(current, patch), k) == if k in patch then patch[k] else Get(current, k)
  {
  }

  /** A non-empty record whose keys and values are all non-blank strings. */
  predicate CompleteScope(r: Option<Fields>) {
    r.Some? && r.value != map[]
    && forall k :: k in r.value ==> !Blank(k) && NonEmptyString(r.value[k]).Some?
  }
}
