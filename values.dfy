/** JSON values as the client library sees them once decoded, and the few
    Python built-ins the wrapper layer applies to them: subscription, `.get`,
    iteration, `len`, truthiness and `str`.  Exceptions the wrapper layer can
    raise are the variants of `Error`. */
module Values {

  /** A decoded JSON value.  Objects keep their keys in insertion order, as a
      Python dict does; their keys are taken to be distinct, as in any dict
      `json.loads` builds. */
  datatype Json =
    | JNull
    | JBool(b: bool)
    | JInt(i: int)
    | JStr(s: string)
    | JList(items: seq<Json>)
    | JObj(entries: seq<(string, Json)>)

  /** The exceptions that reach the caller of a handle method. */
  datatype Error =
    | HarperDBError(message: string)
    | KeyError(key: Json)
    | IndexError
    | TypeError
    | AttributeError
    | ValueError
    | OverflowError
    | StopIteration
    | ConnectionError

  datatype Result<+T> = Ok(value: T) | Err(error: Error) {
    predicate IsFailure() { Err? }
    function PropagateFailure<U>(): Result<U> requires Err? { Err(error) }
    function Extract(): T requires Ok? { value }
  }

  datatype Option<+T> = None | Some(value: T)

  /** Python's truth value of a JSON value. */
  predicate Truthy(j: Json) {
    match j
    case JNull => false
    case JBool(b) => b
    case JInt(i) => i != 0
    case JStr(s) => s != ""
    case JList(xs) => xs != []
    case JObj(es) => es != []
  }

  /** Lists and dicts cannot be dict keys. */
  predicate Hashable(j: Json) {
    !j.JList? && !j.JObj?
  }

  function Keys(es: seq<(string, Json)>): (ks: seq<string>)
    ensures |ks| == |es| && forall i :: 0 <= i < |es| ==> ks[i] == es[i].0
  {
    if es == [] then [] else [es[0].0] + Keys(es[1..])
  }

  function Vals(es: seq<(string, Json)>): (vs: seq<Json>)
    ensures |vs| == |es| && forall i :: 0 <= i < |es| ==> vs[i] == es[i].1
  {
    if es == [] then [] else [es[0].1] + Vals(es[1..])
  }

  /** The value stored under `k`, the first entry that has that key. */
  function Find(es: seq<(string, Json)>, k: string): (r: Option<Json>)
    ensures r.None? <==> k !in Keys(es)
    ensures r.Some? ==> exists i :: 0 <= i < |es| && es[i] == (k, r.value)
  {
    if es == [] then None
    else if es[0].0 == k then Some(es[0].1)
    else Find(es[1..], k)
  }

  /** `d[k] = v` on a dict: a present key keeps its place, a new one goes last. */
  function DictPut(es: seq<(string, Json)>, k: string, v: Json): (r: seq<(string, Json)>)
    ensures k in Keys(es) ==> Keys(r) == Keys(es)
    ensures k !in Keys(es) ==> r == es + [(k, v)]
  {
    if es == [] then [(k, v)]
    else if es[0].0 == k then [(k, v)] + es[1..]
    else [es[0]] + DictPut(es[1..], k, v)
  }

  /** An integer subscript: Python's bool is an int. */
  function AsIndex(k: Json): Option<int> {
    match k
    case JInt(i) => Some(i)
    case JBool(b) => Some(if b then 1 else 0)
    case _ => None
  }

  /** `c[k]`. */
  function Subscript(c: Json, k: Json): (r: Result<Json>)
    ensures c.JObj? && k.JStr? && k.s !in Keys(c.entries) ==> r == Err(KeyError(k))
    ensures c.JObj? && k.JStr? && k.s in Keys(c.entries) ==> r.Ok? && Find(c.entries, k.s) == Some(r.value)
    ensures c.JList? && k.JInt? && 0 <= k.i < |c.items| ==> r == Ok(c.items[k.i])
    ensures c.JList? && c.items == [] && (k.JInt? || k.JBool?) ==> r == Err(IndexError)
  {
    match c
    case JObj(es) =>
      if !Hashable(k) then Err(TypeError)
      else if !k.JStr? then Err(KeyError(k))
      else (match Find(es, k.s)
            case Some(v) => Ok(v)
            case None => Err(KeyError(k)))
    case JList(xs) =>
      (match AsIndex(k)
       case None => Err(TypeError)
       case Some(i) =>
         if -|xs| <= i < 0 then Ok(xs[i + |xs|])
         else if 0 <= i < |xs| then Ok(xs[i])
         else Err(IndexError))
    case JStr(s) =>
      (match AsIndex(k)
       case None => Err(TypeError)
       case Some(i) =>
         if -|s| <= i < 0 then Ok(JStr([s[i + |s|]]))
         else if 0 <= i < |s| then Ok(JStr([s[i]]))
         else Err(IndexError))
    case _ => Err(TypeError)
  }

  /** `c.get(k)`: only dicts have `get`. */
  function Get(c: Json, k: Json): (r: Result<Option<Json>>)
    ensures r.Ok? <==> c.JObj? && Hashable(k)
    ensures r.Ok? && r.value.Some? ==> k.JStr? && Find(c.entries, k.s) == r.value
  {
    match c
    case JObj(es) =>
      if !Hashable(k) then Err(TypeError)
      else if k.JStr? then Ok(Find(es, k.s))
      else Ok(None)
    case _ => Err(AttributeError)
  }

  /** What `for x in c` visits: list items, dict keys, the characters of a string. */
  function Iterate(c: Json): (r: Result<seq<Json>>)
    ensures c.JList? ==> r == Ok(c.items)
    ensures r.Ok? <==> c.JList? || c.JObj? || c.JStr?
  {
    match c
    case JList(xs) => Ok(xs)
    case JObj(es) => Ok(seq(|es|, i requires 0 <= i < |es| => JStr(es[i].0)))
    case JStr(s) => Ok(seq(|s|, i requires 0 <= i < |s| => JStr([s[i]])))
    case _ => Err(TypeError)
  }

  /** `len(c)`. */
  function Len(c: Json): (r: Result<nat>)
    ensures c.JList? ==> r == Ok(|c.items|)
    ensures c.JObj? ==> r == Ok(|c.entries|)
  {
    match c
    case JList(xs) => Ok(|xs|)
    case JObj(es) => Ok(|es|)
    case JStr(s) => Ok(|s|)
    case _ => Err(TypeError)
  }

  /** `sys.maxsize` on a 64-bit build: the largest length `len` can return. */
  const MaxSize: int := 0x7FFF_FFFF_FFFF_FFFF

  /** What `len(obj)` makes of the value a `__len__` method returned: an int
      (a bool is one), neither negative nor above `sys.maxsize`. */
  function LenOfDunder(v: Json): (r: Result<nat>)
    ensures r.Ok? <==> (v.JInt? && 0 <= v.i <= MaxSize) || v.JBool?
    ensures v.JInt? && 0 <= v.i <= MaxSize ==> r == Ok(v.i)
    ensures v.JInt? && v.i < 0 ==> r == Err(ValueError)
    ensures v.JInt? && v.i > MaxSize ==> r == Err(OverflowError)
    ensures r.Ok? ==> r.value <= MaxSize
  {
    match v
    case JInt(i) =>
      if i < 0 then Err(ValueError)
      else if i > MaxSize then Err(OverflowError)
      else Ok(i)
    case JBool(b) => Ok(if b then 1 else 0)
    case _ => Err(TypeError)
  }

  function DigitChar(d: nat): char
    requires d < 10
  {
    "0123456789"[d]
  }

  function Digits(n: nat): (s: string)
    ensures |s| > 0
    decreases n
  {
    if n < 10 then [DigitChar(n)] else Digits(n / 10) + [DigitChar(n % 10)]
  }

  function IntToString(i: int): string {
    if i < 0 then "-" + Digits(-i) else Digits(i)
  }

  function HexChar(d: nat): char
    requires d < 16
  {
    "0123456789abcdef"[d]
  }

  /** The quote `repr` puts around a string: double only when that avoids escaping. */
  function QuoteFor(s: string): char {
    if '\'' in s && '"' !in s then '"' else '\''
  }

  function EscapeChar(c: char, q: char): string {
    if c == q || c == '\\' then ['\\', c]
    else if c == '\t' then "\\t"
    else if c == '\n' then "\\n"
    else if c == '\r' then "\\r"
    else if c < ' ' || c as int == 0x7F then ['\\', 'x', HexChar(c as int / 16), HexChar(c as int % 16)]
    else [c]
  }

  function EscapeAll(s: string, q: char): string {
    if s == [] then [] else EscapeChar(s[0], q) + EscapeAll(s[1..], q)
  }

  function StrRepr(s: string): string {
    var q := QuoteFor(s);
    [q] + EscapeAll(s, q) + [q]
  }

  function Join(parts: seq<string>, sep: string): string {
    if parts == [] then ""
    else if |parts| == 1 then parts[0]
    else parts[0] + sep + Join(parts[1..], sep)
  }

  /** `repr(j)`. */
  function Repr(j: Json): string
    decreases j
  {
    match j
    case JNull => "None"
    case JBool(b) => if b then "True" else "False"
    case JInt(i) => IntToString(i)
    case JStr(s) => StrRepr(s)
    case JList(xs) =>
      "[" + Join(seq(|xs|, i requires 0 <= i < |xs| => Repr(xs[i])), ", ") + "]"
    case JObj(es) =>
      "{" + Join(seq(|es|, i requires 0 <= i < |es| => StrRepr(es[i].0) + ": " + Repr(es[i].1)), ", ") + "}"
  }

  /** `str(j)`: a string is itself, everything else its repr. */
  function Str(j: Json): (s: string)
    ensures j.JStr? ==> s == j.s
  {
    if j.JStr? then j.s else Repr(j)
  }

  /** The key `json.dumps` writes for a dict key. */
  function JsonKey(k: Json): string
    requires Hashable(k)
  {
    match k
    case JNull => "null"
    case JBool(b) => if b then "true" else "false"
    case JInt(i) => IntToString(i)
    case JStr(s) => s
  }
}
