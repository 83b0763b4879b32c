/**
 * JSON-like Python values (what `json.load` produces and what the message lists,
 * options and session metadata hold), the Python dict operations used on them,
 * Python's `str()`/`repr()` of them, and the Python exceptions that operations on
 * them raise.
 */
module JsonValue {
  import opened Wrappers
  import opened PyStrings

  /**
   * The Python values the model handles. A dict is an insertion-ordered list of entries, as
   * Python dicts are. There is no float and no tuple case: such values are outside the model.
   */
  datatype Json =
    | JNull
    | JBool(b: bool)
    | JInt(i: int)
    | JStr(s: string)
    | JList(items: seq<Json>)
    | JObj(fields: seq<(string, Json)>)

  type Fields = seq<(string, Json)>

  // ---------------------------------------------------------------- dicts

  /** Position of key `k`. */
  function KeyIndex<V>(d: seq<(string, V)>, k: string): (r: Option<nat>)
    ensures r.Some? ==> r.value < |d| && d[r.value].0 == k && forall i :: 0 <= i < r.value ==> d[i].0 != k
    ensures r.None? <==> forall i :: 0 <= i < |d| ==> d[i].0 != k
    decreases |d|
  {
    if |d| == 0 then None
    else if d[0].0 == k then Some(0)
    else
      match KeyIndex(d[1..], k)
      case None => None
      case Some(i) => Some(i + 1)
  }

  lemma KeyIndexUnique<V>(d: seq<(string, V)>, k: string, j: nat)
    requires j < |d| && d[j].0 == k && forall i :: 0 <= i < j ==> d[i].0 != k
    ensures KeyIndex(d, k) == Some(j)
  {
  }

  /** `k in d` */
  predicate HasKey<V>(d: seq<(string, V)>, k: string) {
    KeyIndex(d, k).Some?
  }

  /** `d.get(k)` */
  function Get<V>(d: seq<(string, V)>, k: string): Option<V> {
    match KeyIndex(d, k)
    case None => None
    case Some(i) => Some(d[i].1)
  }

  /** A Python dict never holds a key twice. */
  predicate DistinctKeys<V>(d: seq<(string, V)>) {
    forall i, j :: 0 <= i < j < |d| ==> d[i].0 != d[j].0
  }

  /** Entry `i` of a dict extends the entries before it with a key they lack. */
  lemma TakeNewKey<V>(d: seq<(string, V)>, i: nat)
    requires DistinctKeys(d) && i < |d|
    ensures !HasKey(d[..i], d[i].0) && d[..i] + [d[i]] == d[..i + 1]
  {
    assert forall k :: 0 <= k < i ==> d[..i][k] == d[k];
  }

  lemma GetAt<V>(d: seq<(string, V)>, i: nat)
    requires DistinctKeys(d) && i < |d|
    ensures Get(d, d[i].0) == Some(d[i].1)
  {
    KeyIndexUnique(d, d[i].0, i);
  }

  /** Two entry lists with the same key at every position find every key at the same place. */
  lemma KeyIndexSameKeys<V>(d: seq<(string, V)>, r: seq<(string, V)>, k: string)
    requires |d| == |r| && forall i :: 0 <= i < |d| ==> r[i].0 == d[i].0
    ensures KeyIndex(r, k) == KeyIndex(d, k)
  {
    if KeyIndex(d, k).Some? {
      KeyIndexUnique(r, k, KeyIndex(d, k).value);
    }
  }

  lemma KeyIndexAppend<V>(d: seq<(string, V)>, k: string, v: V, k': string)
    requires k' != k
    ensures KeyIndex(d + [(k, v)], k') == KeyIndex(d, k')
  {
    if KeyIndex(d, k').Some? {
      KeyIndexUnique(d + [(k, v)], k', KeyIndex(d, k').value);
    }
  }

  /** `d[k] = v`: an existing key keeps its position and a new key goes last. */
  function Put<V>(d: seq<(string, V)>, k: string, v: V): (r: seq<(string, V)>)
    ensures Get(r, k) == Some(v)
    ensures forall k' :: k' != k ==> Get(r, k') == Get(d, k')
    ensures HasKey(d, k) ==> |r| == |d| && forall i :: 0 <= i < |d| ==> r[i].0 == d[i].0
    ensures !HasKey(d, k) ==> r == d + [(k, v)]
    ensures DistinctKeys(d) ==> DistinctKeys(r)
  {
    match KeyIndex(d, k)
    case None =>
      KeyIndexUnique(d + [(k, v)], k, |d|);
      assert forall k' :: k' != k ==> KeyIndex(d + [(k, v)], k') == KeyIndex(d, k') by {
        forall k' | k' != k { KeyIndexAppend(d, k, v, k'); }
      }
      d + [(k, v)]
    case Some(i) =>
      KeyIndexUnique(d[i := (k, v)], k, i);
      assert forall k' :: KeyIndex(d[i := (k, v)], k') == KeyIndex(d, k') by {
        forall k' { KeyIndexSameKeys(d, d[i := (k, v)], k'); }
      }
      d[i := (k, v)]
  }

  lemma RemoveGet<V>(d: seq<(string, V)>, i: nat, k': string)
    requires i < |d| && k' != d[i].0
    ensures Get(d[..i] + d[i + 1..], k') == Get(d, k')
  {
    var r := d[..i] + d[i + 1..];
    assert forall j :: 0 <= j < i ==> r[j] == d[j];
    assert forall j :: i <= j < |r| ==> r[j] == d[j + 1];
    match KeyIndex(d, k')
    case None =>
    case Some(j) =>
      if j < i {
        KeyIndexUnique(r, k', j);
      } else {
        KeyIndexUnique(r, k', j - 1);
      }
  }

  /** `del d[k]` when `k` is present; nothing otherwise. */
  function Remove<V>(d: seq<(string, V)>, k: string): (r: seq<(string, V)>)
    ensures !HasKey(d, k) ==> r == d
    ensures DistinctKeys(d) ==> DistinctKeys(r) && !HasKey(r, k)
    ensures forall k' :: k' != k ==> Get(r, k') == Get(d, k')
  {
    match KeyIndex(d, k)
    case None => d
    case Some(i) =>
      var r := d[..i] + d[i + 1..];
      assert forall j :: 0 <= j < i ==> r[j] == d[j];
      assert forall j :: i <= j < |r| ==> r[j] == d[j + 1];
      assert forall k' :: k' != k ==> Get(r, k') == Get(d, k') by {
        forall k' | k' != k { RemoveGet(d, i, k'); }
      }
      r
  }

  /** `{**a, **b}`: the entries of `a`, then those of `b` assigned over them in order. */
  function Update<V>(a: seq<(string, V)>, b: seq<(string, V)>): (r: seq<(string, V)>)
    ensures DistinctKeys(a) ==> DistinctKeys(r)
    decreases |b|
  {
    if |b| == 0 then a else Update(Put(a, b[0].0, b[0].1), b[1..])
  }

  /** In `{**a, **b}` a key of `b` takes `b`'s value and every other key keeps `a`'s. */
  lemma {:induction false} UpdateGet<V>(a: seq<(string, V)>, b: seq<(string, V)>, k: string)
    requires DistinctKeys(b)
    ensures Get(Update(a, b), k) == if HasKey(b, k) then Get(b, k) else Get(a, k)
    decreases |b|
  {
    if |b| > 0 {
      var a' := Put(a, b[0].0, b[0].1);
      assert DistinctKeys(b[1..]);
      UpdateGet(a', b[1..], k);
      if b[0].0 == k {
        assert !HasKey(b[1..], k);
        KeyIndexUnique(b, k, 0);
      } else {
        match KeyIndex(b[1..], k)
        case None =>
        case Some(j) => KeyIndexUnique(b, k, j + 1);
      }
    }
  }

  // ---------------------------------------------------------------- Python semantics

  /** Python truthiness. */
  predicate Truthy(j: Json) {
    match j
    case JNull => false
    case JBool(b) => b
    case JInt(i) => i != 0
    case JStr(s) => s != ""
    case JList(items) => items != []
    case JObj(fields) => fields != []
  }

  /** `type(j).__name__` */
  function TypeName(j: Json): (r: string) {
    match j
    case JNull => "NoneType"
    case JBool(_) => "bool"
    case JInt(_) => "int"
    case JStr(_) => "str"
    case JList(_) => "list"
    case JObj(_) => "dict"
  }

  /** The Python exceptions the modelled code can raise. */
  datatype PyError =
    | KeyError(key: string)
    | IndexError
    | TypeError(msg: string)
    | AttributeError(msg: string)
    | ValueError(msg: string)
    | StopIteration
    | RaisedError(msg: string) // `raise Exception(msg)`, or an exception out of a foreign helper

  /** `str(e)` */
  function ErrorText(e: PyError): (r: string) {
    match e
    case KeyError(k) => StrRepr(k)
    case IndexError => "list index out of range"
    case TypeError(m) => m
    case AttributeError(m) => m
    case ValueError(m) => m
    case StopIteration => ""
    case RaisedError(m) => m
  }

  /** `j[key]` with a string key: only a dict holding the key succeeds. */
  function Subscript(j: Json, key: string): (r: Result<Json, PyError>)
    ensures r.Ok? <==> j.JObj? && HasKey(j.fields, key)
    ensures r.Ok? ==> Get(j.fields, key) == Some(r.value)
    ensures j.JObj? && !HasKey(j.fields, key) ==> r == Err(KeyError(key))
  {
    match j
    case JObj(fields) =>
      (match Get(fields, key)
       case Some(v) => Ok(v)
       case None => Err(KeyError(key)))
    case JStr(_) => Err(TypeError("string indices must be integers, not 'str'"))
    case JList(_) => Err(TypeError("list indices must be integers or slices, not str"))
    case _ => Err(TypeError("'" + TypeName(j) + "' object is not subscriptable"))
  }

  /** `j.get(key)`: None for a missing key; only a dict has `.get`. */
  function DictGet(j: Json, key: string): (r: Result<Json, PyError>)
    ensures r.Ok? <==> j.JObj?
    ensures r.Ok? ==> r.value == Get(j.fields, key).GetOr(JNull)
  {
    match j
    case JObj(fields) => Ok(Get(fields, key).GetOr(JNull))
    case _ => Err(AttributeError("'" + TypeName(j) + "' object has no attribute 'get'"))
  }

  /** The string behind a call of the string method `name` on `j`. */
  function AsString(j: Json, name: string): (r: Result<string, PyError>)
    ensures r.Ok? <==> j.JStr?
    ensures r.Ok? ==> r.value == j.s
  {
    match j
    case JStr(s) => Ok(s)
    case _ => Err(AttributeError("'" + TypeName(j) + "' object has no attribute '" + name + "'"))
  }

  /** `for x in j`: a list gives its items, a string its characters, a dict its keys. */
  function Iterate(j: Json): (r: Result<seq<Json>, PyError>)
    ensures r.Ok? <==> j.JList? || j.JStr? || j.JObj?
    ensures j.JList? ==> r == Ok(j.items)
  {
    match j
    case JList(items) => Ok(items)
    case JStr(s) => Ok(seq(|s|, i requires 0 <= i < |s| => JStr([s[i]])))
    case JObj(fields) => Ok(seq(|fields|, i requires 0 <= i < |fields| => JStr(fields[i].0)))
    case _ => Err(TypeError("'" + TypeName(j) + "' object is not iterable"))
  }

  // ---------------------------------------------------------------- str() and repr()

  /** A hexadecimal digit, in lower case as `repr` writes it. */
  function HexDigit(n: nat): (r: char)
    requires n < 16
    ensures ('0' <= r <= '9') || ('a' <= r <= 'f')
  {
    "0123456789abcdef"[n]
  }

  /**
   * One character of a string literal body, quoted with `q`: the backslash, the quote,
   * tab, newline and carriage return by name, the other ASCII control characters and
   * DEL as `\xNN`, anything else as itself.
   */
  function EscapeChar(c: char, q: char): (r: string)
    ensures |r| >= 1 && '\n' !in r
    ensures c as int < 128 ==> forall k :: 0 <= k < |r| ==> ' ' <= r[k] <= '~'
    ensures r == [c] <==> c != '\\' && c != q && ' ' <= c && c != '\U{7F}'
  {
    if c == '\\' then "\\\\"
    else if c == '\n' then "\\n"
    else if c == '\r' then "\\r"
    else if c == '\t' then "\\t"
    else if c < ' ' || c == '\U{7F}' then ['\\', 'x', HexDigit(c as int / 16), HexDigit(c as int % 16)]
    else if c == q then ['\\', q]
    else [c]
  }

  function Escape(s: string, q: char): (r: string)
    ensures '\n' !in r
    decreases |s|
  {
    if |s| == 0 then "" else EscapeChar(s[0], q) + Escape(s[1..], q)
  }

  /** `repr(s)`: double quotes when the string holds a single quote and no double quote. */
  function StrRepr(s: string): (r: string)
    ensures '\n' !in r
  {
    var q := if '\'' in s && '"' !in s then '"' else '\'';
    [q] + Escape(s, q) + [q]
  }

  lemma {:induction false} JoinWithoutNewline(parts: seq<string>, sep: string)
    requires '\n' !in sep
    requires forall i :: 0 <= i < |parts| ==> '\n' !in parts[i]
    ensures '\n' !in JoinWith(parts, sep)
    decreases |parts|
  {
    if |parts| > 1 {
      JoinWithoutNewline(parts[1..], sep);
    }
  }

  /** `repr(j)` */
  function Repr(j: Json): (r: string)
    ensures '\n' !in r
    decreases j
  {
    match j
    case JNull => "None"
    case JBool(b) => if b then "True" else "False"
    case JInt(i) => IntToString(i)
    case JStr(s) => StrRepr(s)
    case JList(items) =>
      var parts := seq(|items|, k requires 0 <= k < |items| => Repr(items[k]));
      JoinWithoutNewline(parts, ", ");
      "[" + JoinWith(parts, ", ") + "]"
    case JObj(fields) =>
      var parts := seq(|fields|, k requires 0 <= k < |fields| => StrRepr(fields[k].0) + ": " + Repr(fields[k].1));
      JoinWithoutNewline(parts, ", ");
      "{" + JoinWith(parts, ", ") + "}"
  }

  /** `str(j)` (and an f-string replacement field `{j}`): a string is itself, anything else its repr. */
  function Str(j: Json): (r: string)
    ensures '\n' in r ==> j.JStr?
    ensures r == "" <==> j == JStr("")
  {
    match j
    case JStr(s) => s
    case JInt(i) => assert |IntToString(i)| > 0; Repr(j)
    case _ => Repr(j)
  }
}
