/**
 * Python values as the components see them: decoded JSON, the Decimal numbers the
 * users table stores, and the few Python operations the components apply to them
 * (`in`, `[]`, item assignment, `len`, iteration, truthiness, `json.dumps`'s reach).
 * A dict is an ordered list of entries, since Python dicts keep insertion order.
 */
module PyValue {
  import opened Wrappers

  /** A raised exception. `text` is what `str(e)` gives. */
  datatype Exc =
    | ClientError(code: string, message: string, text: string)
    | OtherError(name: string, text: string)

  const TYPE_ERROR: Exc := OtherError("TypeError", "unsupported operand type")
  const INVALID_OPERATION: Exc := OtherError("InvalidOperation", "[<class 'decimal.ConversionSyntax'>]")
  const ATTRIBUTE_ERROR: Exc := OtherError("AttributeError", "'NoneType' object has no attribute")
  const PARAM_VALIDATION_ERROR: Exc := OtherError("ParamValidationError", "Parameter validation failed")

  function KeyError(key: string): Exc {
    OtherError("KeyError", key)
  }

  datatype Value =
    | JNull
    | JBool(b: bool)
    | JInt(i: int)
    | JFloat(f: real)
    | JDecimal(d: real)
    | JStr(s: string)
    | JList(items: seq<Value>)
    | JDict(entries: seq<(string, Value)>)
    | Opaque(kind: string)   // a Python object that is not JSON data, such as an HTTP response

  /** The values `len` applies to: the ones `in` does not reject. */
  predicate Sized(v: Value) {
    v.JStr? || v.JList? || v.JDict?
  }

  predicate HasKey(entries: seq<(string, Value)>, key: string) {
    |entries| > 0 && (entries[0].0 == key || HasKey(entries[1..], key))
  }

  /** The value stored under `key` (the first entry with that key). */
  function Lookup(entries: seq<(string, Value)>, key: string): (v: Value)
    requires HasKey(entries, key)
    ensures (key, v) in entries
  {
    if entries[0].0 == key then entries[0].1 else Lookup(entries[1..], key)
  }

  /** `d[key] = v`: an existing entry keeps its place, a new key goes last. */
  function Store(entries: seq<(string, Value)>, key: string, v: Value): (r: seq<(string, Value)>)
    ensures HasKey(r, key) && Lookup(r, key) == v
    ensures HasKey(entries, key) ==> |r| == |entries|
    ensures !HasKey(entries, key) ==> r == entries + [(key, v)]
  {
    if entries == [] then [(key, v)]
    else if entries[0].0 == key then [(key, v)] + entries[1..]
    else
      var rest := Store(entries[1..], key, v);
      assert ([entries[0]] + rest)[1..] == rest;
      assert !HasKey(entries[1..], key) ==> entries == [entries[0]] + entries[1..];
      [entries[0]] + rest
  }

  /** Storing under one key leaves every other key where it was, with its value. */
  lemma {:induction false} StoreKeepsOthers(entries: seq<(string, Value)>, key: string, v: Value, k: string)
    requires k != key
    ensures HasKey(Store(entries, key, v), k) <==> HasKey(entries, k)
    ensures HasKey(entries, k) ==> Lookup(Store(entries, key, v), k) == Lookup(entries, k)
  {
    var r := Store(entries, key, v);
    if entries == [] {
      assert r == [(key, v)];
      assert r[1..] == [];
    } else if entries[0].0 == key {
      assert r[1..] == entries[1..];
    } else {
      StoreKeepsOthers(entries[1..], key, v, k);
      assert r[1..] == Store(entries[1..], key, v);
    }
  }

  /** Python's `t in s` on strings. */
  predicate IsSubstring(t: string, s: string) {
    |t| <= |s| && (s[..|t|] == t || IsSubstring(t, s[1..]))
  }

  /** Python's `key in container` for a string key. */
  function Contains(container: Value, key: string): (r: Result<bool, Exc>)
    ensures r.Success? <==> Sized(container)
    ensures container.JDict? ==> r == Success(HasKey(container.entries, key))
    ensures container.JList? ==> r == Success(JStr(key) in container.items)
  {
    match container
    case JDict(es) => Success(HasKey(es, key))
    case JList(xs) => Success(JStr(key) in xs)
    case JStr(s) => Success(IsSubstring(key, s))
    case _ => Failure(TYPE_ERROR)
  }

  /** Python's `container[key]` for a string key. */
  function GetItem(container: Value, key: string): (r: Result<Value, Exc>)
    ensures r.Success? <==> container.JDict? && HasKey(container.entries, key)
    ensures r.Success? ==> r.value == Lookup(container.entries, key)
  {
    match container
    case JDict(es) => if HasKey(es, key) then Success(Lookup(es, key)) else Failure(KeyError(key))
    case _ => Failure(TYPE_ERROR)
  }

  /** Python's `len`, on the values that have one. */
  function Len(v: Value): (n: nat)
    requires Sized(v)
  {
    match v
    case JStr(s) => |s|
    case JList(xs) => |xs|
    case JDict(es) => |es|
  }

  /** What `for e in v` visits: list items, dict keys, or one-character strings. */
  function Iter(v: Value): (r: Result<seq<Value>, Exc>)
    ensures r.Success? <==> Sized(v)
    ensures r.Success? ==> |r.value| == Len(v)
    ensures v.JList? ==> r == Success(v.items)
  {
    match v
    case JList(xs) => Success(xs)
    case JDict(es) => Success(seq(|es|, i requires 0 <= i < |es| => JStr(es[i].0)))
    case JStr(s) => Success(seq(|s|, i requires 0 <= i < |s| => JStr([s[i]])))
    case _ => Failure(TYPE_ERROR)
  }

  /** Python truthiness. */
  predicate Truthy(v: Value) {
    match v
    case JNull => false
    case JBool(b) => b
    case JInt(i) => i != 0
    case JFloat(f) => f != 0.0
    case JDecimal(d) => d != 0.0
    case JStr(s) => s != ""
    case JList(xs) => xs != []
    case JDict(es) => es != []
    case Opaque(_) => true
  }

  /** The values `json.dumps` accepts: no Decimal and no non-JSON object anywhere inside. */
  predicate Serializable(v: Value) {
    match v
    case JDecimal(_) => false
    case Opaque(_) => false
    case JList(xs) => forall i :: 0 <= i < |xs| ==> Serializable(xs[i])
    case JDict(es) => forall i :: 0 <= i < |es| ==> Serializable(es[i].1)
    case _ => true
  }

  /** Decimal digits of a non-negative integer. */
  function NatToString(n: nat): (s: string)
    ensures |s| >= 1
    ensures forall i :: 0 <= i < |s| ==> '0' <= s[i] <= '9'
  {
    if n < 10 then [DigitChar(n)] else NatToString(n / 10) + [DigitChar(n % 10)]
  }

  function DigitChar(d: nat): (c: char)
    requires d < 10
    ensures '0' <= c <= '9'
  {
    "0123456789"[d]
  }

  /** Python's `str` of an integer, as the f-strings format it. */
  function IntToString(i: int): string {
    if i < 0 then "-" + NatToString(-i) else NatToString(i)
  }
}
