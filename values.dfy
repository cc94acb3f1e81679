/**
 * The dynamically typed Python values that flow through the SDK: decoded
 * JSON bodies, keyword arguments, recipient dicts and CSV cells. Floats are
 * not part of this model.
 */
module Values {
  import opened Wrappers
  import opened Text
  import opened Dicts
  import opened Addresses

  datatype Value =
    | VNone
    | VBool(b: bool)
    | VInt(i: int)
    | VStr(s: string)
    | VList(items: seq<Value>)
    | VDict(entries: Dict<Value>)
    | VRecipient(recipient: AddressRecord)
    | VSender(sender: AddressRecord)

  /** The built-in exceptions the modelled code can raise. */
  datatype PyError =
    | ValueError(msg: string)
    | TypeError(msg: string)
    | AttributeError(msg: string)
    | IndexError(msg: string)

  /** Python truth value (`bool(v)`). */
  predicate Truthy(v: Value) {
    match v
    case VNone => false
    case VBool(b) => b
    case VInt(i) => i != 0
    case VStr(s) => s != ""
    case VList(items) => items != []
    case VDict(entries) => entries != []
    case _ => true
  }

  /** `isinstance(v, int)`, which `bool` values also satisfy. */
  predicate IsInt(v: Value) {
    v.VInt? || v.VBool?
  }

  /** The integer an `int`-instance stands for. */
  function IntOf(v: Value): int
    requires IsInt(v)
  {
    if v.VInt? then v.i else if v.b then 1 else 0
  }

  /** `str(True)` / `str(False)` */
  function BoolStr(b: bool): string {
    if b then "True" else "False"
  }

  /**
   * `str(v)`. Strings are themselves; containers print as their `repr`, with
   * strings inside them between single quotes.
   */
  function Str(v: Value): string {
    match v
    case VStr(s) => s
    case _ => Repr(v)
  }

  /** `repr(v)` */
  function Repr(v: Value): string
    decreases v, 1
  {
    match v
    case VNone => "None"
    case VBool(b) => BoolStr(b)
    case VInt(i) => IntToString(i)
    case VStr(s) => "'" + s + "'"
    case VList(items) => "[" + ReprItems(v, items) + "]"
    case VDict(entries) => "{" + ReprEntries(v, entries) + "}"
    case VRecipient(a) => "Recipient(...)"
    case VSender(a) => "Sender(...)"
  }

  function ReprItems(parent: Value, items: seq<Value>): string
    requires forall x :: x in items ==> x < parent
    decreases parent, 0, |items|
  {
    if items == [] then ""
    else
      assert items[0] in items;
      assert forall x :: x in items[1..] ==> x in items;
      if |items| == 1 then Repr(items[0])
    else Repr(items[0]) + ", " + ReprItems(parent, items[1..])
  }

  function ReprEntries(parent: Value, entries: Dict<Value>): string
    requires forall e :: e in entries ==> e.1 < parent
    decreases parent, 0, |entries|
  {
    if entries == [] then ""
    else
      assert entries[0] in entries;
      assert forall e :: e in entries[1..] ==> e in entries;
      var first := "'" + entries[0].0 + "': " + Repr(entries[0].1);
      if |entries| == 1 then first else first + ", " + ReprEntries(parent, entries[1..])
  }

  /**
   * `int(v)`: integers are themselves, booleans 0 or 1, text is parsed
   * (surrounding whitespace, a sign and digit-group underscores allowed),
   * anything else is rejected.
   */
  function PyInt(v: Value): (r: Result<int, PyError>)
    ensures IsInt(v) ==> r == Success(IntOf(v))
    ensures v.VStr? ==> (r.Success? <==> ParseInt(v.s).Some?)
    ensures v.VStr? && r.Success? ==> r.value == ParseInt(v.s).value
    ensures !IsInt(v) && !v.VStr? ==> r.Failure? && r.error.TypeError?
  {
    match v
    case VInt(i) => Success(i)
    case VBool(b) => Success(if b then 1 else 0)
    case VStr(s) => IntOfText(s)
    case _ => Failure(TypeError(IntArgumentMessage))
  }

  const InvalidLiteralMessage := "invalid literal for int() with base 10: '"
  const IntArgumentMessage := "int() argument must be a string, a bytes-like object or a real number"

  /** `int(s)` for a `str`: a `ValueError` unless `s` is a decimal literal. */
  function IntOfText(s: string): (r: Result<int, PyError>)
    ensures r.Success? <==> ParseInt(s).Some?
    ensures r.Success? ==> r.value == ParseInt(s).value
    ensures r.Failure? ==> r.error.ValueError?
  {
    match ParseInt(s)
    case Some(i) => Success(i)
    case None => Failure(ValueError(InvalidLiteralMessage + s + "'"))
  }

  /** `int(str(i)) == i` for every integer. */
  lemma PyIntOfStr(i: int)
    ensures PyInt(VStr(Str(VInt(i)))) == Success(i)
  {
    IntRoundTrip(i);
  }

  /** A dict of text values as a dict of `Value`s. */
  function StrValues(d: Dict<string>): (r: Dict<Value>)
    ensures |r| == |d|
    ensures forall i :: 0 <= i < |d| ==> r[i] == (d[i].0, VStr(d[i].1))
    ensures UniqueKeys(d) ==> UniqueKeys(r)
  {
    if d == [] then [] else [(d[0].0, VStr(d[0].1))] + StrValues(d[1..])
  }

  /** Lookups in `StrValues(d)` are lookups in `d`, wrapped. */
  lemma GetStrValues(d: Dict<string>, k: string)
    ensures Get(StrValues(d), k) == if HasKey(d, k) then Some(VStr(Get(d, k).value)) else None
  {
    var r := StrValues(d);
    var f := Find(d, k);
    if f < |d| {
      GetFirst(r, f, k);
    } else {
      GetMissing(r, k);
    }
  }
}
