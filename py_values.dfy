/** The dynamically typed values that reach the evaluator: groundtruth
    questions loaded from JSON, DataFrame cells, tuple fields and metadata
    dictionaries returned by the vector store. */
module PyValues {
  import opened Wrappers
  import opened PyText

  /** A Python value. A `float` is kept as its `repr` text (`"0.5"`, `"nan"`,
      `"-0.0"`), which fixes both how it prints and how it tests. A `dict`
      keeps its insertion order as an association list. Any other object is
      known only by its `str()` text and by whether `float()` accepts it. */
  datatype Value =
    | VNone
    | VBool(b: bool)
    | VInt(i: int)
    | VFloat(repr: string)  // the text `repr(x)` gives for the float x
    | VStr(s: string)
    | VList(items: seq<Value>)
    | VTuple(items: seq<Value>)
    | VDict(entries: seq<(string, Value)>)
    | VObject(text: string, floatable: bool)

  /** `isinstance(v, (list, tuple))`. */
  predicate IsSequence(v: Value) {
    v.VList? || v.VTuple?
  }

  /** `bool(v)`. */
  predicate Truthy(v: Value) {
    match v
    case VNone => false
    case VBool(b) => b
    case VInt(i) => i != 0
    case VFloat(r) => r != "0.0" && r != "-0.0"
    case VStr(s) => s != []
    case VList(items) => items != []
    case VTuple(items) => items != []
    case VDict(entries) => entries != []
    case VObject(_, _) => true
  }

  /** `pd.notna(v)` for a scalar cell: false for `None` and for NaN. */
  predicate NotNA(v: Value) {
    !v.VNone? && v != VFloat("nan")
  }

  function Join(parts: seq<string>, sep: string): string {
    if parts == [] then []
    else if |parts| == 1 then parts[0]
    else Join(parts[..|parts| - 1], sep) + sep + parts[|parts| - 1]
  }

  /** `repr(v)`, the text a value takes inside a container's `str()`. */
  function Repr(v: Value): string
    decreases v
  {
    match v
    case VNone => "None"
    case VBool(b) => if b then "True" else "False"
    case VInt(i) => IntText(i)
    case VFloat(r) => r
    case VStr(s) => StrRepr(s)
    case VList(items) =>
      "[" + Join(seq(|items|, k requires 0 <= k < |items| => Repr(items[k])), ", ") + "]"
    case VTuple(items) =>
      var inner := Join(seq(|items|, k requires 0 <= k < |items| => Repr(items[k])), ", ");
      if |items| == 1 then "(" + inner + ",)" else "(" + inner + ")"
    case VDict(entries) =>
      "{" + Join(seq(|entries|, k requires 0 <= k < |entries| =>
                     StrRepr(entries[k].0) + ": " + Repr(entries[k].1)), ", ") + "}"
    case VObject(text, _) => text
  }

  /** `str(v)`: a string is its own text, everything else prints as its repr. */
  function Str(v: Value): string
  {
    if v.VStr? then v.s else Repr(v)
  }

  /** `str(v).strip()`, the normal form of every identifier and question. */
  function StrStrip(v: Value): (t: string)
    ensures Stripped(t)
  {
    Strip(Str(v))
  }

  /** The magnitude from which `float(int)` raises `OverflowError`: integers
      that round to 2^1024 or beyond. */
  const FloatOverflow: int := Pow2(1024) - Pow2(970)

  function Pow2(n: nat): (p: nat)
    ensures p >= 1
  {
    if n == 0 then 1 else 2 * Pow2(n - 1)
  }

  /** `float(v)` returns instead of raising: numbers and booleans, text that
      reads as a float literal, and objects that define a conversion;
      `None`, lists, tuples and dicts raise `TypeError`. */
  predicate FloatConvertible(v: Value) {
    match v
    case VNone => false
    case VBool(_) => true
    case VInt(i) => -FloatOverflow < i < FloatOverflow
    case VFloat(_) => true
    case VStr(s) => FloatLiteral(s)
    case VList(_) => false
    case VTuple(_) => false
    case VDict(_) => false
    case VObject(_, floatable) => floatable
  }

  /** `try: d = float(v) except Exception: d = None`, keeping the raw value
      that converted. */
  function FloatOrNone(v: Value): Option<Value> {
    if FloatConvertible(v) then Some(v) else None
  }

  /** Which distance cells survive `try: float(...) except: None`: floats
      and booleans are kept as they are; `None` and containers give `None`. */
  lemma FloatOrNoneExamples()
    ensures FloatOrNone(VFloat("0.25")) == Some(VFloat("0.25"))
    ensures FloatOrNone(VFloat("nan")) == Some(VFloat("nan"))
    ensures FloatOrNone(VBool(true)) == Some(VBool(true))
    ensures FloatOrNone(VNone) == None
    ensures FloatOrNone(VList([VFloat("0.25")])) == None
    ensures FloatOrNone(VDict([("distance", VFloat("0.25"))])) == None
  {
  }

  /** Numeric text survives `try: float(...) except: None` unchanged, with
      surrounding whitespace, a sign before `inf`, or an exponent. Text that
      is not a number makes `float()` raise (`FloatRejectsBareExponent`,
      `FloatRejectsNoDigits`) and so gives `None`. */
  lemma FloatOrNoneReadsText()
    ensures FloatOrNone(VStr(" 1.5 ")) == Some(VStr(" 1.5 "))
    ensures FloatOrNone(VStr("-inf")) == Some(VStr("-inf"))
    ensures FloatOrNone(VStr("1e-3")) == Some(VStr("1e-3"))
  {
    FloatAcceptsPadded();
    FloatAcceptsInfinity();
    FloatAcceptsDecimal();
  }

  /** The length of `s[:k]` for a sequence of length `n`: a negative `k`
      counts from the end. */
  function PrefixLen(n: nat, k: int): (m: nat)
    ensures m <= n
  {
    if k >= 0 then (if k < n then k else n) else (if n + k > 0 then n + k else 0)
  }

  /** `s[:k]`. */
  function Take<T>(s: seq<T>, k: int): seq<T> {
    s[..PrefixLen(|s|, k)]
  }

  /** Python's slice rule for `s[:k]`: position `i` is kept exactly when it
      lies before `k`, or, for a negative `k`, before `len(s) + k`; what a
      negative `k` drops is exactly the last `-k` elements. */
  lemma TakeKeeps<T>(s: seq<T>, k: int)
    ensures forall i :: 0 <= i < |Take(s, k)| ==>
              Take(s, k)[i] == s[i] && (if k >= 0 then i < k else i < |s| + k)
    ensures forall i :: 0 <= i < |s| && (if k >= 0 then i < k else i < |s| + k) ==>
              i < |Take(s, k)| && Take(s, k)[i] == s[i]
    ensures k >= |s| ==> Take(s, k) == s
    ensures k < 0 && -k <= |s| ==> Take(s, k) + s[|s| + k..] == s
  {
    var t := Take(s, k);
    assert forall i :: 0 <= i < |t| ==> t[i] == s[i];
    if k < 0 && -k <= |s| {
      assert s == t + s[|s| + k..];
    }
  }

  /** `key in d and d[key]`, for a dict held as an association list: the
      value stored under the first entry with that key. */
  function Lookup(entries: seq<(string, Value)>, key: string): Option<Value> {
    if entries == [] then None
    else if entries[0].0 == key then Some(entries[0].1)
    else Lookup(entries[1..], key)
  }

  /** A key is found exactly when some entry holds it, and what is found is
      stored under it. */
  lemma {:induction false} LookupSpec(entries: seq<(string, Value)>, key: string)
    ensures Lookup(entries, key).None? <==> forall k :: 0 <= k < |entries| ==> entries[k].0 != key
    ensures Lookup(entries, key).Some? ==>
              exists k :: 0 <= k < |entries| && entries[k] == (key, Lookup(entries, key).value)
  {
    if entries != [] && entries[0].0 != key {
      LookupSpec(entries[1..], key);
      assert forall k :: 1 <= k < |entries| ==> entries[1..][k - 1] == entries[k];
      if Lookup(entries, key).Some? {
        var k :| 0 <= k < |entries[1..]| && entries[1..][k] == (key, Lookup(entries, key).value);
        assert entries[k + 1] == (key, Lookup(entries, key).value);
      }
    }
  }

  /** `key in d and d[key] is not None`. */
  predicate Usable(entries: seq<(string, Value)>, key: string) {
    var hit := Lookup(entries, key);
    hit.Some? && hit.value != VNone
  }

  /** The value of the first of `keys` that `d` holds with a value other than
      `None`: `for key in keys: if key in d and d[key] is not None: ...; break`. */
  function FirstPresent(entries: seq<(string, Value)>, keys: seq<string>): Option<Value> {
    if keys == [] then None
    else if Usable(entries, keys[0]) then Lookup(entries, keys[0])
    else FirstPresent(entries, keys[1..])
  }

  /** No key is usable exactly when nothing is found; otherwise the value found
      is the one stored under a usable key, and every earlier key is unusable. */
  lemma {:induction false} FirstPresentSpec(entries: seq<(string, Value)>, keys: seq<string>)
    ensures FirstPresent(entries, keys).None? <==> forall k :: 0 <= k < |keys| ==> !Usable(entries, keys[k])
    ensures FirstPresent(entries, keys).Some? ==>
              exists k :: 0 <= k < |keys| && Usable(entries, keys[k])
                          && FirstPresent(entries, keys).value == Lookup(entries, keys[k]).value
                          && forall j :: 0 <= j < k ==> !Usable(entries, keys[j])
  {
    if keys != [] && !Usable(entries, keys[0]) {
      FirstPresentSpec(entries, keys[1..]);
      assert forall k :: 1 <= k < |keys| ==> keys[1..][k - 1] == keys[k];
      if FirstPresent(entries, keys).Some? {
        var k :| 0 <= k < |keys[1..]| && Usable(entries, keys[1..][k])
                 && FirstPresent(entries, keys).value == Lookup(entries, keys[1..][k]).value
                 && forall j :: 0 <= j < k ==> !Usable(entries, keys[1..][j]);
        assert keys[1..][k] == keys[k + 1];
        assert forall j :: 0 <= j < k + 1 ==> !Usable(entries, keys[j]) by {
          forall j | 0 <= j < k + 1
            ensures !Usable(entries, keys[j])
          {
            if j > 0 {
              assert keys[1..][j - 1] == keys[j];
            }
          }
        }
      }
    }
  }
}
