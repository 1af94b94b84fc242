/**
  * The values `json.loads` produces, with the Python operations the agent code
  * applies to them: truthiness, `dict.get`, item assignment, iteration, and
  * the `str()` / `repr()` text that f-strings and `print` show.
  *
  * A JSON object is a Python dict, which keeps its keys in insertion order, so
  * an object is an ordered list of key/value pairs. A float is kept as the
  * text Python's `repr` gives it (for example "0.2"), which is all the code
  * ever does with one besides testing it for zero.
  */
module Json {
  import opened Wrappers
  import opened Text

  datatype Json =
    | JNull
    | JBool(b: bool)
    | JInt(i: int)
    | JFloat(repr: string)
    | JStr(s: string)
    | JArr(items: seq<Json>)
    | JObj(fields: seq<(string, Json)>)

  type Fields = seq<(string, Json)>

  /** Python's `bool(v)`. */
  predicate Truthy(v: Json)
  {
    match v
    case JNull => false
    case JBool(b) => b
    case JInt(i) => i != 0
    case JFloat(r) => r != "0.0" && r != "-0.0"
    case JStr(s) => s != []
    case JArr(a) => a != []
    case JObj(f) => f != []
  }

  /** Python's `v or d`. */
  function Or(v: Json, d: Json): (r: Json)
    ensures Truthy(v) ==> r == v
    ensures !Truthy(v) ==> r == d
  {
    if Truthy(v) then v else d
  }

  // ---------------------------------------------------------------------
  // Dict operations

  /** The keys of a dict, in insertion order. */
  function Keys(f: Fields): (ks: seq<string>)
    ensures |ks| == |f|
    ensures forall i :: 0 <= i < |f| ==> ks[i] == f[i].0
  {
    seq(|f|, i requires 0 <= i < |f| => f[i].0)
  }

  /** A Python dict never holds a key twice. */
  ghost predicate DistinctKeys(f: Fields)
  {
    forall i, j :: 0 <= i < j < |f| ==> f[i].0 != f[j].0
  }

  /** The position of key `k`, if present. */
  function IndexOf(f: Fields, k: string): (r: Option<nat>)
    ensures r.None? <==> forall i :: 0 <= i < |f| ==> f[i].0 != k
    ensures r.Some? ==> r.value < |f| && f[r.value].0 == k
    ensures r.Some? ==> forall i :: 0 <= i < r.value ==> f[i].0 != k
    decreases |f|
  {
    if f == [] then None
    else if f[0].0 == k then Some(0)
    else match IndexOf(f[1..], k)
      case None => None
      case Some(j) => Some(j + 1)
  }

  /** Python's `k in d`. */
  predicate HasKey(f: Fields, k: string)
  {
    IndexOf(f, k).Some?
  }

  /** Python's `d[k]`, defined when `k in d`. */
  function Lookup(f: Fields, k: string): Option<Json>
  {
    match IndexOf(f, k)
    case None => None
    case Some(i) => Some(f[i].1)
  }

  /** Python's `d.get(k, default)`. */
  function Get(f: Fields, k: string, default: Json): (r: Json)
    ensures HasKey(f, k) ==> Lookup(f, k) == Some(r)
    ensures !HasKey(f, k) ==> r == default
  {
    match Lookup(f, k)
    case None => default
    case Some(v) => v
  }

  /** Python's `d[k] = v`: an existing key keeps its place, a new key goes last. */
  function Put(f: Fields, k: string, v: Json): Fields
  {
    match IndexOf(f, k)
    case Some(i) => f[i := (k, v)]
    case None => f + [(k, v)]
  }

  /** What `d[k] = v` does to lookups, membership and key order. */
  lemma PutSpec(f: Fields, k: string, v: Json)
    ensures Lookup(Put(f, k, v), k) == Some(v)
    ensures forall k' :: k' != k ==> Lookup(Put(f, k, v), k') == Lookup(f, k')
    ensures forall k' :: HasKey(Put(f, k, v), k') <==> HasKey(f, k') || k' == k
    ensures DistinctKeys(f) ==> DistinctKeys(Put(f, k, v))
    ensures HasKey(f, k) ==> Keys(Put(f, k, v)) == Keys(f)
    ensures !HasKey(f, k) ==> Keys(Put(f, k, v)) == Keys(f) + [k]
  {
    var r := Put(f, k, v);
    match IndexOf(f, k)
    case Some(i) =>
      forall k' ensures IndexOf(r, k') == IndexOf(f, k') {
        IndexOfSameKeys(f, r, k');
      }
      assert Keys(r) == Keys(f);
    case None =>
      assert IndexOf(r, k) == Some(|f|) by { IndexOfAppend(f, k, v); }
      forall k' | k' != k ensures Lookup(r, k') == Lookup(f, k') {
        IndexOfAppendOther(f, k, v, k');
      }
      forall k' ensures HasKey(r, k') <==> HasKey(f, k') || k' == k {
        if k' != k { IndexOfAppendOther(f, k, v, k'); }
      }
      assert Keys(r) == Keys(f) + [k];
  }

  /** After `d[k] = v`, `d[k]` is `v`. */
  lemma PutReadsBack(f: Fields, k: string, v: Json)
    ensures Lookup(Put(f, k, v), k) == Some(v)
  {
    PutSpec(f, k, v);
  }

  /** After `d[k] = v`, every other key reads as before. */
  lemma PutKeepsOthers(f: Fields, k: string, v: Json)
    ensures forall k' :: k' != k ==> Lookup(Put(f, k, v), k') == Lookup(f, k')
  {
    PutSpec(f, k, v);
  }

  lemma {:induction false} IndexOfSameKeys(f: Fields, g: Fields, k: string)
    requires |f| == |g| && forall i :: 0 <= i < |f| ==> f[i].0 == g[i].0
    ensures IndexOf(f, k) == IndexOf(g, k)
    decreases |f|
  {
    if f != [] && f[0].0 != k {
      IndexOfSameKeys(f[1..], g[1..], k);
    }
  }

  lemma {:induction false} IndexOfAppend(f: Fields, k: string, v: Json)
    requires IndexOf(f, k).None?
    ensures IndexOf(f + [(k, v)], k) == Some(|f|)
    decreases |f|
  {
    if f != [] {
      assert (f + [(k, v)])[1..] == f[1..] + [(k, v)];
      IndexOfAppend(f[1..], k, v);
    }
  }

  lemma {:induction false} IndexOfAppendOther(f: Fields, k: string, v: Json, k': string)
    requires k' != k
    ensures IndexOf(f + [(k, v)], k') == IndexOf(f, k')
    decreases |f|
  {
    if f != [] {
      assert (f + [(k, v)])[1..] == f[1..] + [(k, v)];
      IndexOfAppendOther(f[1..], k, v, k');
    }
  }

  /** The first entry with key `k` is the one `d.get(k)` reads. */
  lemma GetFirst(f: Fields, i: nat, k: string, d: Json)
    requires i < |f| && f[i].0 == k
    requires forall j :: 0 <= j < i ==> f[j].0 != k
    ensures Get(f, k, d) == f[i].1
  {
    var r := IndexOf(f, k);
    assert r.Some?;
    assert !(r.value < i) && !(i < r.value);
  }

  /** Python's `type(v).__name__`. */
  function TypeName(v: Json): string
  {
    match v
    case JNull => "NoneType"
    case JBool(_) => "bool"
    case JInt(_) => "int"
    case JFloat(_) => "float"
    case JStr(_) => "str"
    case JArr(_) => "list"
    case JObj(_) => "dict"
  }

  /** The AttributeError message of calling a method that `v`'s type lacks. */
  function NoAttribute(v: Json, name: string): string
  {
    "'" + TypeName(v) + "' object has no attribute '" + name + "'"
  }

  // ---------------------------------------------------------------------
  // Iteration

  /**
    * What `for x in v` yields: the items of a list, the one-character strings
    * of a string, the keys of a dict; `None` where Python raises TypeError.
    */
  function Iterate(v: Json): (r: Option<seq<Json>>)
    ensures v.JArr? ==> r == Some(v.items)
    ensures v.JStr? ==> r.Some? && |r.value| == |v.s|
    ensures v.JObj? ==> r.Some? && |r.value| == |v.fields|
    ensures r.None? <==> !(v.JArr? || v.JStr? || v.JObj?)
  {
    match v
    case JArr(a) => Some(a)
    case JStr(s) => Some(seq(|s|, i requires 0 <= i < |s| => JStr([s[i]])))
    case JObj(f) => Some(seq(|f|, i requires 0 <= i < |f| => JStr(f[i].0)))
    case _ => None
  }

  // ---------------------------------------------------------------------
  // Rendering

  function HexDigit(d: nat): char
    requires d < 16
  {
    if d < 10 then ('0' as int + d) as char else ('a' as int + d - 10) as char
  }

  /** One character inside `repr(s)` quoted with `q`. */
  function EscapeChar(c: char, q: char): string
  {
    if c == '\\' then "\\\\"
    else if c == q then ['\\', q]
    else if c == '\n' then "\\n"
    else if c == '\r' then "\\r"
    else if c == '\t' then "\\t"
    else if c as int < 0x20 || c as int == 0x7f then
      ['\\', 'x', HexDigit(c as int / 16), HexDigit(c as int % 16)]
    else [c]
  }

  function EscapeAll(s: string, q: char): string
    decreases |s|
  {
    if s == [] then "" else EscapeChar(s[0], q) + EscapeAll(s[1..], q)
  }

  /**
    * Python's `repr(s)`: single quotes unless the text holds a single quote
    * and no double quote.
    */
  function ReprString(s: string): string
  {
    var q := if '\'' in s && '"' !in s then '"' else '\'';
    [q] + EscapeAll(s, q) + [q]
  }

  /** Python's `repr(v)`, as used for the items of a list or dict. */
  function Repr(v: Json): string
    decreases v, 1
  {
    match v
    case JStr(s) => ReprString(s)
    case _ => Str(v)
  }

  /** Python's `str(v)`, which `print` and f-strings show. */
  function Str(v: Json): string
    decreases v, 0
  {
    match v
    case JNull => "None"
    case JBool(b) => if b then "True" else "False"
    case JInt(i) => IntToString(i)
    case JFloat(r) => r
    case JStr(s) => s
    case JArr(a) =>
      "[" + Join(", ", seq(|a|, i requires 0 <= i < |a| => Repr(a[i]))) + "]"
    case JObj(f) =>
      "{" + Join(", ", seq(|f|, i requires 0 <= i < |f| => ReprString(f[i].0) + ": " + Repr(f[i].1))) + "}"
  }
}
