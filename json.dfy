/**
 * A decoded JSON (or Ruby) value. Ruby's string and symbol keys are one key
 * space here; an object is an association list in insertion order, and a
 * lookup takes the first binding of a key.
 */
module JsonValues {
  import opened Text

  datatype Json =
    | JNull
    | JBool(b: bool)
    | JInt(n: int)
    | JStr(s: string)
    | JArr(elems: seq<Json>)
    | JObj(fields: seq<(string, Json)>)

  type Fields = seq<(string, Json)>

  /** What the HTTP client reports for one request: status, decoded body, and whether the status is 2xx. */
  datatype HttpReply = HttpReply(status: int, body: Json, success: bool)

  /** Ruby truthiness: only nil and false are falsy. */
  predicate Truthy(v: Json) {
    !v.JNull? && v != JBool(false)
  }

  /** Ruby's `a || b`. */
  function Or(a: Json, b: Json): Json {
    if Truthy(a) then a else b
  }

  /** `h[k]`: the first binding of `k`, nil when there is none. */
  function Lookup(fs: Fields, k: string): Json {
    if fs == [] then JNull
    else if fs[0].0 == k then fs[0].1
    else Lookup(fs[1..], k)
  }

  /**
   * `h["k"] || h[:k]` on a hash with string keys, as the JSON and YAML
   * parsers deliver them: a `false` value falls through to the symbol
   * lookup, which finds nothing.
   */
  function Get(fs: Fields, k: string): Json {
    Or(Lookup(fs, k), JNull)
  }

  /** The binding at index `i` is the first of its key. */
  lemma {:induction false} LookupAt(fs: Fields, i: nat, k: string)
    requires i < |fs| && fs[i].0 == k
    requires forall j :: 0 <= j < i ==> fs[j].0 != k
    ensures Lookup(fs, k) == fs[i].1
  {
    if i > 0 {
      LookupAt(fs[1..], i - 1, k);
    }
  }

  /** A key bound to a non-nil value in `xs` reads the same once more pairs follow. */
  lemma {:induction false} LookupPrefix(xs: Fields, ys: Fields, k: string)
    requires Lookup(xs, k) != JNull
    ensures Lookup(xs + ys, k) == Lookup(xs, k)
  {
    if xs[0].0 != k {
      LookupPrefix(xs[1..], ys, k);
      assert (xs + ys)[1..] == xs[1..] + ys;
    }
  }

  /** `h.key?(k)`. */
  predicate HasKey(fs: Fields, k: string) {
    exists i :: 0 <= i < |fs| && fs[i].0 == k
  }

  /** The object as a map, keeping the first binding of every key. */
  function ToMap(fs: Fields): map<string, Json> {
    if fs == [] then map[] else ToMap(fs[1..])[fs[0].0 := fs[0].1]
  }

  /** The map view agrees with `key?` and with `[]`. */
  lemma {:induction false} ToMapAgrees(fs: Fields, k: string)
    ensures k in ToMap(fs) <==> HasKey(fs, k)
    ensures k in ToMap(fs) ==> ToMap(fs)[k] == Lookup(fs, k)
  {
    if fs != [] {
      ToMapAgrees(fs[1..], k);
      if HasKey(fs[1..], k) {
        var i :| 0 <= i < |fs[1..]| && fs[1..][i].0 == k;
        assert fs[i + 1].0 == k;
      }
      if HasKey(fs, k) && fs[0].0 != k {
        var i :| 0 <= i < |fs| && fs[i].0 == k;
        assert fs[1..][i - 1].0 == k;
      }
    }
  }

  /** `Kernel#Array`: nil to [], an array to itself, a hash to its pairs, anything else to [v]. */
  function ArrayCoerce(v: Json): (r: seq<Json>)
    ensures v.JArr? ==> r == v.elems
    ensures v.JNull? ==> r == []
    ensures v.JObj? ==> |r| == |v.fields| && forall i :: 0 <= i < |r| ==> r[i] == JArr([JStr(v.fields[i].0), v.fields[i].1])
    ensures !v.JArr? && !v.JNull? && !v.JObj? ==> r == [v]
  {
    match v
    case JNull => []
    case JArr(xs) => xs
    case JObj(fs) => seq(|fs|, i requires 0 <= i < |fs| => JArr([JStr(fs[i].0), fs[i].1]))
    case _ => [v]
  }

  /** Rails' `blank?`. */
  predicate Blank(v: Json) {
    match v
    case JNull => true
    case JBool(b) => !b
    case JInt(_) => false
    case JStr(s) => BlankString(s)
    case JArr(xs) => xs == []
    case JObj(fs) => fs == []
  }

  function Join(parts: seq<string>, sep: string): string {
    if parts == [] then "" else if |parts| == 1 then parts[0] else parts[0] + sep + Join(parts[1..], sep)
  }

  /** `inspect`, without escaping inside string literals. */
  function Inspect(v: Json): string {
    match v
    case JNull => "nil"
    case JBool(b) => if b then "true" else "false"
    case JInt(n) => IntToString(n)
    case JStr(s) => "\"" + s + "\""
    case JArr(xs) => "[" + Join(seq(|xs|, i requires 0 <= i < |xs| => Inspect(xs[i])), ", ") + "]"
    case JObj(fs) =>
      "{" + Join(seq(|fs|, i requires 0 <= i < |fs| => "\"" + fs[i].0 + "\"=>" + Inspect(fs[i].1)), ", ") + "}"
  }

  /** `to_s`. */
  function ToS(v: Json): string {
    match v
    case JNull => ""
    case JStr(s) => s
    case _ => Inspect(v)
  }

  /** `to_i` for nil, integers and strings; the values on which Ruby raises give 0. */
  function ToI(v: Json): int {
    match v
    case JInt(n) => n
    case JStr(s) => StrToI(s)
    case _ => 0
  }

  /** `Hash#compact_blank`: the pairs whose value is not blank, in order. */
  function CompactBlank(fs: Fields): (r: Fields)
    ensures forall p :: p in r <==> p in fs && !Blank(p.1)
  {
    if fs == [] then []
    else (if Blank(fs[0].1) then [] else [fs[0]]) + CompactBlank(fs[1..])
  }

  /** `Hash#except(*keys)`. */
  function Except(fs: Fields, keys: set<string>): (r: Fields)
    ensures forall p :: p in r <==> p in fs && p.0 !in keys
  {
    if fs == [] then []
    else (if fs[0].0 in keys then [] else [fs[0]]) + Except(fs[1..], keys)
  }

  /** A Ruby hash: no key is bound twice. */
  predicate UniqueKeys(fs: Fields) {
    forall i, j :: 0 <= i < j < |fs| ==> fs[i].0 != fs[j].0
  }
}
