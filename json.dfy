/**
 * The Python values `json.load` produces, and the few operations the notebook
 * tools apply to them: `dict.get`, iteration with `for`, and `''.join`.
 */
module Json {
  import opened Wrappers

  /**
   * A parsed JSON value. An object keeps its fields in document order; the
   * dictionaries `json.load` builds never repeat a key, and `Get` reads the first
   * binding of a key.
   */
  datatype Value =
    | Null
    | Bool(b: bool)
    | Number(n: real)
    | Str(s: string)
    | Array(items: seq<Value>)
    | Object(fields: seq<(string, Value)>)

  /** `d.get(key, default)` on a dictionary's fields. */
  function Get(fields: seq<(string, Value)>, key: string, default: Value): (r: Value)
    ensures (forall i :: 0 <= i < |fields| ==> fields[i].0 != key) ==> r == default
    ensures (exists i :: 0 <= i < |fields| && fields[i].0 == key) ==> exists i :: 0 <= i < |fields| && fields[i] == (key, r)
  {
    if fields == [] then default
    else if fields[0].0 == key then fields[0].1
    else Get(fields[1..], key, default)
  }

  /**
   * What `for x in v` yields: the items of a list, the one-character strings of a
   * string, the keys of a dictionary. `None` when `v` is not iterable (a number,
   * a boolean or `None` raises `TypeError`).
   */
  function Iterate(v: Value): (r: Option<seq<Value>>)
    ensures v.Array? ==> r == Some(v.items)
    ensures v.Str? ==> r.Some? && |r.value| == |v.s| && forall i :: 0 <= i < |v.s| ==> r.value[i] == Str([v.s[i]])
    ensures v.Object? ==> r.Some? && |r.value| == |v.fields| && forall i :: 0 <= i < |v.fields| ==> r.value[i] == Str(v.fields[i].0)
    ensures r.None? <==> (v.Null? || v.Bool? || v.Number?)
  {
    match v
    case Array(items) => Some(items)
    case Str(s) => Some(seq(|s|, i requires 0 <= i < |s| => Str([s[i]])))
    case Object(fields) => Some(seq(|fields|, i requires 0 <= i < |fields| => Str(fields[i].0)))
    case _ => None
  }

  /** The concatenation of a sequence of string values, `None` if one of them is not a string. */
  function Concat(items: seq<Value>): (r: Option<string>)
    ensures r.None? <==> exists i :: 0 <= i < |items| && !items[i].Str?
  {
    if items == [] then Some([])
    else if !items[0].Str? then None
    else match Concat(items[1..])
      case None => None
      case Some(rest) => Some(items[0].s + rest)
  }

  /** `''.join(v)`: `None` where Python raises `TypeError`. */
  function Join(v: Value): Option<string> {
    match Iterate(v)
    case None => None
    case Some(items) => Concat(items)
  }

  /** Joining the characters of a string gives the string back. */
  lemma {:induction false} JoinString(s: string)
    ensures Join(Str(s)) == Some(s)
  {
    CharsConcat(s);
  }

  lemma {:induction false} CharsConcat(s: string)
    ensures Concat(seq(|s|, i requires 0 <= i < |s| => Str([s[i]]))) == Some(s)
  {
    var items := seq(|s|, i requires 0 <= i < |s| => Str([s[i]]));
    if s != [] {
      CharsConcat(s[1..]);
      assert items[1..] == seq(|s[1..]|, i requires 0 <= i < |s[1..]| => Str([s[1..][i]]));
      assert [s[0]] + s[1..] == s;
    }
  }
}
