/** Decoded YAML and JSON documents, with the Python operations the core applies to them:
    `d.get(k, default)`, `d[k] = v` (insertion order kept, an existing key overwritten in place),
    truthiness and the `in` operator. */
module Values {
  import opened Wrappers
  import opened Strings
  import opened Seqs

  /** A YAML or JSON value. An object keeps its keys in insertion order, as a Python dict does. */
  datatype Value =
    | Null
    | Bool(b: bool)
    | Num(n: int)
    | Str(s: string)
    | List(items: seq<Value>)
    | Object(fields: seq<(string, Value)>)

  type Fields = seq<(string, Value)>

  /** The content of a file as a loader sees it: a parsed document, or text the parser rejects. */
  datatype Document = Doc(value: Value) | Malformed

  /** The keys of a dict, in insertion order. */
  function Keys(fields: Fields): (r: seq<string>)
    ensures |r| == |fields|
  {
    if fields == [] then [] else [fields[0].0] + Keys(fields[1..])
  }

  /** `d[key]`: the value stored under the key, or nothing (a `KeyError`). */
  function Lookup(fields: Fields, key: string): (r: Option<Value>)
    ensures r.Some? <==> key in Keys(fields)
    ensures r.Some? ==> exists i :: 0 <= i < |fields| && fields[i] == (key, r.value)
  {
    if fields == [] then None
    else if fields[0].0 == key then Some(fields[0].1)
    else
      var r := Lookup(fields[1..], key);
      assert r.Some? ==> exists i :: 1 <= i < |fields| && fields[i] == (key, r.value) by {
        if r.Some? {
          var i :| 0 <= i < |fields[1..]| && fields[1..][i] == (key, r.value);
          assert fields[i + 1] == (key, r.value);
        }
      }
      r
  }

  /** `d.get(key, default)` on a value that must be a dict; a value of another type has no
      `get` method (an `AttributeError`), which is the `None` result. */
  function Get(v: Value, key: string, default: Value): (r: Option<Value>)
    ensures r.Some? <==> v.Object?
    ensures v.Object? && key !in Keys(v.fields) ==> r == Some(default)
    ensures v.Object? && key in Keys(v.fields) ==> r == Lookup(v.fields, key)
  {
    if !v.Object? then None
    else match Lookup(v.fields, key)
      case Some(x) => Some(x)
      case None => Some(default)
  }

  /** `d[key] = v`: an existing key keeps its position and takes the new value; a new key goes last. */
  function Put(fields: Fields, key: string, v: Value): (r: Fields)
    ensures |r| == |fields| || |r| == |fields| + 1
  {
    if fields == [] then [(key, v)]
    else if fields[0].0 == key then [(key, v)] + fields[1..]
    else [fields[0]] + Put(fields[1..], key, v)
  }

  /** After `d[key] = v` the key maps to v and every other key to what it mapped to before. */
  lemma {:induction false} PutLookup(fields: Fields, key: string, v: Value, k: string)
    ensures Lookup(Put(fields, key, v), k) == if k == key then Some(v) else Lookup(fields, k)
  {
    if fields != [] && fields[0].0 != key {
      PutLookup(fields[1..], key, v, k);
    }
  }

  /** `d[key] = v` keeps the key order; a new key is appended. */
  lemma {:induction false} PutKeys(fields: Fields, key: string, v: Value)
    ensures key in Keys(fields) ==> Keys(Put(fields, key, v)) == Keys(fields)
    ensures key !in Keys(fields) ==> Keys(Put(fields, key, v)) == Keys(fields) + [key]
  {
    if fields != [] && fields[0].0 != key {
      PutKeys(fields[1..], key, v);
      assert Put(fields, key, v)[1..] == Put(fields[1..], key, v);
    }
  }

  /** Python truthiness: `None`, `False`, `0` and empty text, lists and dicts are false. */
  predicate Truthy(v: Value) {
    match v
    case Null => false
    case Bool(b) => b
    case Num(n) => n != 0
    case Str(s) => s != []
    case List(items) => items != []
    case Object(fields) => fields != []
  }

  /** `needle in container` for a text needle: a substring test on text, membership on a list,
      a key test on a dict; any other container raises a `TypeError`, the `None` result. */
  function PyIn(needle: string, container: Value): (r: Option<bool>)
    ensures r.Some? <==> (container.Str? || container.List? || container.Object?)
    ensures container.Object? ==> r == Some(needle in Keys(container.fields))
    ensures container.Str? ==> r == Some(Contains(container.s, needle))
  {
    match container
    case Str(s) => Some(Contains(s, needle))
    case List(items) => Some(Str(needle) in items)
    case Object(fields) => Some(needle in Keys(fields))
    case _ => None
  }

  /** A list of texts as a YAML list. */
  function StrList(xs: seq<string>): (r: Value)
    ensures r.List? && |r.items| == |xs|
    ensures forall i :: 0 <= i < |xs| ==> r.items[i] == Str(xs[i])
    ensures forall x :: Str(x) in r.items <==> x in xs
  {
    List(seq(|xs|, i requires 0 <= i < |xs| => Str(xs[i])))
  }

  /** Different lists of texts are different YAML lists, so a saved list reads back as itself. */
  lemma StrListInjective(xs: seq<string>, ys: seq<string>)
    requires StrList(xs) == StrList(ys)
    ensures xs == ys
  {
    assert |xs| == |StrList(xs).items| == |ys|;
    forall i | 0 <= i < |xs|
      ensures xs[i] == ys[i]
    {
      assert StrList(xs).items[i] == Str(xs[i]) && StrList(ys).items[i] == Str(ys[i]);
    }
  }

  /** `v[key]` with a text key: the entry of a dict; a missing key (`KeyError`) or a value that is
      not a dict (`TypeError`) is `None`. */
  function Index(v: Value, key: string): (r: Option<Value>)
    ensures r.Some? <==> v.Object? && key in Keys(v.fields)
    ensures r.Some? ==> Get(v, key, Null) == r
  {
    if v.Object? then Lookup(v.fields, key) else None
  }

  /** `for x in v`: the items of a list, the one-character texts of a text, the keys of a dict;
      iterating any other value raises a `TypeError`, the `None` result. */
  function Iterate(v: Value): Option<seq<Value>>
  {
    match v
    case List(items) => Some(items)
    case Str(s) => Some(seq(|s|, i requires 0 <= i < |s| => Str([s[i]])))
    case Object(fields) => Some(seq(|fields|, i requires 0 <= i < |fields| => Str(Keys(fields)[i])))
    case _ => None
  }

  /** What a loop over a value visits. */
  lemma IterateItems(v: Value)
    ensures Iterate(v).Some? <==> (v.List? || v.Str? || v.Object?)
    ensures v.List? ==> Iterate(v) == Some(v.items)
    ensures v.Str? ==> Iterate(v).Some? && |Iterate(v).value| == |v.s|
    ensures v.Str? ==> forall i :: 0 <= i < |v.s| ==> Iterate(v).value[i] == Str([v.s[i]])
    ensures v.Object? ==> Iterate(v).Some? && |Iterate(v).value| == |v.fields|
    ensures v.Object? ==> forall i :: 0 <= i < |v.fields| ==> Iterate(v).value[i] == Str(Keys(v.fields)[i])
  {
  }

  /** `v[:k]` on a list or a text; slicing a dict or a scalar raises, the `None` result. */
  function SlicePy(v: Value, k: int): (r: Option<Value>)
    ensures r.Some? <==> (v.List? || v.Str?)
    ensures v.List? ==> r == Some(List(TakePy(v.items, k)))
    ensures v.Str? ==> r == Some(Str(TakePy(v.s, k)))
  {
    match v
    case List(items) => Some(List(TakePy(items, k)))
    case Str(s) => Some(Str(TakePy(s, k)))
    case _ => None
  }

  /** `str(v)` for the scalar values an f-string formats here: text as is, integers in decimal,
      `True`/`False` and `None`. Lists and dicts print as the empty text in this model. */
  function Display(v: Value): (r: string)
    ensures v.Str? ==> r == v.s
    ensures v.Num? && v.n >= 0 ==> r == NatToString(v.n)
  {
    match v
    case Str(s) => s
    case Num(n) => if n >= 0 then NatToString(n) else "-" + NatToString(-n)
    case Bool(b) => if b then "True" else "False"
    case Null => "None"
    case _ => ""
  }
}
