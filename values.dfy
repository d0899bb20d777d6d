/** Python values as the client receives them in its option dictionaries,
    and the few dictionary operations the client relies on. */
module PyValue {

  datatype Option<+T> = None | Some(value: T)

  /** A Python value. Dictionaries keep insertion order and have string keys. */
  datatype Value =
    | PyNone
    | PyBool(b: bool)
    | PyInt(i: int)
    | PyStr(s: string)
    | PyList(items: seq<Value>)
    | PyDict(entries: seq<(string, Value)>)

  /** A Python dict: its entries in insertion order. */
  type Dict = seq<(string, Value)>

  /** Python truthiness (`bool(v)`): the falsy values are exactly None, False,
      0, the empty str, the empty list and the empty dict. */
  predicate Truthy(v: Value)
    ensures !Truthy(v) <==>
              v in {PyNone, PyBool(false), PyInt(0), PyStr(""), PyList([]), PyDict([])}
  {
    match v
    case PyNone => false
    case PyBool(b) => b
    case PyInt(i) => i != 0
    case PyStr(s) => s != ""
    case PyList(items) => items != []
    case PyDict(entries) => entries != []
  }

  /** The keys of `d`, in insertion order. */
  function Keys(d: Dict): seq<string> {
    if d == [] then [] else [d[0].0] + Keys(d[1..])
  }

  /** Every key occurs once, as in any Python dict. */
  predicate Distinct(d: Dict) {
    d == [] || (d[0].0 !in Keys(d[1..]) && Distinct(d[1..]))
  }

  /** `d[k]` when `k in d`. */
  function Get(d: Dict, k: string): (r: Option<Value>)
    ensures r.None? <==> k !in Keys(d)
  {
    if d == [] then None
    else if d[0].0 == k then Some(d[0].1)
    else Get(d[1..], k)
  }

  /** `d.get(k, default)`. */
  function GetOr(d: Dict, k: string, default: Value): (r: Value)
    ensures k in Keys(d) ==> Get(d, k) == Some(r)
    ensures k !in Keys(d) ==> r == default
  {
    match Get(d, k)
    case Some(v) => v
    case None => default
  }

  /** `d[k] = v`: an existing key keeps its position, a new key goes last. */
  function Set(d: Dict, k: string, v: Value): (r: Dict)
    ensures Get(r, k) == Some(v)
    ensures forall k' :: k' != k ==> Get(r, k') == Get(d, k')
    ensures Keys(r) == if k in Keys(d) then Keys(d) else Keys(d) + [k]
    ensures Distinct(d) ==> Distinct(r)
  {
    if d == [] then [(k, v)]
    else if d[0].0 == k then [(k, v)] + d[1..]
    else [d[0]] + Set(d[1..], k, v)
  }

  /** `d.update(e)`: the entries of `e` are assigned into `d` one by one, in order.
      Every key of `d` stays, and a dict stays a dict. */
  function Update(d: Dict, e: Dict): (r: Dict)
    ensures forall k :: k in Keys(d) ==> k in Keys(r)
    ensures Distinct(d) ==> Distinct(r)
    decreases |e|
  {
    if e == [] then d else Update(Set(d, e[0].0, e[0].1), e[1..])
  }

  /** `d.update(e)` holds every key of `e`. */
  lemma {:induction false} UpdateKeysFrom(d: Dict, e: Dict)
    ensures forall k :: k in Keys(e) ==> k in Keys(Update(d, e))
    decreases |e|
  {
    if e != [] {
      UpdateKeysFrom(Set(d, e[0].0, e[0].1), e[1..]);
      assert Keys(e) == [e[0].0] + Keys(e[1..]);
    }
  }

  /** The strings a `for` loop or `str.join` takes from `v`: the characters of a
      str, the items of a list of str, the keys of a dict; None for a value
      whose iteration does not yield only strings. */
  function StrItems(v: Value): (r: Option<seq<string>>)
    ensures r.Some? <==>
              v.PyStr? || v.PyDict? || (v.PyList? && forall k :: 0 <= k < |v.items| ==> v.items[k].PyStr?)
    ensures v.PyStr? ==> |r.value| == |v.s| && forall k :: 0 <= k < |v.s| ==> r.value[k] == [v.s[k]]
    ensures v.PyDict? ==> r == Some(Keys(v.entries))
    ensures v.PyList? && r.Some? ==> |r.value| == |v.items| && forall k :: 0 <= k < |v.items| ==> v.items[k] == PyStr(r.value[k])
  {
    match v
    case PyStr(s) => Some(seq(|s|, k requires 0 <= k < |s| => [s[k]]))
    case PyList(items) =>
      if forall k :: 0 <= k < |items| ==> items[k].PyStr?
      then Some(seq(|items|, k requires 0 <= k < |items| => items[k].s))
      else None
    case PyDict(entries) => Some(Keys(entries))
    case _ => None
  }

  /** The total length of `parts`. */
  function TotalLength(parts: seq<string>): nat {
    if parts == [] then 0 else |parts[0]| + TotalLength(parts[1..])
  }

  /** `sep.join(parts)`: the parts in order, one separator between each two,
      the first part at the front. */
  function Join(sep: string, parts: seq<string>): (r: string)
    ensures |r| == TotalLength(parts) + (if parts == [] then 0 else (|parts| - 1) * |sep|)
    ensures parts != [] ==> parts[0] <= r
  {
    if parts == [] then ""
    else if |parts| == 1 then parts[0]
    else parts[0] + sep + Join(sep, parts[1..])
  }

  lemma JoinThree(sep: string, a: string, b: string, c: string)
    ensures Join(sep, [a, b, c]) == a + sep + b + sep + c
  {
    assert [a, b, c][1..] == [b, c];
    assert [b, c][1..] == [c];
    assert Join(sep, [c]) == c;
    assert Join(sep, [b, c]) == b + sep + c;
  }

  lemma UpdateCons(d: Dict, x: (string, Value), rest: Dict)
    ensures Update(d, [x] + rest) == Update(Set(d, x.0, x.1), rest)
  {
    assert ([x] + rest)[1..] == rest;
  }

  lemma DistinctTail(d: Dict)
    requires Distinct(d) && d != []
    ensures Distinct(d[1..]) && d[0].0 !in Keys(d[1..])
  {
  }

  /** In a dict, each entry is what its key looks up. */
  lemma {:induction false} GetAt(d: Dict, i: int)
    requires Distinct(d) && 0 <= i < |d|
    ensures Get(d, d[i].0) == Some(d[i].1)
  {
    if i > 0 {
      assert d[i] == d[1..][i - 1];
      KeysAt(d[1..], i - 1);
      GetAt(d[1..], i - 1);
    }
  }

  lemma {:induction false} KeysAt(d: Dict, i: int)
    requires 0 <= i < |d|
    ensures d[i].0 in Keys(d)
  {
    if i > 0 {
      assert d[i] == d[1..][i - 1];
      KeysAt(d[1..], i - 1);
    }
  }

  /** After `d.update(e)`, the keys of `e` map to their values in `e`, and every
      other key keeps what it had in `d`. */
  lemma {:induction false} UpdateGet(d: Dict, e: Dict, k: string)
    requires Distinct(e)
    ensures Get(Update(d, e), k) == if k in Keys(e) then Get(e, k) else Get(d, k)
    decreases |e|
  {
    if e != [] {
      DistinctTail(e);
      UpdateGet(Set(d, e[0].0, e[0].1), e[1..], k);
    }
  }

  /** Updating with keys the dict does not have appends the new entries in order. */
  lemma {:induction false} UpdateFresh(d: Dict, e: Dict)
    requires Distinct(e)
    requires forall k :: k in Keys(e) ==> k !in Keys(d)
    ensures Update(d, e) == d + e
    decreases |e|
  {
    if e != [] {
      var d' := Set(d, e[0].0, e[0].1);
      assert d' == d + [e[0]] by {
        SetFresh(d, e[0].0, e[0].1);
      }
      assert Distinct(e[1..]) && forall k :: k in Keys(e[1..]) ==> k !in Keys(d') by {
        DistinctTail(e);
        assert Keys(e) == [e[0].0] + Keys(e[1..]);
      }
      UpdateFresh(d', e[1..]);
      ConcatStep(d, e);

    }
  }

  lemma ConcatStep(d: Dict, e: Dict)
    requires e != []
    ensures (d + [e[0]]) + e[1..] == d + e
  {
    assert [e[0]] + e[1..] == e;
  }

  /** Assigning a key the dict does not have appends one entry. */
  lemma {:induction false} SetFresh(d: Dict, k: string, v: Value)
    requires k !in Keys(d)
    ensures Set(d, k, v) == d + [(k, v)]
  {
    if d != [] {
      assert k !in Keys(d[1..]);
      SetFresh(d[1..], k, v);
      assert [d[0]] + (d[1..] + [(k, v)]) == d + [(k, v)];
    }
  }
}
