/** The form every request posts: the client's key first, then each payload
    entry whose value is not None, lists and dicts written as JSON text. */
module FormEncoding {
  import opened PyValue
  import Json

  const API_KEY: string := "api_key"

  /** What the form holds for a value that is not None. */
  function FormValue(v: Value): (r: Value)
    ensures !r.PyList? && !r.PyDict?
    ensures r == PyNone <==> v == PyNone
    ensures v.PyList? || v.PyDict? ==> r.PyStr? && Json.Ascii(r.s)
    ensures !(v.PyList? || v.PyDict?) ==> r == v
  {
    if v.PyList? || v.PyDict? then
      PyStr(Json.Dumps(v))
    else v
  }

  /** The payload entries the form takes over, in order, with their form values:
      none of them is None, a list or a dict. */
  function Kept(data: Dict): (r: Dict)
    ensures |r| <= |data|
    ensures forall k :: 0 <= k < |r| ==> r[k].1 != PyNone && !r[k].1.PyList? && !r[k].1.PyDict?
  {
    if data == [] then []
    else
      (if data[0].1 == PyNone then [] else [(data[0].0, FormValue(data[0].1))])
      + Kept(data[1..])
  }

  /** The form `_create_form_data` builds for `data` with the client key `apiKey`:
      the key entry, then the kept entries assigned into it one by one. The form
      always has an `api_key` entry, and each of its keys once. */
  function FormData(apiKey: Value, data: Dict): (r: Dict)
    ensures API_KEY in Keys(r)
    ensures Distinct(r)
  {
    assert Keys([(API_KEY, apiKey)]) == [API_KEY];
    assert [(API_KEY, apiKey)][1..] == [];
    assert Distinct([(API_KEY, apiKey)]);
    Update([(API_KEY, apiKey)], Kept(data))
  }

  lemma KeptStep(data: Dict, i: int)
    requires 0 <= i < |data|
    ensures Kept(data[i..]) ==
              (if data[i].1 == PyNone then [] else [(data[i].0, FormValue(data[i].1))]) + Kept(data[i + 1..])
  {
    assert data[i..][1..] == data[i + 1..];
  }

  lemma {:induction false} KeptKeys(data: Dict, k: string)
    ensures k in Keys(Kept(data)) ==> k in Keys(data)
    ensures Distinct(data) ==> Distinct(Kept(data))
  {
    if data != [] {
      var tail := Kept(data[1..]);
      KeptKeys(data[1..], k);
      KeptKeys(data[1..], data[0].0);
      if data[0].1 != PyNone {
        var x := (data[0].0, FormValue(data[0].1));
        assert Kept(data) == [x] + tail;
        assert ([x] + tail)[1..] == tail;
      } else {
        assert Kept(data) == tail;
      }
    }
  }

  /** A key of the payload is in the kept entries exactly when its value is not
      None, and then with its form value. */
  lemma {:induction false} KeptGet(data: Dict, k: string)
    requires Distinct(data)
    ensures Get(Kept(data), k) == match Get(data, k)
                                  case Some(v) => if v == PyNone then None else Some(FormValue(v))
                                  case None => None
  {
    if data != [] {
      DistinctTail(data);
      KeptGet(data[1..], k);
      KeptKeys(data[1..], data[0].0);
      var tail := Kept(data[1..]);
      if data[0].1 != PyNone {
        var x := (data[0].0, FormValue(data[0].1));
        assert Kept(data) == [x] + tail;
        assert ([x] + tail)[1..] == tail;
      } else {
        assert Kept(data) == tail;
      }
    }
  }

  /** Key by key: the form maps `api_key` to the client key unless the payload
      supplies a value for it that is not None; it holds every other payload key
      whose value is not None, with that value's form value, and no other key. */
  lemma FormDataGet(apiKey: Value, data: Dict, k: string)
    requires Distinct(data)
    ensures Get(FormData(apiKey, data), k) ==
      match Get(data, k)
      case Some(v) =>
        if v != PyNone then Some(FormValue(v))
        else if k == API_KEY then Some(apiKey) else None
      case None =>
        if k == API_KEY then Some(apiKey) else None
  {
    KeptKeys(data, k);
    UpdateGet([(API_KEY, apiKey)], Kept(data), k);
    KeptGet(data, k);
  }

  /** When the payload has no `api_key` entry, the form is exactly the key entry
      followed by the kept payload entries in their original order. */
  lemma FormDataLayout(apiKey: Value, data: Dict)
    requires Distinct(data) && API_KEY !in Keys(data)
    ensures FormData(apiKey, data) == [(API_KEY, apiKey)] + Kept(data)
  {
    forall k | k in Keys(Kept(data))
      ensures k !in Keys([(API_KEY, apiKey)])
    {
      KeptKeys(data, k);
    }
    KeptKeys(data, API_KEY);
    UpdateFresh([(API_KEY, apiKey)], Kept(data));
  }
}
