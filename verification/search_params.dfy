/** `URLSearchParams` as an ordered list of key/value pairs: `get` reads the
    first value of a key, `Object.fromEntries` keeps the last one, `append`
    adds at the end and `toString` joins `key=value` with `&`.
    Percent-encoding is not modelled: keys and values are written as they are. */
module SearchParams {
  import opened Wrappers

  type Pairs = seq<(string, string)>

  /** `searchParams.get(key)`: the first value stored under `key`, or null. */
  function Get(ps: Pairs, key: string): (r: Option<string>)
    ensures r.Some? <==> exists i :: 0 <= i < |ps| && ps[i].0 == key
    ensures r.Some? ==> exists i :: 0 <= i < |ps| && ps[i] == (key, r.value) &&
                                    forall j :: 0 <= j < i ==> ps[j].0 != key
  {
    if ps == [] then None
    else if ps[0].0 == key then Some(ps[0].1)
    else
      var r := Get(ps[1..], key);
      assert forall i :: 0 <= i < |ps| - 1 ==> ps[1..][i] == ps[i + 1];
      r
  }

  /** `get` on appended pairs looks at the later pairs only when the
      earlier ones do not hold the key. */
  lemma {:induction false} GetAppend(front: Pairs, back: Pairs, key: string)
    ensures Get(front + back, key) == if Get(front, key).Some? then Get(front, key) else Get(back, key)
    decreases |front|
  {
    if front == [] {
      assert front + back == back;
    } else {
      GetAppend(front[1..], back, key);
      assert (front + back)[1..] == front[1..] + back;
    }
  }

  /** `Object.fromEntries(searchParams.entries())`. */
  function FromEntries(ps: Pairs): map<string, string>
  {
    if ps == [] then map[] else FromEntries(ps[..|ps| - 1])[ps[|ps| - 1].0 := ps[|ps| - 1].1]
  }

  /** A key is in the flattened map exactly when some pair carries it, and
      its value is that of the LAST such pair. */
  lemma {:induction false} FromEntriesLastWins(ps: Pairs, key: string)
    ensures key in FromEntries(ps) <==> exists i :: 0 <= i < |ps| && ps[i].0 == key
    ensures key in FromEntries(ps) ==>
              exists i :: 0 <= i < |ps| && ps[i] == (key, FromEntries(ps)[key]) &&
                          forall j :: i < j < |ps| ==> ps[j].0 != key
  {
    if ps != [] {
      var init, n := ps[..|ps| - 1], |ps| - 1;
      assert forall i :: 0 <= i < n ==> init[i] == ps[i];
      FromEntriesLastWins(init, key);
      if ps[n].0 == key {
        assert ps[n] == (key, FromEntries(ps)[key]);
      } else {
        assert FromEntries(ps) == FromEntries(init)[ps[n].0 := ps[n].1];
        assert (key in FromEntries(ps)) == (key in FromEntries(init));
        if key in FromEntries(init) {
          var i :| 0 <= i < n && init[i] == (key, FromEntries(init)[key]) &&
                   forall j :: i < j < n ==> init[j].0 != key;
          assert ps[i] == (key, FromEntries(ps)[key]);
        }
      }
    }
  }

  /** A repeated key: `get` sees the first value, the flattened map the last. */
  lemma RepeatedKey(key: string, first: string, last: string)
    ensures Get([(key, first), (key, last)], key) == Some(first)
    ensures FromEntries([(key, first), (key, last)])[key] == last
  {
    var ps := [(key, first), (key, last)];
    assert ps[..1] == [(key, first)];
  }

  function Pair(p: (string, string)): string {
    p.0 + "=" + p.1
  }

  /** `searchParams.toString()`. */
  function Serialize(ps: Pairs): (s: string)
    ensures s == "" <==> ps == []
  {
    if ps == [] then ""
    else if |ps| == 1 then Pair(ps[0])
    else Pair(ps[0]) + "&" + Serialize(ps[1..])
  }
}
