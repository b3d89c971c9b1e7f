/**
 * The list of name-value pairs behind a URL's `searchParams`, with the
 * `set`, `delete` and `getAll` operations of the URLSearchParams class in
 * section 6.2 of the WHATWG URL Standard.  Pairs keep their order, and a
 * name may occur more than once.
 */
module SearchParams {
  import opened Wrappers
  import opened Sequences

  datatype Param = Param(name: string, value: string)

  /** The pairs of `q` whose name is not in `names`, in their order. */
  function Without(q: seq<Param>, names: set<string>): seq<Param> {
    if q == [] then []
    else if q[0].name in names then Without(q[1..], names)
    else [q[0]] + Without(q[1..], names)
  }

  /** `delete(name)`: removes every pair with that name. */
  function DeleteParam(q: seq<Param>, name: string): seq<Param> {
    Without(q, {name})
  }

  /** `getAll(name)`: the values of the pairs with that name, in order. */
  function GetAll(q: seq<Param>, name: string): seq<string> {
    if q == [] then []
    else if q[0].name == name then [q[0].value] + GetAll(q[1..], name)
    else GetAll(q[1..], name)
  }

  /** `get(name)`: the value of the first pair with that name. */
  function Get(q: seq<Param>, name: string): (r: Option<string>)
    ensures r.Some? <==> GetAll(q, name) != []
    ensures r.Some? ==> r.value == GetAll(q, name)[0]
  {
    var values := GetAll(q, name);
    if values == [] then None else Some(values[0])
  }

  /**
   * `set(name, value)`: the first pair with that name takes the new value
   * and the later ones go; with no such pair, one is appended.
   */
  function SetParam(q: seq<Param>, name: string, value: string): seq<Param> {
    if q == [] then [Param(name, value)]
    else if q[0].name == name then [Param(name, value)] + DeleteParam(q[1..], name)
    else [q[0]] + SetParam(q[1..], name, value)
  }

  /** Successive `set` calls, the first pair of `ps` first. */
  function SetAll(q: seq<Param>, ps: seq<Param>): seq<Param> {
    if ps == [] then q
    else SetParam(SetAll(q, ps[..|ps| - 1]), ps[|ps| - 1].name, ps[|ps| - 1].value)
  }

  function Names(ps: seq<Param>): set<string> {
    set p | p in ps :: p.name
  }

  /** No two pairs of `ps` have the same name. */
  predicate DistinctNames(ps: seq<Param>) {
    forall i, j :: 0 <= i < j < |ps| ==> ps[i].name != ps[j].name
  }

  // ---------------------------------------------------------------------
  // `delete` and `Without`

  /** What is left has none of the names, keeps the order, and loses exactly the named pairs. */
  lemma {:induction false} WithoutSpec(q: seq<Param>, names: set<string>)
    ensures forall p :: p in Without(q, names) ==> p.name !in names
    ensures forall p :: p in q && p.name !in names ==> p in Without(q, names)
    ensures IsSubsequence(Without(q, names), q)
    ensures forall n :: n !in names ==> GetAll(Without(q, names), n) == GetAll(q, n)
    ensures forall n :: n in names ==> GetAll(Without(q, names), n) == []
  {
    if q != [] {
      WithoutSpec(q[1..], names);
      var w := Without(q, names);
      if q[0].name in names {
        SubsequenceOfTail(w, q);
      } else {
        assert w[0] == q[0] && w[1..] == Without(q[1..], names);
      }
    }
  }

  lemma SubsequenceOfTail<T>(a: seq<T>, b: seq<T>)
    requires b != [] && IsSubsequence(a, b[1..])
    ensures IsSubsequence(a, b)
  {
  }

  /** Deleting a name twice is deleting it once. */
  lemma {:induction false} DeleteIdempotent(q: seq<Param>, name: string)
    ensures DeleteParam(DeleteParam(q, name), name) == DeleteParam(q, name)
  {
    WithoutTwice(q, {name}, {name});
    assert {name} + {name} == {name};
  }

  /** Removing two sets of names one after the other removes their union. */
  lemma {:induction false} WithoutTwice(q: seq<Param>, a: set<string>, b: set<string>)
    ensures Without(Without(q, a), b) == Without(q, a + b)
  {
    if q != [] {
      WithoutTwice(q[1..], a, b);
      if q[0].name !in a {
        assert Without(q, a) == [q[0]] + Without(q[1..], a);
        assert ([q[0]] + Without(q[1..], a))[1..] == Without(q[1..], a);
      }
    }
  }

  /** A deletion leaves exactly the pairs with other names. */
  lemma {:induction false} DeleteCount(q: seq<Param>, name: string)
    ensures |DeleteParam(q, name)| == |q| - |GetAll(q, name)|
  {
    if q != [] {
      DeleteCount(q[1..], name);
    }
  }

  // ---------------------------------------------------------------------
  // `set`

  /** After `set`, the name has exactly the new value. */
  lemma {:induction false} SetParamGetAll(q: seq<Param>, name: string, value: string)
    ensures GetAll(SetParam(q, name, value), name) == [value]
  {
    if q != [] {
      if q[0].name == name {
        WithoutSpec(q[1..], {name});
      } else {
        SetParamGetAll(q[1..], name, value);
      }
    }
  }

  /** `set` leaves the values of every other name as they were. */
  lemma {:induction false} SetParamGetAllOther(q: seq<Param>, name: string, value: string, other: string)
    requires other != name
    ensures GetAll(SetParam(q, name, value), other) == GetAll(q, other)
  {
    if q != [] {
      if q[0].name == name {
        WithoutSpec(q[1..], {name});
      } else {
        SetParamGetAllOther(q[1..], name, value, other);
      }
    }
  }

  /** `set` neither removes nor moves a pair with another name. */
  lemma {:induction false} SetParamWithout(q: seq<Param>, name: string, value: string, names: set<string>)
    requires name in names
    ensures Without(SetParam(q, name, value), names) == Without(q, names)
  {
    if q != [] {
      if q[0].name == name {
        WithoutTwice(q[1..], {name}, names);
        assert {name} + names == names;
      } else {
        SetParamWithout(q[1..], name, value, names);
      }
    }
  }

  /** `set` overwrites in place: the pairs before the first one with that name stay, and it takes the new value. */
  lemma {:induction false} SetParamInPlace(q: seq<Param>, name: string, value: string, i: nat)
    requires i < |q| && q[i].name == name
    requires forall j :: 0 <= j < i ==> q[j].name != name
    ensures |SetParam(q, name, value)| > i
    ensures SetParam(q, name, value)[..i + 1] == q[..i] + [Param(name, value)]
  {
    if i > 0 {
      SetParamInPlace(q[1..], name, value, i - 1);
      var r := SetParam(q, name, value);
      assert r == [q[0]] + SetParam(q[1..], name, value);
      assert r[..i + 1] == [q[0]] + SetParam(q[1..], name, value)[..i];
      assert q[..i] == [q[0]] + q[1..][..i - 1];
    }
  }

  /** With no pair of that name, `set` appends one. */
  lemma {:induction false} SetParamAppends(q: seq<Param>, name: string, value: string)
    requires forall p :: p in q ==> p.name != name
    ensures SetParam(q, name, value) == q + [Param(name, value)]
  {
    if q != [] {
      SetParamAppends(q[1..], name, value);
      assert q == [q[0]] + q[1..];
    }
  }

  /** A second `set` of the same name wins; setting a value twice is setting it once. */
  lemma {:induction false} SetParamTwice(q: seq<Param>, name: string, v: string, w: string)
    ensures SetParam(SetParam(q, name, v), name, w) == SetParam(q, name, w)
  {
    if q != [] {
      if q[0].name == name {
        var rest := DeleteParam(q[1..], name);
        WithoutSpec(q[1..], {name});
        NoNameDelete(rest, name);
        assert SetParam(q, name, v) == [Param(name, v)] + rest;
      } else {
        SetParamTwice(q[1..], name, v, w);
      }
    }
  }

  lemma {:induction false} NoNameDelete(q: seq<Param>, name: string)
    requires forall p :: p in q ==> p.name != name
    ensures DeleteParam(q, name) == q
  {
    if q != [] {
      NoNameDelete(q[1..], name);
      assert q == [q[0]] + q[1..];
    }
  }

  // ---------------------------------------------------------------------
  // Successive `set` calls

  /** After setting pairs with distinct names, each name holds exactly the value it was set to. */
  lemma {:induction false} SetAllGetAll(q: seq<Param>, ps: seq<Param>, k: nat)
    requires DistinctNames(ps) && k < |ps|
    ensures GetAll(SetAll(q, ps), ps[k].name) == [ps[k].value]
  {
    var init, last := ps[..|ps| - 1], ps[|ps| - 1];
    if k == |ps| - 1 {
      SetParamGetAll(SetAll(q, init), last.name, last.value);
    } else {
      SetParamGetAllOther(SetAll(q, init), last.name, last.value, ps[k].name);
      assert init[k] == ps[k];
      SetAllGetAll(q, init, k);
    }
  }

  /** Setting pairs leaves every other name's values as they were. */
  lemma {:induction false} SetAllGetAllOther(q: seq<Param>, ps: seq<Param>, other: string)
    requires other !in Names(ps)
    ensures GetAll(SetAll(q, ps), other) == GetAll(q, other)
  {
    if ps != [] {
      var init, last := ps[..|ps| - 1], ps[|ps| - 1];
      assert last in ps;
      assert Names(init) <= Names(ps) by {
        forall p | p in init ensures p in ps { }
      }
      SetParamGetAllOther(SetAll(q, init), last.name, last.value, other);
      SetAllGetAllOther(q, init, other);
    }
  }

  /** Setting pairs keeps every pair with another name, in its order. */
  lemma {:induction false} SetAllWithout(q: seq<Param>, ps: seq<Param>, names: set<string>)
    requires Names(ps) <= names
    ensures Without(SetAll(q, ps), names) == Without(q, names)
  {
    if ps != [] {
      var init, last := ps[..|ps| - 1], ps[|ps| - 1];
      assert last in ps;
      assert Names(init) <= Names(ps) by {
        forall p | p in init ensures p in ps { }
      }
      SetParamWithout(SetAll(q, init), last.name, last.value, names);
      SetAllWithout(q, init, names);
    }
  }

  /** One more `set` at the end of a run of them. */
  lemma SetAllStep(q: seq<Param>, ps: seq<Param>, k: nat)
    requires k < |ps|
    ensures SetAll(q, ps[..k + 1]) == SetParam(SetAll(q, ps[..k]), ps[k].name, ps[k].value)
  {
    assert ps[..k + 1][..k] == ps[..k];
  }
}
