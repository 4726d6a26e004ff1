/** explode_variadic_parameter and collapse_variadic_parameters: moving the
    entries of a **kwargs parameter up into the parameter dictionary and back. */
module Variadic {
  import opened Results
  import opened Signatures

  /** The dictionary explode_variadic_parameter returns. Without a VAR_KEYWORD
      parameter the input comes back as it is; otherwise the variadic entry
      (missing means empty) is removed and its entries are written over the top
      level. A variadic entry that is not a dict has no .items() and raises. */
  function Explode(sig: Signature, p: Parameters): (r: Result<Parameters>)
    ensures r.Err? <==>
      VariadicKey(sig).Some? && VariadicKey(sig).value in p && !p[VariadicKey(sig).value].Dict?
    ensures r.Err? ==> r.error == VariadicNotAMapping
    ensures r.Ok? && VariadicKey(sig).Some? && VariadicKey(sig).value in p ==>
      forall k :: k in r.value ==> k in p || k in p[VariadicKey(sig).value].entries
  {
    match VariadicKey(sig)
    case None => Ok(p)
    case Some(vk) =>
      if vk !in p then Ok(p)
      else if p[vk].Dict? then Ok((p - {vk}) + p[vk].entries)
      else Err(VariadicNotAMapping)
  }

  /** The keys of p that the signature does not have. */
  function Extra(sig: Signature, p: Parameters): (extra: set<string>)
    ensures extra <= p.Keys
    ensures forall k :: k in extra <==> k in p && k !in Names(sig)
  {
    p.Keys - Names(sig)
  }

  /** The dictionary collapse_variadic_parameters returns: unchanged when
      every key is a parameter of the signature; a ValueError when some key is
      not and there is no VAR_KEYWORD parameter; otherwise the extra keys are
      moved into a dict stored under the variadic key. */
  function Collapse(sig: Signature, p: Parameters): (r: Result<Parameters>)
    ensures r.Err? <==> VariadicKey(sig).None? && exists k :: k in p && k !in Names(sig)
    ensures r.Err? ==> r.error == NoVariadicKeyword
    ensures r.Ok? ==> forall k :: k in r.value ==> k in Names(sig)
  {
    var extra := Extra(sig, p);
    if extra == {} then Ok(p)
    else match VariadicKey(sig)
      case None => Err(NoVariadicKeyword)
      case Some(vk) => Ok((p - extra)[vk := Dict(map k | k in extra :: p[k])])
  }

  /** explode_variadic_parameter: copies the dictionary, pops the variadic
      entry and assigns its entries one by one. */
  method ExplodeVariadicParameter(sig: Signature, p: Parameters) returns (r: Result<Parameters>)
    ensures r == Explode(sig, p)
  {
    var vk := FindVariadicKey(sig);
    if vk.None? {
      return Ok(p);
    }
    var key := vk.value;
    var np := p;
    var inner: Parameters := map[];
    if key in np {
      if !np[key].Dict? {
        return Err(VariadicNotAMapping);
      }
      inner := np[key].entries;
      np := np - {key};
    }
    var base := np;
    var todo := inner.Keys;
    while todo != {}
      invariant todo <= inner.Keys
      invariant np == base + (map k | k in inner && k !in todo :: inner[k])
      decreases todo
    {
      var k :| k in todo;
      np := np[k := inner[k]];
      todo := todo - {k};
    }
    assert (map k | k in inner && k !in todo :: inner[k]) == inner;
    assert key !in p ==> np == p;
    return Ok(np);
  }

  /** collapse_variadic_parameters: copies the dictionary and pops every extra
      key into the new variadic dict. */
  method CollapseVariadicParameters(sig: Signature, p: Parameters) returns (r: Result<Parameters>)
    ensures r == Collapse(sig, p)
  {
    var vk := FindVariadicKey(sig);
    var extra := p.Keys - Names(sig);
    if extra == {} {
      return Ok(p);
    }
    if vk.None? {
      return Err(NoVariadicKeyword);
    }
    var np := p;
    var gathered: Parameters := map[];
    var todo := extra;
    while todo != {}
      invariant todo <= extra
      invariant np == p - (extra - todo)
      invariant gathered == map k | k in extra - todo :: p[k]
      decreases todo
    {
      var k :| k in todo;
      gathered := gathered[k := np[k]];
      np := np - {k};
      todo := todo - {k};
    }
    assert extra - todo == extra == Extra(sig, p);
    np := np[vk.value := Dict(gathered)];
    return Ok(np);
  }

  /** Without a VAR_KEYWORD parameter, exploding returns the parameters unchanged. */
  lemma ExplodeWithoutVariadic(sig: Signature, p: Parameters)
    requires forall j :: 0 <= j < |sig| ==> sig[j].kind != VarKeyword
    ensures Explode(sig, p) == Ok(p)
  {
  }

  /** Exploding removes the variadic key, lifts every inner entry to the top
      level (overwriting a key of the same name) and leaves every other key as
      it was. The input is a value, so it is never changed. */
  lemma ExplodeLiftsEntries(sig: Signature, p: Parameters, vk: string)
    requires VariadicKey(sig) == Some(vk) && vk in p && p[vk].Dict?
    ensures Explode(sig, p).Ok?
    ensures var r := Explode(sig, p).value; var inner := p[vk].entries;
      && (forall k :: k in r <==> (k in p && k != vk) || k in inner)
      && (forall k :: k in inner ==> r[k] == inner[k])
      && (forall k :: k in p && k != vk && k !in inner ==> r[k] == p[k])
  {
  }

  /** An absent variadic entry counts as empty: nothing changes. */
  lemma ExplodeAbsentVariadic(sig: Signature, p: Parameters, vk: string)
    requires VariadicKey(sig) == Some(vk) && vk !in p
    ensures Explode(sig, p) == Ok(p)
  {
  }

  /** Parameters whose keys all belong to the signature come back unchanged. */
  lemma CollapseKnownKeys(sig: Signature, p: Parameters)
    requires forall k :: k in p ==> k in Names(sig)
    ensures Collapse(sig, p) == Ok(p)
  {
    assert Extra(sig, p) == {};
  }

  /** Extra keys without a VAR_KEYWORD parameter raise ValueError. */
  lemma CollapseWithoutVariadic(sig: Signature, p: Parameters, k: string)
    requires k in p && k !in Names(sig)
    requires forall j :: 0 <= j < |sig| ==> sig[j].kind != VarKeyword
    ensures Collapse(sig, p) == Err(NoVariadicKeyword)
  {
    assert k in Extra(sig, p);
  }

  /** With extra keys and a VAR_KEYWORD parameter, the signature's keys keep
      their values (except the variadic key itself), the variadic key maps to
      exactly the extra keys with their values, and no extra key is left at the
      top level. */
  lemma CollapseGathersExtra(sig: Signature, p: Parameters, vk: string, x: string)
    requires VariadicKey(sig) == Some(vk)
    requires x in p && x !in Names(sig)
    ensures Collapse(sig, p).Ok?
    ensures var r := Collapse(sig, p).value;
      && (forall k :: k in r <==> k == vk || (k in p && k in Names(sig)))
      && (forall k :: k in p && k in Names(sig) && k != vk ==> r[k] == p[k])
      && r[vk].Dict?
      && (forall k :: k in r[vk].entries <==> k in p && k !in Names(sig))
      && (forall k :: k in r[vk].entries ==> r[vk].entries[k] == p[k])
  {
    VariadicKeyIsName(sig);
    var extra := Extra(sig, p);
    assert x in extra;
    var gathered := map k | k in extra :: p[k];
    assert Collapse(sig, p) == Ok((p - extra)[vk := Dict(gathered)]);
  }

  /** The documented round trip: exploding and then collapsing gives back the
      original dictionary when its keys are the signature's, its variadic dict
      is not empty and none of the variadic dict's keys is a parameter name. */
  lemma {:induction false} CollapseExplodeRoundTrip(sig: Signature, p: Parameters, vk: string)
    requires VariadicKey(sig) == Some(vk)
    requires forall k :: k in p ==> k in Names(sig)
    requires vk in p && p[vk].Dict? && p[vk].entries != map[]
    requires forall k :: k in p[vk].entries ==> k !in Names(sig)
    ensures Explode(sig, p).Ok?
    ensures Collapse(sig, Explode(sig, p).value) == Ok(p)
  {
    var inner := p[vk].entries;
    var q := (p - {vk}) + inner;
    assert Explode(sig, p) == Ok(q);
    ExplodedExtra(sig, p - {vk}, inner);
    var x :| x in inner;
    assert x in Extra(sig, q);
    assert Collapse(sig, q) == Ok((q - inner.Keys)[vk := Dict(map k | k in inner.Keys :: q[k])]);
    LiftThenGather(p, vk, inner);
  }

  /** Lifting entries whose keys are not parameter names over parameters whose
      keys all are: the extra keys are exactly the lifted ones. */
  lemma ExplodedExtra(sig: Signature, known: Parameters, inner: Parameters)
    requires forall k :: k in known ==> k in Names(sig)
    requires forall k :: k in inner ==> k !in Names(sig)
    ensures Extra(sig, known + inner) == inner.Keys
  {
  }

  /** Lifting a nested dict whose keys are new and gathering those keys back
      under the same key restores the dictionary. */
  lemma LiftThenGather(p: Parameters, vk: string, inner: Parameters)
    requires vk in p && p[vk] == Dict(inner)
    requires forall k :: k in inner ==> k !in p
    ensures var q := (p - {vk}) + inner;
      (q - inner.Keys)[vk := Dict(map k | k in inner.Keys :: q[k])] == p
  {
    var q := (p - {vk}) + inner;
    assert (map k | k in inner.Keys :: q[k]) == inner;
    assert q - inner.Keys == p - {vk};
  }

  /** The other direction: collapsing some extra keys and then exploding gives
      back the original dictionary when it had no variadic entry of its own. */
  lemma {:induction false} ExplodeCollapseRoundTrip(sig: Signature, p: Parameters, vk: string)
    requires VariadicKey(sig) == Some(vk) && vk !in p
    ensures Collapse(sig, p).Ok?
    ensures Explode(sig, Collapse(sig, p).value) == Ok(p)
  {
    var extra := Extra(sig, p);
    if extra == {} {
      assert Collapse(sig, p) == Ok(p);
      return;
    }
    var q := (p - extra)[vk := Dict(map k | k in extra :: p[k])];
    assert Collapse(sig, p) == Ok(q);
    GatherThenLift(p, vk, extra);
  }

  /** Gathering some keys under a new key and lifting them back out restores
      the dictionary. */
  lemma GatherThenLift(p: Parameters, vk: string, extra: set<string>)
    requires vk !in p && extra <= p.Keys
    ensures var gathered := map k | k in extra :: p[k];
      var q := (p - extra)[vk := Dict(gathered)];
      vk in q && (q - {vk}) + gathered == p
  {
    var gathered := map k | k in extra :: p[k];
    var q := (p - extra)[vk := Dict(gathered)];
    assert q - {vk} == p - extra;
  }

  /** Collapsed parameters always pass the unknown-key guard of
      parameters_to_args_kwargs. */
  lemma CollapsedAreKnown(sig: Signature, p: Parameters)
    requires Collapse(sig, p).Ok?
    ensures CheckKnownParameters(sig, Collapse(sig, p).value) == Pass
  {
    if Extra(sig, p) == {} {
      assert forall k :: k in p ==> k in Names(sig);
    } else {
      VariadicKeyIsName(sig);
    }
  }

  /** The signature of the docstring examples: def foo(a, b, **kwargs). */
  const Foo: Signature := [
    Parameter("a", PositionalOrKeyword, None),
    Parameter("b", PositionalOrKeyword, None),
    Parameter("kwargs", VarKeyword, None)]

  /** The names and the variadic key of Foo. */
  lemma FooShape()
    ensures Names(Foo) == {"a", "b", "kwargs"}
    ensures VariadicKey(Foo) == Some("kwargs")
  {
    assert Foo[0].name == "a" && Foo[1].name == "b" && Foo[2].name == "kwargs";
  }

  /** The dictionaries of the docstring examples. */
  const Flat: Parameters := map["a" := Atom(1), "b" := Atom(2), "c" := Atom(3), "d" := Atom(4)]
  const Nested: Parameters :=
    map["a" := Atom(1), "b" := Atom(2), "kwargs" := Dict(map["c" := Atom(3), "d" := Atom(4)])]

  /** How the two dictionaries are made of the same pieces, one fact per lemma
      so that each stays small. */
  lemma DocKept()
    ensures Nested - {"kwargs"} == map["a" := Atom(1), "b" := Atom(2)]
  {
  }

  lemma DocJoin()
    ensures map["a" := Atom(1), "b" := Atom(2)] + map["c" := Atom(3), "d" := Atom(4)] == Flat
  {
  }

  lemma DocExtra()
    ensures Extra(Foo, Flat) == {"c", "d"}
  {
    FooShape();
  }

  lemma DocGather()
    ensures Flat - {"c", "d"} == map["a" := Atom(1), "b" := Atom(2)]
    ensures (map k | k in {"c", "d"} :: Flat[k]) == map["c" := Atom(3), "d" := Atom(4)]
    ensures map["a" := Atom(1), "b" := Atom(2)]["kwargs" := Dict(map["c" := Atom(3), "d" := Atom(4)])] == Nested
  {
  }

  /** The docstring example of explode_variadic_parameter. */
  lemma ExplodeDocExample()
    ensures Explode(Foo, Nested) == Ok(Flat)
  {
    FooShape();
    DocKept();
    DocJoin();
  }

  /** The docstring example of collapse_variadic_parameters. */
  lemma CollapseDocExample()
    ensures Collapse(Foo, Flat) == Ok(Nested)
  {
    FooShape();
    DocExtra();
    DocGather();
    var extra := Extra(Foo, Flat);
    assert (map k | k in extra :: Flat[k]) == (map k | k in {"c", "d"} :: Flat[k]);
    assert Collapse(Foo, Flat) == Ok((Flat - extra)["kwargs" := Dict(map k | k in extra :: Flat[k])]);
  }
}
