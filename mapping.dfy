/** expand_mapping_parameters: turning one parameter dictionary that holds
    iterables into the list of per-call dictionaries of a mapped task run. */
module Mapping {
  import opened Results
  import opened Signatures
  import opened Variadic

  /** isiterable of prefect.utilities.collections, which is not part of this
      model: here exactly the list/tuple values are iterable. */
  predicate IsIterable(v: Value) {
    v.Items?
  }

  /** allow_failure and quote are the annotations that are unwrapped before
      classification and rewrapped around each call's value. */
  predicate IsAnnotation(v: Value) {
    v.AllowFailure? || v.Quote?
  }

  /** annotation.rewrap(v): the same annotation around a new value. */
  function Rewrap(annotation: Value, v: Value): (r: Value)
    ensures IsAnnotation(annotation) ==>
      IsAnnotation(r) && r.value == v && (r.AllowFailure? <==> annotation.AllowFailure?)
    ensures !IsAnnotation(annotation) ==> r == v
  {
    if annotation.AllowFailure? then AllowFailure(v)
    else if annotation.Quote? then Quote(v)
    else v
  }

  /** annotation.unwrap(): one layer of allow_failure or quote is removed, and
      rewrapping the result gives back the annotation. */
  function Unwrap(v: Value): (r: Value)
    ensures IsAnnotation(v) ==> Rewrap(v, r) == v
    ensures !IsAnnotation(v) ==> r == v
  {
    if IsAnnotation(v) then v.value else v
  }

  /** A parameter is mapped over when its unwrapped value is iterable and not unmapped. */
  predicate IsMapped(v: Value) {
    var u := Unwrap(v);
    !u.Unmapped? && IsIterable(u)
  }

  /** The value a static parameter contributes to every call: unmapped(x) gives x. */
  function StaticValue(v: Value): Value {
    var u := Unwrap(v);
    if u.Unmapped? then u.value else u
  }

  /** iterable_parameters, static_parameters and annotated_parameters as the
      classification loop leaves them. */
  function IterableParameters(q: Parameters): map<string, seq<Value>> {
    map k | k in q && IsMapped(q[k]) :: Unwrap(q[k]).elems
  }

  function StaticParameters(q: Parameters): Parameters {
    map k | k in q && !IsMapped(q[k]) :: StaticValue(q[k])
  }

  function AnnotatedParameters(q: Parameters): Parameters {
    map k | k in q && IsAnnotation(q[k]) :: q[k]
  }

  /** The set of lengths of the iterable parameters. */
  function Lengths(it: map<string, seq<Value>>): set<nat> {
    set k | k in it :: |it[k]|
  }

  /** Every iterable parameter has length n. */
  predicate Uniform(it: map<string, seq<Value>>, n: nat) {
    forall k :: k in it ==> |it[k]| == n
  }

  /** Re-applying the annotations: annotated keys get their annotation back
      around the call's value, other keys are kept. */
  function Reannotate(call: Parameters, ann: Parameters): Parameters {
    map k | k in call :: if k in ann then Rewrap(ann[k], call[k]) else call[k]
  }

  /** Call i before collapsing: the i-th element of every iterable, every
      static value, missing keys filled from the defaults, annotations rewrapped. */
  function CallAt(it: map<string, seq<Value>>, st: Parameters, ann: Parameters,
                  defaults: Parameters, i: nat): Parameters
    requires forall k :: k in it ==> i < |it[k]|
  {
    var base := (map k | k in it :: it[k][i]) + st;
    Reannotate(defaults + base, ann)
  }

  /** The n calls before collapsing. */
  function Calls(it: map<string, seq<Value>>, st: Parameters, ann: Parameters,
                 defaults: Parameters, n: nat): (cs: seq<Parameters>)
    requires Uniform(it, n)
    ensures |cs| == n
  {
    seq(n, i requires 0 <= i < n => CallAt(it, st, ann, defaults, i))
  }

  /** Collapsing every call in order; the first failure is raised. */
  function CollapseEach(sig: Signature, calls: seq<Parameters>): Result<seq<Parameters>> {
    if |calls| == 0 then Ok([])
    else
      match CollapseEach(sig, calls[..|calls| - 1])
      case Err(e) => Err(e)
      case Ok(done) =>
        match Collapse(sig, calls[|calls| - 1])
        case Err(e) => Err(e)
        case Ok(c) => Ok(done + [c])
  }

  /** The result of expand_mapping_parameters. */
  ghost function ExpandMapping(sig: Signature, p: Parameters): (r: Result<seq<Parameters>>)
    ensures r.Err? ==>
      r.error in {VariadicNotAMapping, MappingMissingIterable, MappingLengthMismatch, NoVariadicKeyword}
  {
    match Explode(sig, p)
    case Err(e) => Err(e)
    case Ok(q) =>
      var it := IterableParameters(q);
      if it == map[] then Err(MappingMissingIterable)
      else if |Lengths(it)| > 1 then Err(MappingLengthMismatch)
      else
        LengthsSingleton(it);
        var n := MapLength(it);
        var calls := Calls(it, StaticParameters(q), AnnotatedParameters(q), Defaults(sig), n);
        CollapseEachOutcome(sig, calls);
        CollapseEach(sig, calls)
  }

  /** list(lengths)[0]: the one length of the iterable parameters. */
  ghost function MapLength(it: map<string, seq<Value>>): (n: nat)
    requires it != map[] && |Lengths(it)| <= 1
    ensures n in Lengths(it) && Uniform(it, n)
  {
    var k :| k in it;
    assert |it[k]| in Lengths(it);
    var n :| n in Lengths(it);
    LengthsSingleton(it);
    n
  }

  /** A set of lengths with at most one element has no two different members,
      so every iterable has that length. */
  lemma LengthsSingleton(it: map<string, seq<Value>>)
    requires |Lengths(it)| <= 1
    ensures forall a, b :: a in Lengths(it) && b in Lengths(it) ==> a == b
    ensures forall n :: n in Lengths(it) ==> Uniform(it, n)
  {
    var lengths := Lengths(it);
    forall a, b | a in lengths && b in lengths ensures a == b {
      assert |lengths - {a}| == |lengths| - 1;
      assert lengths - {a} == {};
    }
    forall n, k | n in lengths && k in it ensures |it[k]| == n {
      assert |it[k]| in lengths;
    }
  }

  /** len(lengths) > 1 holds exactly when two iterable parameters differ in length. */
  lemma LengthsMismatch(it: map<string, seq<Value>>)
    ensures |Lengths(it)| > 1 <==> exists k1, k2 :: k1 in it && k2 in it && |it[k1]| != |it[k2]|
  {
    var lengths := Lengths(it);
    if |lengths| > 1 {
      var a :| a in lengths;
      assert |lengths - {a}| == |lengths| - 1;
      var b :| b in lengths - {a};
      var k1 :| k1 in it && |it[k1]| == a;
      var k2 :| k2 in it && |it[k2]| == b;
    }
    if exists k1, k2 :: k1 in it && k2 in it && |it[k1]| != |it[k2]| {
      var k1, k2 :| k1 in it && k2 in it && |it[k1]| != |it[k2]|;
      assert |it[k1]| in lengths;
      assert |lengths - {|it[k1]|}| == |lengths| - 1;
      assert |it[k2]| in lengths - {|it[k1]|};
    }
  }

  /** A failure in a prefix of the calls is the failure of the whole list. */
  lemma {:induction false} CollapseEachKeepsError(sig: Signature, calls: seq<Parameters>, j: nat)
    requires j <= |calls| && CollapseEach(sig, calls[..j]).Err?
    ensures CollapseEach(sig, calls) == CollapseEach(sig, calls[..j])
    decreases |calls| - j
  {
    if j < |calls| {
      assert calls[..j + 1][..j] == calls[..j];
      CollapseEachKeepsError(sig, calls, j + 1);
    } else {
      assert calls[..j] == calls;
    }
  }

  /** One more call in the prefix: its collapse is appended, or its error raised. */
  lemma CollapseEachStep(sig: Signature, calls: seq<Parameters>, i: nat, done: seq<Parameters>)
    requires i < |calls| && CollapseEach(sig, calls[..i]) == Ok(done)
    ensures CollapseEach(sig, calls[..i + 1]) ==
      match Collapse(sig, calls[i])
      case Err(e) => Err(e)
      case Ok(c) => Ok(done + [c])
  {
    assert calls[..i + 1][..i] == calls[..i];
  }

  /** Success collapses every call; the only error is collapse's ValueError. */
  lemma {:induction false} CollapseEachOutcome(sig: Signature, calls: seq<Parameters>)
    ensures CollapseEach(sig, calls).Ok? ==>
      |CollapseEach(sig, calls).value| == |calls| &&
      forall i :: 0 <= i < |calls| ==> Collapse(sig, calls[i]) == Ok(CollapseEach(sig, calls).value[i])
    ensures CollapseEach(sig, calls).Err? ==>
      CollapseEach(sig, calls).error == NoVariadicKeyword &&
      exists i :: 0 <= i < |calls| && Collapse(sig, calls[i]).Err?
  {
    if |calls| > 0 {
      var init := calls[..|calls| - 1];
      CollapseEachOutcome(sig, init);
      assert forall i :: 0 <= i < |init| ==> init[i] == calls[i];
    }
  }

  /** The classification loop over the parameter keys. */
  method Classify(q: Parameters)
    returns (iterables: map<string, seq<Value>>, statics: Parameters, annotated: Parameters)
    ensures iterables == IterableParameters(q)
    ensures statics == StaticParameters(q)
    ensures annotated == AnnotatedParameters(q)
  {
    iterables, statics, annotated := map[], map[], map[];
    var todo := q.Keys;
    while todo != {}
      invariant todo <= q.Keys
      invariant iterables == IterableParameters(q - todo)
      invariant statics == StaticParameters(q - todo)
      invariant annotated == AnnotatedParameters(q - todo)
      decreases todo
    {
      var key :| key in todo;
      var v := q[key];
      if IsAnnotation(v) {
        annotated := annotated[key := v];
        v := v.value;
      }
      if v.Unmapped? {
        statics := statics[key := v.value];
      } else if IsIterable(v) {
        iterables := iterables[key := v.elems];
      } else {
        statics := statics[key := v];
      }
      assert q - (todo - {key}) == (q - todo)[key := q[key]];
      ClassifyStep(q - todo, key, q[key]);
      todo := todo - {key};
    }
    assert q - todo == q;
  }

  /** Adding one key to the classified parameters adds it to exactly the
      classes its value belongs to. */
  lemma ClassifyStep(m: Parameters, key: string, v: Value)
    requires key !in m
    ensures IterableParameters(m[key := v]) ==
      if IsMapped(v) then IterableParameters(m)[key := Unwrap(v).elems] else IterableParameters(m)
    ensures StaticParameters(m[key := v]) ==
      if IsMapped(v) then StaticParameters(m) else StaticParameters(m)[key := StaticValue(v)]
    ensures AnnotatedParameters(m[key := v]) ==
      if IsAnnotation(v) then AnnotatedParameters(m)[key := v] else AnnotatedParameters(m)
  {
  }

  /** The setdefault loop: defaults fill only the keys the call lacks. */
  method FillDefaults(call: Parameters, defaults: Parameters) returns (r: Parameters)
    ensures r == defaults + call
  {
    r := call;
    var todo := defaults.Keys;
    while todo != {}
      invariant todo <= defaults.Keys
      invariant r == (map k | k in defaults && k !in todo :: defaults[k]) + call
      decreases todo
    {
      var key :| key in todo;
      if key !in r {
        r := r[key := defaults[key]];
      }
      todo := todo - {key};
    }
    assert (map k | k in defaults && k !in todo :: defaults[k]) == defaults;
  }

  /** The loop that puts each annotation back around the call's value. */
  method ReapplyAnnotations(call: Parameters, annotated: Parameters) returns (r: Parameters)
    requires annotated.Keys <= call.Keys
    ensures r == Reannotate(call, annotated)
  {
    r := call;
    var todo := annotated.Keys;
    while todo != {}
      invariant todo <= annotated.Keys
      invariant r == map k | k in call ::
        if k in annotated && k !in todo then Rewrap(annotated[k], call[k]) else call[k]
      decreases todo
    {
      var key :| key in todo;
      r := r[key := Rewrap(annotated[key], r[key])];
      todo := todo - {key};
    }
  }

  /** Every key of the parameters is either iterable or static, and every
      annotated key is one of them. */
  lemma ClassifiedKeys(q: Parameters)
    ensures IterableParameters(q).Keys + StaticParameters(q).Keys == q.Keys
    ensures AnnotatedParameters(q).Keys <= q.Keys
  {
  }

  /** The body of the `for i in range(map_length)` loop up to the collapse. */
  method BuildCall(sig: Signature, iterables: map<string, seq<Value>>, statics: Parameters,
                   annotated: Parameters, i: nat) returns (call: Parameters)
    requires forall k :: k in iterables ==> i < |iterables[k]|
    requires annotated.Keys <= iterables.Keys + statics.Keys
    ensures call == CallAt(iterables, statics, annotated, Defaults(sig), i)
  {
    call := map k | k in iterables :: iterables[k][i];
    call := call + statics;
    var defaults := GetParameterDefaults(sig);
    call := FillDefaults(call, defaults);
    call := ReapplyAnnotations(call, annotated);
  }

  /** The `for i in range(map_length)` loop: build each call and collapse it,
      stopping at the first failure. */
  method CollapseCalls(sig: Signature, iterables: map<string, seq<Value>>, statics: Parameters,
                       annotated: Parameters, n: nat) returns (r: Result<seq<Parameters>>)
    requires Uniform(iterables, n)
    requires annotated.Keys <= iterables.Keys + statics.Keys
    ensures r == CollapseEach(sig, Calls(iterables, statics, annotated, Defaults(sig), n))
  {
    ghost var calls := Calls(iterables, statics, annotated, Defaults(sig), n);
    var results: seq<Parameters> := [];
    for i := 0 to n
      invariant CollapseEach(sig, calls[..i]) == Ok(results)
    {
      var call := BuildCall(sig, iterables, statics, annotated, i);
      assert call == calls[i];
      var collapsed := CollapseVariadicParameters(sig, call);
      CollapseEachStep(sig, calls, i, results);
      if collapsed.Err? {
        CollapseEachKeepsError(sig, calls, i + 1);
        return Err(collapsed.error);
      }
      results := results + [collapsed.value];
    }
    assert calls[..n] == calls;
    return Ok(results);
  }

  /** expand_mapping_parameters. */
  method ExpandMappingParameters(sig: Signature, p: Parameters) returns (r: Result<seq<Parameters>>)
    ensures r == ExpandMapping(sig, p)
  {
    var exploded := ExplodeVariadicParameter(sig, p);
    if exploded.Err? {
      return Err(exploded.error);
    }
    var q := exploded.value;
    var iterables, statics, annotated := Classify(q);
    if iterables == map[] {
      return Err(MappingMissingIterable);
    }
    var lengths := set k | k in iterables :: |iterables[k]|;
    if |lengths| > 1 {
      return Err(MappingLengthMismatch);
    }
    LengthsSingleton(iterables);
    var k0 :| k0 in iterables.Keys;
    assert |iterables[k0]| in lengths;
    var n :| n in lengths;
    ClassifiedKeys(q);
    r := CollapseCalls(sig, iterables, statics, annotated, n);
  }

  /** MappingMissingIterable is raised exactly when no parameter (after
      exploding **kwargs and unwrapping annotations) is an iterable that is
      not unmapped. */
  lemma ExpandMissingIterable(sig: Signature, p: Parameters, q: Parameters)
    requires Explode(sig, p) == Ok(q)
    ensures ExpandMapping(sig, p) == Err(MappingMissingIterable) <==>
      forall k :: k in q ==> !IsMapped(q[k])
  {
    var it := IterableParameters(q);
    if it != map[] {
      var k :| k in it;
      if |Lengths(it)| <= 1 {
        LengthsSingleton(it);
        CollapseEachOutcome(sig, Calls(it, StaticParameters(q), AnnotatedParameters(q), Defaults(sig), MapLength(it)));
      }
    } else {
      forall k | k in q ensures !IsMapped(q[k]) {
        assert k !in it;
      }
    }
  }

  /** With at least one mapped parameter, MappingLengthMismatch is raised
      exactly when two mapped parameters have different lengths. */
  lemma ExpandLengthMismatch(sig: Signature, p: Parameters, q: Parameters, k0: string)
    requires Explode(sig, p) == Ok(q) && k0 in q && IsMapped(q[k0])
    ensures ExpandMapping(sig, p) == Err(MappingLengthMismatch) <==>
      exists k1, k2 :: k1 in q && k2 in q && IsMapped(q[k1]) && IsMapped(q[k2]) &&
        |Unwrap(q[k1]).elems| != |Unwrap(q[k2]).elems|
  {
    var it := IterableParameters(q);
    assert k0 in it;
    LengthsMismatch(it);
    if |Lengths(it)| <= 1 {
      LengthsSingleton(it);
      CollapseEachOutcome(sig, Calls(it, StaticParameters(q), AnnotatedParameters(q), Defaults(sig), MapLength(it)));
    }
    if exists k1, k2 :: k1 in q && k2 in q && IsMapped(q[k1]) && IsMapped(q[k2]) &&
        |Unwrap(q[k1]).elems| != |Unwrap(q[k2]).elems| {
      var k1, k2 :| k1 in q && k2 in q && IsMapped(q[k1]) && IsMapped(q[k2]) &&
        |Unwrap(q[k1]).elems| != |Unwrap(q[k2]).elems|;
      assert k1 in it && k2 in it;
    }
  }

  /** When the mapped parameters all have length n, the result is the
      collapse of the n calls. */
  lemma ExpandIsCollapseEach(sig: Signature, p: Parameters, q: Parameters, k0: string, n: nat)
    requires Explode(sig, p) == Ok(q) && k0 in q && IsMapped(q[k0])
    requires forall k :: k in q && IsMapped(q[k]) ==> |Unwrap(q[k]).elems| == n
    ensures Uniform(IterableParameters(q), n)
    ensures ExpandMapping(sig, p) ==
      CollapseEach(sig, Calls(IterableParameters(q), StaticParameters(q), AnnotatedParameters(q), Defaults(sig), n))
  {
    var it := IterableParameters(q);
    assert k0 in it;
    assert Uniform(it, n);
    LengthsMismatch(it);
    LengthsSingleton(it);
    assert |it[k0]| in Lengths(it);
    assert MapLength(it) == n;
  }

  /** When the mapped parameters all have length n, the result is the n calls,
      each collapsed; the only possible error is collapse's ValueError, and it
      needs at least one call. */
  lemma ExpandCalls(sig: Signature, p: Parameters, q: Parameters, k0: string, n: nat)
    requires Explode(sig, p) == Ok(q) && k0 in q && IsMapped(q[k0])
    requires forall k :: k in q && IsMapped(q[k]) ==> |Unwrap(q[k]).elems| == n
    ensures var calls := Calls(IterableParameters(q), StaticParameters(q), AnnotatedParameters(q), Defaults(sig), n);
      var r := ExpandMapping(sig, p);
      && (r.Ok? ==> |r.value| == n && forall i :: 0 <= i < n ==> Collapse(sig, calls[i]) == Ok(r.value[i]))
      && (r.Err? ==> r.error == NoVariadicKeyword && n > 0)
  {
    ExpandIsCollapseEach(sig, p, q, k0, n);
    CollapseEachOutcome(sig, Calls(IterableParameters(q), StaticParameters(q), AnnotatedParameters(q), Defaults(sig), n));
  }

  /** Calls that all collapse to themselves are returned as they are. */
  lemma {:induction false} CollapseEachUnchanged(sig: Signature, calls: seq<Parameters>)
    requires forall i :: 0 <= i < |calls| ==> Collapse(sig, calls[i]) == Ok(calls[i])
    ensures CollapseEach(sig, calls) == Ok(calls)
  {
    if |calls| > 0 {
      var init := calls[..|calls| - 1];
      var last := calls[|calls| - 1];
      forall i | 0 <= i < |init| ensures Collapse(sig, init[i]) == Ok(init[i]) {
        assert init[i] == calls[i];
      }
      CollapseEachUnchanged(sig, init);
      assert Collapse(sig, last) == Ok(last);
      assert CollapseEach(sig, calls) == Ok(init + [last]);
      assert init + [last] == calls;
    }
  }

  /** When every exploded key is a signature name, no collapsing happens and
      the result is exactly the n calls. */
  lemma ExpandKnownKeys(sig: Signature, p: Parameters, q: Parameters, k0: string, n: nat)
    requires Explode(sig, p) == Ok(q) && k0 in q && IsMapped(q[k0])
    requires forall k :: k in q && IsMapped(q[k]) ==> |Unwrap(q[k]).elems| == n
    requires forall k :: k in q ==> k in Names(sig)
    ensures ExpandMapping(sig, p) ==
      Ok(Calls(IterableParameters(q), StaticParameters(q), AnnotatedParameters(q), Defaults(sig), n))
  {
    ExpandIsCollapseEach(sig, p, q, k0, n);
    KnownCallsUnchanged(sig, q, n);
    CollapseEachUnchanged(sig, Calls(IterableParameters(q), StaticParameters(q), AnnotatedParameters(q), Defaults(sig), n));
  }

  /** Calls whose keys are all parameter names collapse to themselves. */
  lemma KnownCallsUnchanged(sig: Signature, q: Parameters, n: nat)
    requires Uniform(IterableParameters(q), n)
    requires forall k :: k in q ==> k in Names(sig)
    ensures var calls := Calls(IterableParameters(q), StaticParameters(q), AnnotatedParameters(q), Defaults(sig), n);
      forall i :: 0 <= i < n ==> Collapse(sig, calls[i]) == Ok(calls[i])
  {
    var calls := Calls(IterableParameters(q), StaticParameters(q), AnnotatedParameters(q), Defaults(sig), n);
    forall i | 0 <= i < n ensures Collapse(sig, calls[i]) == Ok(calls[i]) {
      CallKeys(sig, q, n, i);
      CollapseKnownKeys(sig, calls[i]);
    }
  }

  /** Call i holds every exploded key and every defaulted key and nothing
      else. A mapped key holds its i-th element; a static key the same value
      in every call (the inner value of unmapped); a default only fills a key
      the parameters lack; an annotated key is rewrapped around its value. */
  lemma CallEntries(sig: Signature, q: Parameters, n: nat, i: nat)
    requires Uniform(IterableParameters(q), n) && i < n
    ensures var c := CallAt(IterableParameters(q), StaticParameters(q), AnnotatedParameters(q), Defaults(sig), i);
      && (forall k :: k in c <==> k in q || k in Defaults(sig))
      && (forall k :: k in q && IsMapped(q[k]) ==>
            c[k] == if IsAnnotation(q[k]) then Rewrap(q[k], Unwrap(q[k]).elems[i]) else Unwrap(q[k]).elems[i])
      && (forall k :: k in q && !IsMapped(q[k]) ==>
            c[k] == if IsAnnotation(q[k]) then Rewrap(q[k], StaticValue(q[k])) else StaticValue(q[k]))
      && (forall k :: k !in q && k in Defaults(sig) ==> c[k] == Defaults(sig)[k])
  {
    CallKeys(sig, q, n, i);
  }

  /** The keys of call i: the exploded keys and the defaulted ones. */
  lemma CallKeys(sig: Signature, q: Parameters, n: nat, i: nat)
    requires Uniform(IterableParameters(q), n) && i < n
    ensures CallAt(IterableParameters(q), StaticParameters(q), AnnotatedParameters(q), Defaults(sig), i).Keys
      == q.Keys + Defaults(sig).Keys
  {
    ClassifiedKeys(q);
  }

  /** Every call that expand_mapping_parameters returns passes the unknown-key
      guard of parameters_to_args_kwargs. */
  lemma ExpandedCallsAreKnown(sig: Signature, p: Parameters, i: nat)
    requires ExpandMapping(sig, p).Ok? && i < |ExpandMapping(sig, p).value|
    ensures CheckKnownParameters(sig, ExpandMapping(sig, p).value[i]) == Pass
  {
    var q := Explode(sig, p).value;
    var it := IterableParameters(q);
    LengthsSingleton(it);
    var calls := Calls(it, StaticParameters(q), AnnotatedParameters(q), Defaults(sig), MapLength(it));
    CollapseEachOutcome(sig, calls);
    assert Collapse(sig, calls[i]) == Ok(ExpandMapping(sig, p).value[i]);
  }
}
