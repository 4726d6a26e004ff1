/** Call parameters and function signatures as seen by the parameter utilities
    of prefect.utilities.callables, with the helpers that only read a signature:
    the variadic-keyword lookup, get_parameter_defaults, raise_for_reserved_arguments
    and the unknown-key guard of parameters_to_args_kwargs. */
module Signatures {
  import opened Results

  /** A parameter value. Atom stands for any object that is not iterable; Items
      for a list or tuple; Dict for a dict (the value bound to a **kwargs
      parameter); Unmapped, AllowFailure and Quote for the annotation wrappers
      of prefect.utilities.annotations, each holding one wrapped value. */
  datatype Value =
    | Atom(id: int)
    | Items(elems: seq<Value>)
    | Dict(entries: map<string, Value>)
    | Unmapped(value: Value)
    | AllowFailure(value: Value)
    | Quote(value: Value)

  /** inspect.Parameter kinds. */
  datatype Kind = PositionalOnly | PositionalOrKeyword | VarPositional | KeywordOnly | VarKeyword

  /** One entry of inspect.signature(fn).parameters; `default` is None for
      inspect.Parameter.empty. */
  datatype Parameter = Parameter(name: string, kind: Kind, default: Option<Value>)

  /** The ordered parameters of a signature. */
  type Signature = seq<Parameter>

  /** A parameter dictionary: parameter name to bound value. */
  type Parameters = map<string, Value>

  /** The keys of signature.parameters. */
  function Names(sig: Signature): (names: set<string>)
    ensures forall j :: 0 <= j < |sig| ==> sig[j].name in names
    ensures forall k :: k in names ==> exists j :: 0 <= j < |sig| && sig[j].name == k
  {
    set j | 0 <= j < |sig| :: sig[j].name
  }

  /** Python signatures never repeat a parameter name. */
  predicate DistinctNames(sig: Signature) {
    forall i, j :: 0 <= i < j < |sig| ==> sig[i].name != sig[j].name
  }

  /** The name of the first VAR_KEYWORD parameter, if there is one. */
  function VariadicKey(sig: Signature): (r: Option<string>)
    ensures r.None? <==> forall j :: 0 <= j < |sig| ==> sig[j].kind != VarKeyword
    ensures r.Some? ==>
      exists j :: 0 <= j < |sig| && sig[j].kind == VarKeyword && sig[j].name == r.value &&
        forall l :: 0 <= l < j ==> sig[l].kind != VarKeyword
  {
    if |sig| == 0 then None
    else if sig[0].kind == VarKeyword then Some(sig[0].name)
    else
      var r := VariadicKey(sig[1..]);
      assert forall j :: 1 <= j < |sig| ==> sig[j] == sig[1..][j - 1];
      if r.Some? then
        var j :| 0 <= j < |sig[1..]| && sig[1..][j].kind == VarKeyword && sig[1..][j].name == r.value &&
          forall l :: 0 <= l < j ==> sig[1..][l].kind != VarKeyword;
        assert sig[j + 1].kind == VarKeyword && sig[j + 1].name == r.value;
        assert forall l :: 0 <= l < j + 1 ==> sig[l].kind != VarKeyword;
        r
      else r
  }

  /** The variadic key is itself one of the signature's names. */
  lemma VariadicKeyIsName(sig: Signature)
    requires VariadicKey(sig).Some?
    ensures VariadicKey(sig).value in Names(sig)
  {
  }

  /** The loop of explode/collapse_variadic_parameters that looks for the
      VAR_KEYWORD parameter and stops at the first one. */
  method FindVariadicKey(sig: Signature) returns (r: Option<string>)
    ensures r == VariadicKey(sig)
  {
    r := None;
    var i := 0;
    while i < |sig|
      invariant 0 <= i <= |sig|
      invariant forall l :: 0 <= l < i ==> sig[l].kind != VarKeyword
    {
      if sig[i].kind == VarKeyword {
        r := Some(sig[i].name);
        return;
      }
      i := i + 1;
    }
  }

  /** The defaults dictionary built by get_parameter_defaults: a later
      parameter of the same name would overwrite an earlier one. */
  function Defaults(sig: Signature): (d: Parameters)
    ensures d.Keys <= Names(sig)
  {
    if |sig| == 0 then map[]
    else
      var d := Defaults(sig[..|sig| - 1]);
      var p := sig[|sig| - 1];
      assert forall j :: 0 <= j < |sig| - 1 ==> sig[..|sig| - 1][j] == sig[j];
      if p.default.Some? then d[p.name := p.default.value] else d
  }

  /** The defaults dictionary holds exactly the parameters that have a
      default, each with its own default value. */
  lemma {:induction false} DefaultsExactly(sig: Signature)
    requires DistinctNames(sig)
    ensures forall k :: k in Defaults(sig) <==>
      exists j :: 0 <= j < |sig| && sig[j].name == k && sig[j].default.Some?
    ensures forall j :: 0 <= j < |sig| && sig[j].default.Some? ==>
      Defaults(sig)[sig[j].name] == sig[j].default.value
  {
    if |sig| > 0 {
      var init := sig[..|sig| - 1];
      var last := sig[|sig| - 1];
      assert forall j :: 0 <= j < |init| ==> init[j] == sig[j];
      assert DistinctNames(init);
      DefaultsExactly(init);
      var d := Defaults(sig);
      assert d == if last.default.Some? then Defaults(init)[last.name := last.default.value] else Defaults(init);
      forall k | k in d ensures exists j :: 0 <= j < |sig| && sig[j].name == k && sig[j].default.Some? {
        if !(last.default.Some? && k == last.name) {
          var j :| 0 <= j < |init| && init[j].name == k && init[j].default.Some?;
          assert sig[j].name == k;
        }
      }
      forall j | 0 <= j < |sig| && sig[j].default.Some? ensures sig[j].name in d && d[sig[j].name] == sig[j].default.value {
        if j < |sig| - 1 {
          assert init[j] == sig[j];
          assert sig[j].name != last.name;
        }
      }
    }
  }

  /** get_parameter_defaults: one pass over the signature filling a dict. */
  method GetParameterDefaults(sig: Signature) returns (d: Parameters)
    ensures d == Defaults(sig)
  {
    d := map[];
    for i := 0 to |sig|
      invariant d == Defaults(sig[..i])
    {
      assert sig[..i + 1][..i] == sig[..i];
      if sig[i].default.Some? {
        d := d[sig[i].name := sig[i].default.value];
      }
    }
    assert sig[..|sig|] == sig;
  }

  /** raise_for_reserved_arguments: walks the reserved names in order and
      raises for the first one that the signature uses. */
  method RaiseForReservedArguments(sig: Signature, reserved: seq<string>) returns (r: Outcome)
    ensures r == Pass <==> forall j :: 0 <= j < |reserved| ==> reserved[j] !in Names(sig)
    ensures r.Fail? ==>
      exists j :: 0 <= j < |reserved| && reserved[j] in Names(sig) &&
        r.error == ReservedArgument(reserved[j]) &&
        forall l :: 0 <= l < j ==> reserved[l] !in Names(sig)
  {
    var names := Names(sig);
    for i := 0 to |reserved|
      invariant forall l :: 0 <= l < i ==> reserved[l] !in names
    {
      if reserved[i] in names {
        return Fail(ReservedArgument(reserved[i]));
      }
    }
    return Pass;
  }

  /** The guard at the start of parameters_to_args_kwargs: parameters whose
      names the signature does not have raise SignatureMismatchError. */
  function CheckKnownParameters(sig: Signature, p: Parameters): (r: Outcome)
    ensures r == Pass <==> forall k :: k in p ==> k in Names(sig)
    ensures r.Fail? ==> r.error == SignatureMismatch && exists k :: k in p && k !in Names(sig)
  {
    var unknown := p.Keys - Names(sig);
    if unknown != {} then Fail(SignatureMismatch)
    else
      assert forall k :: k in p ==> k !in unknown;
      Pass
  }
}
