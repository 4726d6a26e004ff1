# Prefect parameter mapping and server states, in Dafny

This project models two pieces of Prefect.

The first is the parameter plumbing of `prefect.utilities.callables`. It covers:

- how a parameter dictionary is checked against a function signature;
- how the entries of a `**kwargs` parameter are moved to the top level and back (`explode_variadic_parameter` and `collapse_variadic_parameters`);
- how `get_parameter_defaults` collects default values;
- how `raise_for_reserved_arguments` rejects reserved names;
- how `expand_mapping_parameters` turns one dictionary of iterables into the per-call dictionaries of a mapped task run;
- how `ParameterSchema.model_dump_for_openapi` drops an empty `required` list.

The second is the server-side `State` value as the tests in `tests/server/schemas/test_states.py` pin it down. That covers the name taken from the type, the `is_*` predicates, the convenience constructors (`Completed`, `Scheduled`, `AwaitingRetry`, `Late`, `Retrying`, …), the `str` rendering, and the difference between `model_copy` and `reset_fields`.

Files:

- `results.dfy`: `Option`, `Result`, `Outcome` and the exceptions the modelled code raises.
- `signatures.dfy`: values, parameters and signatures; the first `VAR_KEYWORD` parameter; defaults; reserved names; the unknown-key guard of `parameters_to_args_kwargs`.
- `variadic.dfy`: explode and collapse, their round trips and the docstring examples.
- `mapping.dfy`: `expand_mapping_parameters`. The classification, the length check and the per-call loop are methods, proved against the specification function `ExpandMapping`.
- `schema.dfy`: `ParameterSchema` and `model_dump_for_openapi`.
- `states.dfy`: `State`, its constructors, its rendering and its copies.

Python dictionaries become Dafny maps. A loop that fills or empties a dictionary becomes a `while`/`for` loop over the key set, with invariants that tie the partial result to a specification function. The clock and `uuid4()` become parameters (`now`, `timestamp`, `id`, and the list of ids already issued).

## Model

| member | source | states |
|---|---|---|
| Signatures.VariadicKey | src/prefect/utilities/callables.py:118-122 | no key exactly when no parameter is `VAR_KEYWORD`; otherwise the name of the first `VAR_KEYWORD` parameter, with none before it |
| Signatures.VariadicKeyIsName | src/prefect/utilities/callables.py:153-157 | the variadic key is a parameter name of the signature |
| Signatures.FindVariadicKey | src/prefect/utilities/callables.py:118-122 | the search loop with `break` returns exactly `VariadicKey` |
| Signatures.Defaults | src/prefect/utilities/callables.py:83-97 | every key of the defaults dictionary is a parameter name |
| Signatures.DefaultsExactly | src/prefect/utilities/callables.py:93-95 | for distinct names, a key is present iff its parameter has a default, and it maps to that default |
| Signatures.GetParameterDefaults | src/prefect/utilities/callables.py:91-97 | the loop over the parameters builds exactly `Defaults(sig)` |
| Signatures.RaiseForReservedArguments | src/prefect/utilities/callables.py:447-458 | passes iff no reserved name is a parameter; otherwise raises `ReservedArgumentError` for the first reserved name that is one |
| Signatures.CheckKnownParameters | src/prefect/utilities/callables.py:188-194 | passes iff every key is a parameter name; otherwise `SignatureMismatchError`, and some key is unknown |
| Variadic.Explode | src/prefect/utilities/callables.py:100-131 | fails exactly when the variadic entry is present and not a dict (the `.items()` failure); a result key is a key of the input or of its variadic dict |
| Variadic.Collapse | src/prefect/utilities/callables.py:134-175 | raises `ValueError` exactly when some key is not a parameter name and there is no `VAR_KEYWORD` parameter; every key of a result is a parameter name |
| Variadic.ExplodeVariadicParameter | src/prefect/utilities/callables.py:100-131 | the copy-pop-assign method returns exactly `Explode`, including the error for a non-dict variadic value |
| Variadic.CollapseVariadicParameters | src/prefect/utilities/callables.py:134-175 | the copy-and-pop method returns exactly `Collapse`, including the `ValueError` path |
| Variadic.ExplodeWithoutVariadic | src/prefect/utilities/callables.py:124-125 | without a `VAR_KEYWORD` parameter the dictionary comes back unchanged |
| Variadic.ExplodeAbsentVariadic | src/prefect/utilities/callables.py:128 | a missing variadic entry counts as an empty dict, so the dictionary is unchanged |
| Variadic.ExplodeLiftsEntries | src/prefect/utilities/callables.py:127-131 | the variadic key is removed; every inner entry is lifted and wins over a top-level key of the same name; every other key keeps its value |
| Variadic.CollapseKnownKeys | src/prefect/utilities/callables.py:159-163 | when every key is a parameter name the dictionary is returned unchanged |
| Variadic.CollapseWithoutVariadic | src/prefect/utilities/callables.py:165-169 | an unknown key with no `VAR_KEYWORD` parameter raises `ValueError` |
| Variadic.CollapseGathersExtra | src/prefect/utilities/callables.py:171-175 | the result's keys are the known keys plus the variadic key; known keys keep their values; the variadic dict holds exactly the unknown keys with their values |
| Variadic.CollapseExplodeRoundTrip | src/prefect/utilities/callables.py:100-175 | collapse after explode gives back a dictionary whose keys are parameter names and whose non-empty variadic dict has only non-parameter keys |
| Variadic.ExplodeCollapseRoundTrip | src/prefect/utilities/callables.py:100-175 | explode after collapse gives back any dictionary that has no variadic entry of its own |
| Variadic.CollapsedAreKnown | src/prefect/utilities/callables.py:171-194 | every collapsed dictionary passes the unknown-key guard of `parameters_to_args_kwargs` |
| Variadic.ExplodeDocExample | src/prefect/utilities/callables.py:107-116 | `{"a": 1, "b": 2, "kwargs": {"c": 3, "d": 4}}` explodes to `{"a": 1, "b": 2, "c": 3, "d": 4}` for `foo(a, b, **kwargs)` |
| Variadic.CollapseDocExample | src/prefect/utilities/callables.py:141-150 | `{"a": 1, "b": 2, "c": 3, "d": 4}` collapses to `{"a": 1, "b": 2, "kwargs": {"c": 3, "d": 4}}` |
| Mapping.Classify | src/prefect/utilities/callables.py:679-693 | the classification loop yields exactly the iterable, static and annotated parameters |
| Mapping.ClassifyStep | src/prefect/utilities/callables.py:683-693 | one more key lands in exactly the classes its value belongs to |
| Mapping.ClassifiedKeys | src/prefect/utilities/callables.py:688-693 | every key is iterable or static; the annotated keys are among them |
| Mapping.IsIterable | src/prefect/utilities/callables.py:690 | `isiterable`: here exactly the list and tuple values (see "Left out") |
| Mapping.Unwrap | src/prefect/utilities/callables.py:683-686 | a non-annotation is returned as it is; for `allow_failure`/`quote`, rewrapping the unwrapped value gives back the annotation |
| Mapping.Rewrap | src/prefect/utilities/callables.py:723-725 | for an annotation, the result is the same kind of annotation around the new value; anything else gives the value itself |
| Mapping.LengthsSingleton | src/prefect/utilities/callables.py:704-711 | with at most one distinct length, all iterables have the length `list(lengths)[0]` |
| Mapping.LengthsMismatch | src/prefect/utilities/callables.py:701-705 | `len(lengths) > 1` iff two iterable parameters differ in length |
| Mapping.MapLength | src/prefect/utilities/callables.py:711 | `list(lengths)[0]` is one of the lengths, and every iterable parameter has that length |
| Mapping.FillDefaults | src/prefect/utilities/callables.py:720-721 | the `setdefault` loop adds a default only for a key the call lacks |
| Mapping.ReapplyAnnotations | src/prefect/utilities/callables.py:724-725 | each annotated key gets its annotation rewrapped around the call's value; other keys are kept |
| Mapping.BuildCall | src/prefect/utilities/callables.py:715-725 | call i is the i-th iterable elements, then the statics, then the defaults, then the annotations |
| Mapping.CollapseEachStep | src/prefect/utilities/callables.py:727-728 | one more call appends its collapse or raises its error |
| Mapping.CollapseEachKeepsError | src/prefect/utilities/callables.py:713-728 | the first failing call's error is the error of the whole loop |
| Mapping.CollapseEachOutcome | src/prefect/utilities/callables.py:713-730 | on success there is one collapsed dict per call, in order; the only error is collapse's `ValueError` from some call |
| Mapping.CollapseCalls | src/prefect/utilities/callables.py:713-730 | the per-call loop returns exactly the collapse of every call, stopping at the first failure |
| Mapping.ExpandMapping | src/prefect/utilities/callables.py:661-730 | the only errors are the `.items()` failure of explode, `MappingMissingIterable`, `MappingLengthMismatch` and collapse's `ValueError` |
| Mapping.ExpandMappingParameters | src/prefect/utilities/callables.py:661-730 | the method returns exactly `ExpandMapping` |
| Mapping.ExpandMissingIterable | src/prefect/utilities/callables.py:695-699 | `MappingMissingIterable` iff no exploded parameter, once unwrapped, is an iterable that is not `unmapped` |
| Mapping.ExpandLengthMismatch | src/prefect/utilities/callables.py:701-709 | with a mapped parameter, `MappingLengthMismatch` iff two mapped parameters differ in length |
| Mapping.ExpandIsCollapseEach | src/prefect/utilities/callables.py:711-730 | with all mapped lengths n, the result is the collapse of the n calls |
| Mapping.ExpandCalls | src/prefect/utilities/callables.py:711-730 | with all mapped lengths n, success gives n results, each the collapse of call i; the only error is `ValueError`, and only when n > 0 |
| Mapping.CollapseEachUnchanged | src/prefect/utilities/callables.py:727-728 | calls that collapse to themselves are returned as they are |
| Mapping.KnownCallsUnchanged | src/prefect/utilities/callables.py:159-163 | calls built from known keys collapse to themselves |
| Mapping.ExpandKnownKeys | src/prefect/utilities/callables.py:711-730 | when every exploded key is a parameter name, the result is exactly the n calls |
| Mapping.ExpandedCallsAreKnown | src/prefect/utilities/callables.py:727-728 | every returned call passes the unknown-key guard of `parameters_to_args_kwargs` |
| Mapping.CallKeys | src/prefect/utilities/callables.py:715-721 | call i has the exploded keys and the defaulted keys |
| Mapping.CallEntries | src/prefect/utilities/callables.py:715-725 | call i holds element i for mapped keys, the same value in every call for static keys (the inner value for `unmapped`), defaults only for missing keys, and the annotation rewrapped for annotated keys |
| Schema.ModelDumpForOpenapi | src/prefect/utilities/callables.py:247-251 | `required` is present iff the list is non-empty; every other field equals the dump's; the list keeps its names |
| States.NewState | tests/server/schemas/test_states.py:23-36 | the type, id, timestamp and message are the given ones; the name is the given one or the type's default; details default to empty |
| States.StateNameFromType | tests/server/schemas/test_states.py:23-36 | `State(type=RUNNING)` is named "Running"; a custom name is kept |
| States.PredicatesMatchType | tests/server/schemas/test_states.py:61-90 | each `is_*` predicate holds exactly for its own type, for every type |
| States.IsScheduled | tests/server/schemas/test_states.py:62-65 | `is_scheduled()`: the state's type is SCHEDULED (`PredicatesMatchType` proves it for every type) |
| States.IsPending | tests/server/schemas/test_states.py:67-70 | `is_pending()`: the type is PENDING |
| States.IsRunning | tests/server/schemas/test_states.py:72-75 | `is_running()`: the type is RUNNING |
| States.IsCompleted | tests/server/schemas/test_states.py:77-80 | `is_completed()`: the type is COMPLETED |
| States.IsFailed | tests/server/schemas/test_states.py:82-85 | `is_failed()`: the type is FAILED |
| States.IsCancelled | tests/server/schemas/test_states.py:87-90 | `is_cancelled()`: the type is CANCELLED |
| States.ConvenienceConstructors | tests/server/schemas/test_states.py:93-113 | `Completed`, `Failed`, `Running` and `Pending` fix their type, keep a given name and given details, and are otherwise named after the type |
| States.Completed | tests/server/schemas/test_states.py:94-101 | a COMPLETED state named "Completed" unless a name is given; id, timestamp, message, name and details as given |
| States.Failed | tests/server/schemas/test_states.py:103-105 | a FAILED state named "Failed" unless a name is given; the other fields as given |
| States.Running | tests/server/schemas/test_states.py:107-109 | a RUNNING state named "Running" unless a name is given; the other fields as given |
| States.Pending | tests/server/schemas/test_states.py:111-113 | a PENDING state named "Pending" unless a name is given; the other fields as given |
| States.Scheduled | tests/server/schemas/test_states.py:115-134 | raises exactly when a time is given both directly and in the details; otherwise a SCHEDULED state storing the given time or `now`, named "Scheduled" unless a name is given, keeping the details' cache key |
| States.AwaitingRetry | tests/server/schemas/test_states.py:136-147 | a SCHEDULED state named "AwaitingRetry" storing the given time or `now`, with the same error rule as `Scheduled` |
| States.Late | tests/server/schemas/test_states.py:149-160 | a SCHEDULED state named "Late" storing the given time or `now`, with the same error rule as `Scheduled` |
| States.Retrying | tests/server/schemas/test_states.py:162-165 | a RUNNING state named "Retrying"; the other fields as given |
| States.ScheduledConstructors | tests/server/schemas/test_states.py:115-165 | `Scheduled`, `AwaitingRetry` and `Late` are SCHEDULED, named after themselves, and store the given time; `Retrying` is RUNNING and named "Retrying" |
| States.RenderCases | tests/server/schemas/test_states.py:168-179 | the rendering is the name, then in parentheses the quoted message if there is one and `type=T` if the name is not the default |
| States.Render | tests/server/schemas/test_states.py:168-179 | `str(state)` starts with the name and an opening parenthesis and ends with a closing one; `RenderCases` gives the four shapes |
| States.RenderKeepsMessage | tests/server/schemas/test_states.py:168-179 | two states with the same name and type that render alike have the same message |
| States.RenderWithMessage | tests/server/schemas/test_states.py:169-170 | `str(Failed(message="abc")) == "Failed('abc')"` |
| States.RenderWithoutMessage | tests/server/schemas/test_states.py:172-173 | `str(Failed(message=None)) == "Failed()"` |
| States.RenderCustomNameWithoutMessage | tests/server/schemas/test_states.py:175-176 | `str(Failed(message=None, name="Test")) == "Test(type=FAILED)"` |
| States.RenderCustomNameWithMessage | tests/server/schemas/test_states.py:178-179 | `str(Failed(message="abc", name="Foo")) == "Foo('abc', type=FAILED)"` |
| States.FreshId | tests/server/schemas/test_states.py:50-56 | the drawn id is larger than every id issued so far |
| States.ResetFields | tests/server/schemas/test_states.py:50-58 | the copy has an id that was never issued and the current time as its timestamp; every other field is unchanged |
| States.CopyKeepsIdResetChangesIt | tests/server/schemas/test_states.py:43-58 | `model_copy` returns the same state, id included; `reset_fields` changes the id, sets the timestamp to `now` and changes nothing else |
| States.ModelCopy | tests/server/schemas/test_states.py:43-48 | `model_copy()` returns an equal state; `CopyKeepsIdResetChangesIt` states that the id is kept |

## Left out

- `get_call_parameters`, the argument binding in `parameters_to_args_kwargs` and `call_with_parameters`: they rely on `inspect.Signature.bind`, which is not part of this model. Only the unknown-key guard of `parameters_to_args_kwargs` is modelled.
- Signature introspection and the code around it: pickling (`cloudpickle_wrapped_call`), docstring parsing with griffe, pydantic schema generation (`parameter_schema`, `process_v1_params`), and AST- or entrypoint-based signature loading. These are I/O and foreign libraries.
- Dictionary order: Python dicts remember insertion order and Dafny maps do not, so the order of keys in results is not modelled.
- `Mapping.IsIterable`: `isiterable` lives in `prefect.utilities.collections`, which is not part of this model. Here only lists and tuples are iterable. Strings, dicts and other iterables count as static values. The annotation wrappers themselves are never treated as iterable.
- `Mapping.Unwrap`: one layer of `allow_failure`/`quote` is removed, as `val.unwrap()` does. Nested annotations are not unwrapped further.
- `Variadic.Explode`: a variadic value that is not a dict makes Python fail on `.items()`; the model reports this as the error `VariadicNotAMapping`. The exact exception type is not modelled.
- The exception messages (`MappingLengthMismatch` listing the lengths, `ReservedArgumentError` quoting the name, `SignatureMismatchError.from_bad_params`) are not modelled; only which error is raised.
- The `State` implementation itself (`prefect/server/schemas/states.py`) is not part of this model. The model follows what the tests assert. The nine `StateType` members and their default names are Prefect's enum values. Default names are compared exactly, not case-insensitively.
- `States.Render`: `repr` of the message is modelled as the text between single quotes. Escaping and Python's choice of quote character are not modelled.
- Timestamps: the checks that a timestamp or scheduled time lies between two clock readings (tests/server/schemas/test_states.py:38-41, 58, 122-160) are modelled only as the clock reading `now` being used: as the scheduled time when none is given, and as the timestamp that `reset_fields` sets. A default `timestamp` is simply a given argument.
- Pydantic validation of the state type (tests/server/schemas/test_states.py:27-32) is ruled out by the types and not modelled.
- `States.Scheduled`: when only the details carry a scheduled time, the model replaces it with `now`, as a missing argument does. The tests do not pin this case, and the `State` implementation is not part of this model.
- `States.FreshId`: `uuid4()` is modelled as a draw that differs from every id already issued, not as a random 128-bit value.
