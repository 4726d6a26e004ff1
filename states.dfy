/** The server-side State value whose behaviour tests/server/schemas/test_states.py
    fixes: a state type, a name that defaults from the type, the is_* predicates,
    the convenience constructors, the str rendering and the two ways of copying.
    The clock and uuid4 are parameters: `timestamp`, `now` and `id` are given. */
module States {
  import opened Results

  datatype StateType =
    | SCHEDULED | PENDING | RUNNING | COMPLETED | FAILED
    | CANCELLED | CRASHED | PAUSED | CANCELLING

  /** The enum's value, written after "type=" in the rendering. */
  function TypeValue(t: StateType): string {
    match t
    case SCHEDULED => "SCHEDULED"
    case PENDING => "PENDING"
    case RUNNING => "RUNNING"
    case COMPLETED => "COMPLETED"
    case FAILED => "FAILED"
    case CANCELLED => "CANCELLED"
    case CRASHED => "CRASHED"
    case PAUSED => "PAUSED"
    case CANCELLING => "CANCELLING"
  }

  /** The name a state takes when none is given. */
  function DefaultName(t: StateType): string {
    match t
    case SCHEDULED => "Scheduled"
    case PENDING => "Pending"
    case RUNNING => "Running"
    case COMPLETED => "Completed"
    case FAILED => "Failed"
    case CANCELLED => "Cancelled"
    case CRASHED => "Crashed"
    case PAUSED => "Paused"
    case CANCELLING => "Cancelling"
  }

  /** The StateDetails fields the tests use. */
  datatype StateDetails = StateDetails(cacheKey: Option<string>, scheduledTime: Option<int>)

  const NoDetails := StateDetails(None, None)

  datatype State = State(
    id: int,
    stateType: StateType,
    name: string,
    message: Option<string>,
    timestamp: int,
    details: StateDetails)

  /** The keyword arguments every state constructor accepts besides type and
      name; `id` and `timestamp` are the values uuid4() and the clock supply. */
  datatype StateArgs = StateArgs(
    message: Option<string>,
    details: Option<StateDetails>,
    id: int,
    timestamp: int)

  /** State(type=t, name=..., **args). */
  function NewState(t: StateType, name: Option<string>, a: StateArgs): (s: State)
    ensures s.stateType == t && s.id == a.id && s.timestamp == a.timestamp && s.message == a.message
    ensures s.details == if a.details.Some? then a.details.value else NoDetails
    ensures name.None? ==> s.name == DefaultName(t)
    ensures name.Some? ==> s.name == name.value
  {
    State(a.id, t, if name.Some? then name.value else DefaultName(t), a.message, a.timestamp,
          if a.details.Some? then a.details.value else NoDetails)
  }

  predicate IsScheduled(s: State) { s.stateType == SCHEDULED }
  predicate IsPending(s: State) { s.stateType == PENDING }
  predicate IsRunning(s: State) { s.stateType == RUNNING }
  predicate IsCompleted(s: State) { s.stateType == COMPLETED }
  predicate IsFailed(s: State) { s.stateType == FAILED }
  predicate IsCancelled(s: State) { s.stateType == CANCELLED }

  /** The fields every constructor takes from its arguments unchanged. */
  predicate KeepsArgs(s: State, name: Option<string>, a: StateArgs) {
    && s.id == a.id && s.timestamp == a.timestamp && s.message == a.message
    && (name.Some? ==> s.name == name.value)
    && (a.details.Some? ==> s.details == a.details.value)
  }

  /** Completed(), Failed(), Running() and Pending(): a state of the one type,
      named after it unless a name is given. */
  function Completed(name: Option<string>, a: StateArgs): (s: State)
    ensures s.stateType == COMPLETED && KeepsArgs(s, name, a)
    ensures name.None? ==> s.name == "Completed"
  {
    NewState(COMPLETED, name, a)
  }

  function Failed(name: Option<string>, a: StateArgs): (s: State)
    ensures s.stateType == FAILED && KeepsArgs(s, name, a)
    ensures name.None? ==> s.name == "Failed"
  {
    NewState(FAILED, name, a)
  }

  function Running(name: Option<string>, a: StateArgs): (s: State)
    ensures s.stateType == RUNNING && KeepsArgs(s, name, a)
    ensures name.None? ==> s.name == "Running"
  {
    NewState(RUNNING, name, a)
  }

  function Pending(name: Option<string>, a: StateArgs): (s: State)
    ensures s.stateType == PENDING && KeepsArgs(s, name, a)
    ensures name.None? ==> s.name == "Pending"
  {
    NewState(PENDING, name, a)
  }

  /** Scheduled(scheduled_time=..., **args): the time goes into the state
      details, defaulting to `now`; a time given both directly and in the
      details raises ValueError. */
  function Scheduled(scheduledTime: Option<int>, now: int, name: Option<string>, a: StateArgs): (r: Result<State>)
    ensures r.Err? <==> scheduledTime.Some? && a.details.Some? && a.details.value.scheduledTime.Some?
    ensures r.Err? ==> r.error == ExtraScheduledTime
    ensures r.Ok? ==> r.value.details.scheduledTime == Some(if scheduledTime.Some? then scheduledTime.value else now)
    ensures r.Ok? ==> r.value.stateType == SCHEDULED && r.value.id == a.id && r.value.message == a.message
    ensures r.Ok? ==> r.value.name == if name.Some? then name.value else "Scheduled"
    ensures r.Ok? && a.details.Some? ==> r.value.details.cacheKey == a.details.value.cacheKey
  {
    var d := if a.details.Some? then a.details.value else NoDetails;
    if scheduledTime.Some? && d.scheduledTime.Some? then Err(ExtraScheduledTime)
    else
      var time := if scheduledTime.Some? then scheduledTime.value else now;
      Ok(NewState(SCHEDULED, name, a.(details := Some(d.(scheduledTime := Some(time))))))
  }

  /** The fixed-name constructors: they take no name of their own. */
  function AwaitingRetry(scheduledTime: Option<int>, now: int, a: StateArgs): (r: Result<State>)
    ensures r.Ok? ==> r.value.stateType == SCHEDULED && r.value.name == "AwaitingRetry"
    ensures r.Err? <==> scheduledTime.Some? && a.details.Some? && a.details.value.scheduledTime.Some?
    ensures r.Ok? ==> r.value.details.scheduledTime == Some(if scheduledTime.Some? then scheduledTime.value else now)
  {
    Scheduled(scheduledTime, now, Some("AwaitingRetry"), a)
  }

  function Late(scheduledTime: Option<int>, now: int, a: StateArgs): (r: Result<State>)
    ensures r.Ok? ==> r.value.stateType == SCHEDULED && r.value.name == "Late"
    ensures r.Err? <==> scheduledTime.Some? && a.details.Some? && a.details.value.scheduledTime.Some?
    ensures r.Ok? ==> r.value.details.scheduledTime == Some(if scheduledTime.Some? then scheduledTime.value else now)
  {
    Scheduled(scheduledTime, now, Some("Late"), a)
  }

  function Retrying(a: StateArgs): (s: State)
    ensures s.stateType == RUNNING && s.name == "Retrying" && KeepsArgs(s, None, a)
  {
    Running(Some("Retrying"), a)
  }

  /** repr of a message string. */
  function Repr(m: string): string {
    "'" + m + "'"
  }

  /** ", ".join(parts) */
  function Join(parts: seq<string>): (r: string)
    ensures |parts| == 0 ==> r == ""
    ensures |parts| == 1 ==> r == parts[0]
    ensures |parts| == 2 ==> r == parts[0] + ", " + parts[1]
  {
    if |parts| == 0 then ""
    else if |parts| == 1 then parts[0]
    else parts[0] + ", " + Join(parts[1..])
  }

  /** str(state): the name, then in parentheses the message's repr (when there
      is a message) and "type=T" (when the name is not the type's default). */
  function Render(s: State): (r: string)
    ensures |r| >= |s.name| + 2 && r[..|s.name|] == s.name
    ensures r[|s.name|] == '(' && r[|r| - 1] == ')'
  {
    var shown :=
      (if s.message.Some? then [Repr(s.message.value)] else []) +
      (if s.name != DefaultName(s.stateType) then ["type=" + TypeValue(s.stateType)] else []);
    s.name + "(" + Join(shown) + ")"
  }

  /** The four shapes of a rendering. */
  lemma RenderCases(s: State)
    ensures s.name == DefaultName(s.stateType) && s.message.None? ==> Render(s) == s.name + "()"
    ensures s.name == DefaultName(s.stateType) && s.message.Some? ==>
      Render(s) == s.name + "('" + s.message.value + "')"
    ensures s.name != DefaultName(s.stateType) && s.message.None? ==>
      Render(s) == s.name + "(type=" + TypeValue(s.stateType) + ")"
    ensures s.name != DefaultName(s.stateType) && s.message.Some? ==>
      Render(s) == s.name + "('" + s.message.value + "', type=" + TypeValue(s.stateType) + ")"
  {
    var t := "type=" + TypeValue(s.stateType);
    if s.message.Some? {
      var m := Repr(s.message.value);
      if s.name == DefaultName(s.stateType) {
        assert Render(s) == s.name + "(" + m + ")";
      } else {
        assert Render(s) == s.name + "(" + (m + ", " + t) + ")";
      }
    } else {
      if s.name == DefaultName(s.stateType) {
        assert Render(s) == s.name + "(" + "" + ")";
      } else {
        assert Render(s) == s.name + "(" + t + ")";
      }
    }
  }

  /** The text between a known prefix and suffix. */
  lemma Between(prefix: string, m: string, suffix: string)
    ensures |prefix + m + suffix| == |prefix| + |m| + |suffix|
    ensures (prefix + m + suffix)[|prefix|..|prefix| + |m|] == m
  {
    assert (prefix + m + suffix)[..|prefix| + |m|] == prefix + m;
  }

  /** Render(s) of a state with a message, as prefix + repr body + suffix. */
  lemma RenderSplit(s: State)
    requires s.message.Some?
    ensures Render(s) == s.name + "('" + s.message.value + RenderSuffix(s)
  {
    var t := TypeValue(s.stateType);
    if s.name != DefaultName(s.stateType) {
      var pm := s.name + "('" + s.message.value;
      assert pm + "', type=" + t + ")" == pm + ("', type=" + t + ")");
    }
  }

  /** What follows the message in a rendering. */
  function RenderSuffix(s: State): string {
    if s.name == DefaultName(s.stateType) then "')" else "', type=" + TypeValue(s.stateType) + ")"
  }

  /** The rendering loses no message: two states with the same name and type
      that render alike carry the same message. */
  lemma {:induction false} RenderKeepsMessage(s1: State, s2: State)
    requires s1.name == s2.name && s1.stateType == s2.stateType
    requires Render(s1) == Render(s2)
    ensures s1.message == s2.message
  {
    var prefix := s1.name + "('";
    if s1.message.Some? && s2.message.Some? {
      RenderSplit(s1);
      RenderSplit(s2);
      assert RenderSuffix(s1) == RenderSuffix(s2);
      Between(prefix, s1.message.value, RenderSuffix(s1));
      Between(prefix, s2.message.value, RenderSuffix(s2));
    } else if s1.message.Some? {
      RenderSplit(s1);
    } else if s2.message.Some? {
      RenderSplit(s2);
    }
  }

  /** model_copy(): the same value, id included. */
  function ModelCopy(s: State): State {
    s
  }

  /** uuid4() as a draw that differs from every id issued so far. */
  function FreshId(issued: seq<int>): (r: int)
    ensures forall i :: 0 <= i < |issued| ==> issued[i] < r
  {
    if |issued| == 0 then 0
    else
      var rest := FreshId(issued[1..]);
      assert forall i :: 1 <= i < |issued| ==> issued[i] == issued[1..][i - 1];
      if issued[0] < rest then rest else issued[0] + 1
  }

  /** reset_fields(): a copy with a newly drawn id and the current time as
      its timestamp. */
  function ResetFields(s: State, issued: seq<int>, now: int): (r: State)
    requires s.id in issued
    ensures r.id !in issued
    ensures r == s.(id := r.id, timestamp := now)
  {
    s.(id := FreshId(issued), timestamp := now)
  }

  /** A copy keeps the id; resetting the fields gives a different id and a
      new timestamp and keeps everything else. */
  lemma CopyKeepsIdResetChangesIt(s: State, issued: seq<int>, now: int)
    requires s.id in issued
    ensures ModelCopy(s).id == s.id && ModelCopy(s) == s
    ensures ResetFields(s, issued, now).id != s.id
    ensures ResetFields(s, issued, now).timestamp == now
    ensures ResetFields(s, issued, now).(id := s.id, timestamp := s.timestamp) == s
  {
  }

  /** State(type=RUNNING) is named "Running"; an explicit name wins. */
  lemma StateNameFromType(a: StateArgs, custom: string)
    ensures NewState(RUNNING, None, a).name == "Running"
    ensures NewState(RUNNING, Some(custom), a).name == custom
  {
  }

  /** Each is_* predicate holds exactly for its own type. */
  lemma PredicatesMatchType(t: StateType, name: Option<string>, a: StateArgs)
    ensures IsScheduled(NewState(t, name, a)) <==> t == SCHEDULED
    ensures IsPending(NewState(t, name, a)) <==> t == PENDING
    ensures IsRunning(NewState(t, name, a)) <==> t == RUNNING
    ensures IsCompleted(NewState(t, name, a)) <==> t == COMPLETED
    ensures IsFailed(NewState(t, name, a)) <==> t == FAILED
    ensures IsCancelled(NewState(t, name, a)) <==> t == CANCELLED
  {
  }

  /** The convenience constructors fix the type and keep a given name and details. */
  lemma ConvenienceConstructors(name: Option<string>, a: StateArgs)
    ensures Completed(name, a).stateType == COMPLETED
    ensures Failed(name, a).stateType == FAILED
    ensures Running(name, a).stateType == RUNNING
    ensures Pending(name, a).stateType == PENDING
    ensures name.Some? ==>
      && Completed(name, a).name == name.value && Failed(name, a).name == name.value
      && Running(name, a).name == name.value && Pending(name, a).name == name.value
    ensures a.details.Some? ==>
      && Completed(name, a).details == a.details.value && Failed(name, a).details == a.details.value
      && Running(name, a).details == a.details.value && Pending(name, a).details == a.details.value
    ensures name.None? ==>
      && Completed(name, a).name == "Completed" && Failed(name, a).name == "Failed"
      && Running(name, a).name == "Running" && Pending(name, a).name == "Pending"
  {
  }

  /** Scheduled, AwaitingRetry and Late are SCHEDULED states named after
      themselves that store the given time; Retrying is a RUNNING state named
      "Retrying". */
  lemma ScheduledConstructors(time: int, now: int, a: StateArgs)
    requires a.details.None?
    ensures Scheduled(Some(time), now, None, a).Ok?
    ensures var s := Scheduled(Some(time), now, None, a).value;
      s.stateType == SCHEDULED && s.name == "Scheduled" && s.details.scheduledTime == Some(time)
    ensures AwaitingRetry(Some(time), now, a).Ok?
    ensures var s := AwaitingRetry(Some(time), now, a).value;
      s.stateType == SCHEDULED && s.name == "AwaitingRetry" && s.details.scheduledTime == Some(time)
    ensures Late(Some(time), now, a).Ok?
    ensures var s := Late(Some(time), now, a).value;
      s.stateType == SCHEDULED && s.name == "Late" && s.details.scheduledTime == Some(time)
    ensures Retrying(a).stateType == RUNNING && Retrying(a).name == "Retrying"
  {
  }

  /** The renderings the tests spell out: the message's repr, nothing for
      no message, and the type when the name is custom. */
  lemma RenderWithMessage(a: StateArgs)
    ensures Render(Failed(None, a.(message := Some("abc")))) == "Failed('abc')"
  {
    var s := Failed(None, a.(message := Some("abc")));
    assert s.name == "Failed" == DefaultName(s.stateType);
  }

  lemma RenderWithoutMessage(a: StateArgs)
    ensures Render(Failed(None, a.(message := None))) == "Failed()"
  {
    var s := Failed(None, a.(message := None));
    assert s.name == "Failed" == DefaultName(s.stateType);
  }

  lemma RenderCustomNameWithoutMessage(a: StateArgs)
    ensures Render(Failed(Some("Test"), a.(message := None))) == "Test(type=FAILED)"
  {
    var s := Failed(Some("Test"), a.(message := None));
    assert s.name == "Test" != DefaultName(s.stateType);
  }

  lemma RenderCustomNameWithMessage(a: StateArgs)
    ensures Render(Failed(Some("Foo"), a.(message := Some("abc")))) == "Foo('abc', type=FAILED)"
  {
    var s := Failed(Some("Foo"), a.(message := Some("abc")));
    assert s.name == "Foo" != DefaultName(s.stateType);
  }
}
