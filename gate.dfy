/**
 * The capability gate of `withIsSupported` as pure functions.
 *
 * A gate is either a raw predicate (`() => boolean`) or a Mini Apps method
 * name with an optional additional check. The gate is evaluated afresh on
 * every `isSupported()` query and on every call of the wrapped function,
 * against the version and the check answers in force at that moment.
 */
module Gate {
  import opened Wrappers

  /** Name of a Mini Apps bridge method, such as "web_app_trigger_haptic_feedback". */
  type MethodName = string

  /** A Mini Apps version string such as "6.1"; only the oracle interprets it. */
  type Version = string

  /** Names one `() => boolean` closure handed to the wrapper. */
  type CheckId = string

  /** `supports(method, version)` of the bridge package: a parameter of the model. */
  type Oracle = (MethodName, Version) -> bool

  /** What every check closure answers when it is called now. */
  type Answers = CheckId -> bool

  /** The two forms `withIsSupported` accepts as its second (and third) argument. */
  datatype GateSpec =
    | Raw(check: CheckId)
    | Method(name: MethodName, extra: Option<CheckId>)

  /** The one error kind the wrapper raises: ERR_NOT_SUPPORTED. */
  datatype Error = NotSupported

  /** How a call of the wrapper ends: it returns nothing, or it throws. */
  datatype Outcome = Returned | Threw(error: Error)

  /** The answer of `isSupported()` for gate `g` in the given environment. */
  function Supported(g: GateSpec, supports: Oracle, version: Version, answer: Answers): (r: bool)
    ensures r && g.Method? ==> supports(g.name, version)
  {
    match g
    case Method(name, extra) => supports(name, version) && (extra.None? || answer(extra.value))
    case Raw(check) => answer(check)
  }

  /**
   * The check closures one evaluation of `isSupported()` calls, in order:
   * `&&` calls the additional check only when the method is supported.
   */
  function Evaluated(g: GateSpec, supports: Oracle, version: Version): (r: seq<CheckId>)
    ensures |r| <= 1
    ensures g.Method? && r != [] ==> supports(g.name, version) && g.extra == Some(r[0])
  {
    match g
    case Method(name, extra) => if supports(name, version) && extra.Some? then [extra.value] else []
    case Raw(check) => [check]
  }

  /** Method gate: support of the method, and the additional check when it is given. */
  lemma MethodGate(name: MethodName, extra: Option<CheckId>, supports: Oracle, version: Version, answer: Answers)
    ensures Supported(Method(name, extra), supports, version, answer)
        <==> supports(name, version) && (extra == None || answer(extra.value))
    ensures supports(name, version) && extra.Some? ==> Evaluated(Method(name, extra), supports, version) == [extra.value]
    ensures !supports(name, version) ==>
              !Supported(Method(name, extra), supports, version, answer) &&
              Evaluated(Method(name, extra), supports, version) == []
  {
  }

  /** Method gate without an additional check: method support alone decides, and no check is called. */
  lemma MethodGateWithoutExtra(name: MethodName, supports: Oracle, version: Version, answer: Answers, other: Answers)
    ensures Supported(Method(name, None), supports, version, answer) == supports(name, version)
    ensures Supported(Method(name, None), supports, version, answer) == Supported(Method(name, None), supports, version, other)
    ensures Evaluated(Method(name, None), supports, version) == []
  {
  }

  /** Raw gate: the predicate's answer, whatever the version and the oracle; the predicate is called once. */
  lemma RawGate(check: CheckId, supports: Oracle, version: Version, answer: Answers,
                otherSupports: Oracle, otherVersion: Version)
    ensures Supported(Raw(check), supports, version, answer) == answer(check)
    ensures Supported(Raw(check), supports, version, answer) == Supported(Raw(check), otherSupports, otherVersion, answer)
    ensures Evaluated(Raw(check), supports, version) == Evaluated(Raw(check), otherSupports, otherVersion) == [check]
  {
  }

  /**
   * Fail closed: the gate holds exactly when the method (if any) is supported
   * and every check that was called answered true.
   */
  lemma FailClosed(g: GateSpec, supports: Oracle, version: Version, answer: Answers)
    ensures Supported(g, supports, version, answer)
        <==> (g.Method? ==> supports(g.name, version)) &&
             (forall c :: c in Evaluated(g, supports, version) ==> answer(c))
  {
  }

  /** Checks that the evaluation skips cannot influence its answer. */
  lemma OnlyEvaluatedChecksMatter(g: GateSpec, supports: Oracle, version: Version, a1: Answers, a2: Answers)
    requires forall c :: c in Evaluated(g, supports, version) ==> a1(c) == a2(c)
    ensures Supported(g, supports, version, a1) == Supported(g, supports, version, a2)
  {
  }

  /**
   * The state one wrapper sees and leaves behind: the current version, the
   * current answers of the check closures, the log of check calls and the
   * log of calls of the wrapped function `fn` (their argument lists).
   */
  datatype Session<A> = Session(version: Version, answer: Answers, checkLog: seq<CheckId>, calls: seq<A>)

  /**
   * The exposed `isSupported()`: its answer and the session after the checks
   * it called. This is the specification that `Scopes.Gated.IsSupported`
   * meets; what it promises about the gate is proved in `MethodGate`,
   * `RawGate`, `FailClosed` and `OnlyEvaluatedChecksMatter`.
   */
  function Query<A>(g: GateSpec, supports: Oracle, s: Session<A>): (r: (bool, Session<A>))
    ensures r.0 == Supported(g, supports, s.version, s.answer)
    ensures r.1.checkLog == s.checkLog + Evaluated(g, supports, s.version)
    ensures r.1.version == s.version && r.1.answer == s.answer && r.1.calls == s.calls
  {
    (Supported(g, supports, s.version, s.answer),
     s.(checkLog := s.checkLog + Evaluated(g, supports, s.version)))
  }

  /**
   * One call of the wrapper with argument list `args`: evaluate the gate once;
   * throw ERR_NOT_SUPPORTED without calling `fn` when it is false; otherwise
   * call `fn` once with `args` and return nothing.
   */
  function Call<A>(g: GateSpec, supports: Oracle, s: Session<A>, args: A): (r: (Outcome, Session<A>))
    ensures r.0 == Returned <==> Supported(g, supports, s.version, s.answer)
    ensures r.0 != Returned ==> r.0 == Threw(NotSupported) && r.1.calls == s.calls
    ensures r.0 == Returned ==> r.1.calls == s.calls + [args]
    ensures r.1.checkLog == s.checkLog + Evaluated(g, supports, s.version)
    ensures r.1.version == s.version && r.1.answer == s.answer
  {
    var (ok, after) := Query(g, supports, s);
    if !ok then (Threw(NotSupported), after)
    else (Returned, after.(calls := after.calls + [args]))
  }

  /** `answer` with check `c` now answering `b`. */
  function Update(answer: Answers, c: CheckId, b: bool): Answers {
    x => if x == c then b else answer(x)
  }

  /**
   * What can happen to one wrapper over its lifetime: the global version
   * changes, a check closure starts answering differently, a caller queries
   * `isSupported()`, or a caller calls the wrapper.
   */
  datatype Op<A> =
    | SetVersion(version: Version)
    | SetAnswer(check: CheckId, answer: bool)
    | Ask
    | Invoke(args: A)

  function Step<A>(g: GateSpec, supports: Oracle, s: Session<A>, op: Op<A>): Session<A> {
    match op
    case SetVersion(v) => s.(version := v)
    case SetAnswer(c, b) => s.(answer := Update(s.answer, c, b))
    case Ask => Query(g, supports, s).1
    case Invoke(args) => Call(g, supports, s, args).1
  }

  /** The session after the operations `ops`, in order, on a wrapper built once. */
  function Run<A>(g: GateSpec, supports: Oracle, s: Session<A>, ops: seq<Op<A>>): Session<A>
    decreases |ops|
  {
    if ops == [] then s
    else Step(g, supports, Run(g, supports, s, ops[..|ops| - 1]), ops[|ops| - 1])
  }

  /** The version set by the last `SetVersion` in `ops`, or `v` when there is none. */
  function VersionAfter<A>(v: Version, ops: seq<Op<A>>): Version
    decreases |ops|
  {
    if ops == [] then v
    else match ops[|ops| - 1]
      case SetVersion(w) => w
      case _ => VersionAfter(v, ops[..|ops| - 1])
  }

  /** The answers after applying, in order, every `SetAnswer` of `ops` to `a`. */
  function AnswersAfter<A>(a: Answers, ops: seq<Op<A>>): Answers
    decreases |ops|
  {
    if ops == [] then a
    else match ops[|ops| - 1]
      case SetAnswer(c, b) => Update(AnswersAfter(a, ops[..|ops| - 1]), c, b)
      case _ => AnswersAfter(a, ops[..|ops| - 1])
  }

  /**
   * Reference definition of the calls `fn` receives: the argument lists of the
   * `Invoke`s at which the gate held under the version and answers written by
   * the operations before it.
   */
  function Admitted<A>(g: GateSpec, supports: Oracle, s: Session<A>, ops: seq<Op<A>>): seq<A>
    decreases |ops|
  {
    if ops == [] then []
    else
      var before := ops[..|ops| - 1];
      Admitted(g, supports, s, before) +
        match ops[|ops| - 1]
        case Invoke(args) =>
          if Supported(g, supports, VersionAfter(s.version, before), AnswersAfter(s.answer, before))
          then [args] else []
        case _ => []
  }

  /** The wrapper never writes the version or the check answers: they are whatever was last set. */
  lemma {:induction false} EnvironmentAfterRun<A>(g: GateSpec, supports: Oracle, s: Session<A>, ops: seq<Op<A>>)
    ensures Run(g, supports, s, ops).version == VersionAfter(s.version, ops)
    ensures Run(g, supports, s, ops).answer == AnswersAfter(s.answer, ops)
    decreases |ops|
  {
    if ops != [] {
      EnvironmentAfterRun(g, supports, s, ops[..|ops| - 1]);
    }
  }

  /**
   * `fn` is called exactly once per admitted `Invoke`, with exactly its
   * arguments and in order, and never for a refused one.
   */
  lemma {:induction false} CallLog<A>(g: GateSpec, supports: Oracle, s: Session<A>, ops: seq<Op<A>>)
    ensures Run(g, supports, s, ops).calls == s.calls + Admitted(g, supports, s, ops)
    decreases |ops|
  {
    if ops != [] {
      var before := ops[..|ops| - 1];
      CallLog(g, supports, s, before);
      EnvironmentAfterRun(g, supports, s, before);
    }
  }

  /**
   * Freshness: after the version changes to `v`, both the next query and the
   * next call are gated by `v`, with no rebuilding of the wrapper.
   */
  lemma FreshAfterVersionChange<A>(g: GateSpec, supports: Oracle, s: Session<A>, ops: seq<Op<A>>, v: Version, args: A)
    ensures Query(g, supports, Run(g, supports, s, ops + [SetVersion(v)])).0
         == Supported(g, supports, v, AnswersAfter(s.answer, ops))
    ensures Run(g, supports, s, ops + [SetVersion(v), Invoke(args)]).calls
         == Run(g, supports, s, ops).calls +
            (if Supported(g, supports, v, AnswersAfter(s.answer, ops)) then [args] else [])
  {
    var ops1 := ops + [SetVersion(v)];
    var ops2 := ops1 + [Invoke(args)];
    assert ops + [SetVersion(v), Invoke(args)] == ops2;
    assert ops2[..|ops2| - 1] == ops1;
    assert ops1[..|ops1| - 1] == ops;
    EnvironmentAfterRun(g, supports, s, ops);
  }

  /**
   * The exposed query is the check the call path uses: right after
   * `isSupported()` answered true, a call is not refused and reaches `fn`.
   */
  lemma AskThenInvoke<A>(g: GateSpec, supports: Oracle, s: Session<A>, ops: seq<Op<A>>, args: A)
    requires Query(g, supports, Run(g, supports, s, ops)).0
    ensures Run(g, supports, s, ops + [Ask, Invoke(args)]).calls == Run(g, supports, s, ops).calls + [args]
  {
    var ops1 := ops + [Ask];
    var ops2 := ops1 + [Invoke(args)];
    assert ops + [Ask, Invoke(args)] == ops2;
    assert ops2[..|ops2| - 1] == ops1;
    assert ops1[..|ops1| - 1] == ops;
  }
}
