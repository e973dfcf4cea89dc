/**
 * The wrapper returned by `withIsSupported` as an object, and the global
 * state it reads on every call.
 */
module Scopes {
  import opened Wrappers
  import opened Gate

  /**
   * The state shared by every wrapper: the `$version` signal, what each check
   * closure currently answers, and a ghost log of the check closures called.
   */
  class Platform {
    const supports: Oracle
    var version: Version
    var answer: Answers
    ghost var checkLog: seq<CheckId>

    constructor (supports: Oracle, version: Version, answer: Answers)
      ensures this.supports == supports && this.version == version && this.answer == answer
      ensures checkLog == []
    {
      this.supports := supports;
      this.version := version;
      this.answer := answer;
      checkLog := [];
    }

    /** The `$version` signal is set to `v`; nothing else changes. */
    method SetVersion(v: Version)
      modifies this
      ensures version == v && answer == old(answer) && checkLog == old(checkLog)
    {
      version := v;
    }

    /** Check `c` now answers `b`; nothing else changes. */
    method SetAnswer(c: CheckId, b: bool)
      modifies this
      ensures answer == Update(old(answer), c, b)
      ensures version == old(version) && checkLog == old(checkLog)
    {
      answer := Update(answer, c, b);
    }

    /** Calls check closure `c` and records the call. */
    method Check(c: CheckId) returns (r: bool)
      modifies this
      ensures r == answer(c)
      ensures checkLog == old(checkLog) + [c]
      ensures version == old(version) && answer == old(answer)
    {
      r := answer(c);
      checkLog := checkLog + [c];
    }
  }

  /**
   * A function wrapped by `withIsSupported`: its gate, the global state it
   * reads, and a ghost log of the argument lists the wrapped `fn` received.
   */
  class Gated<A> {
    const gate: GateSpec
    const platform: Platform
    ghost var calls: seq<A>

    /** Everything a call can read or change, as a value of the pure model. */
    ghost function Snapshot(): Session<A>
      reads this, platform
    {
      Session(platform.version, platform.answer, platform.checkLog, calls)
    }

    /** `withIsSupported(fn, isSupported)`: the raw-predicate overload. */
    constructor FromCheck(platform: Platform, check: CheckId)
      ensures gate == Raw(check) && this.platform == platform && calls == []
    {
      gate := Raw(check);
      this.platform := platform;
      calls := [];
    }

    /** `withIsSupported(fn, method, additionalCheck?)`: the method overload. */
    constructor FromMethod(platform: Platform, name: MethodName, extra: Option<CheckId>)
      ensures gate == Method(name, extra) && this.platform == platform && calls == []
    {
      gate := Method(name, extra);
      this.platform := platform;
      calls := [];
    }

    /** The attached `isSupported()`, reading the version and the checks afresh. */
    method IsSupported() returns (r: bool)
      modifies platform
      ensures (r, Snapshot()) == Query(gate, platform.supports, old(Snapshot()))
    {
      match gate {
        case Method(name, extra) =>
          r := platform.supports(name, platform.version);
          if r && extra.Some? {
            r := platform.Check(extra.value);
          }
        case Raw(check) =>
          r := platform.Check(check);
      }
      assert Snapshot().checkLog == old(Snapshot()).checkLog + Evaluated(gate, platform.supports, old(platform.version));
    }

    /** Calling the wrapper with argument list `args`. */
    method Invoke(args: A) returns (o: Outcome)
      modifies this, platform
      ensures (o, Snapshot()) == Call(gate, platform.supports, old(Snapshot()), args)
    {
      var ok := IsSupported();
      if !ok {
        o := Threw(NotSupported);
        return;
      }
      calls := calls + [args];
      o := Returned;
    }
  }

  /**
   * A haptic-feedback wrapper over one platform whose version moves from
   * "6.0" to "6.1" and then to "6.2", given an oracle with the threshold
   * the haptic tests expect (6.1): refused, then delegated once with the
   * caller's arguments, then supported.
   */
  method HapticScenario(supports: Oracle) returns (at60: Outcome, at61: Outcome, at62: bool, ghost calls: seq<string>)
    requires !supports("web_app_trigger_haptic_feedback", "6.0")
    requires supports("web_app_trigger_haptic_feedback", "6.1")
    requires supports("web_app_trigger_haptic_feedback", "6.2")
    ensures at60 == Threw(NotSupported)
    ensures at61 == Returned
    ensures at62
    ensures calls == ["heavy"]
  {
    var platform := new Platform(supports, "6.0", _ => false);
    var impact := new Gated<string>.FromMethod(platform, "web_app_trigger_haptic_feedback", None);
    at60 := impact.Invoke("heavy");
    platform.SetVersion("6.1");
    at61 := impact.Invoke("heavy");
    platform.SetVersion("6.2");
    at62 := impact.IsSupported();
    calls := impact.calls;
  }
}
