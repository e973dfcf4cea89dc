# withIsSupported: a verified model of the SDK's capability gate

The Telegram Mini Apps SDK wraps many of its functions with `withIsSupported`
(`packages/sdk/src/scopes/withIsSupported.ts`). The wrapper attaches an
`isSupported()` query to a function and refuses to run the function,
throwing `ERR_NOT_SUPPORTED`, whenever that query is false. The gate comes in
two forms:

- a raw predicate `() => boolean`;
- a Mini Apps method name, optionally with an additional check. The gate then
  holds when `supports(method, $version())` is true and the additional check,
  if given, answers true. The check is called only when the method is
  supported.

The gate is evaluated afresh on every query and on every call. A method gate
reads the current value of the global `$version` signal each time; a raw
gate never reads it and answers whatever its predicate answers.

The project has three files:

- `wrappers.dfy`: the `Option` datatype.
- `gate.dfy` (module `Gate`): the pure model.
  - `GateSpec` is the tagged union of the two overloads.
  - `Supported` is the answer of `isSupported()`.
  - `Evaluated` lists the check closures one evaluation calls, in order. It
    makes the short-circuit of `&&` visible.
  - `Query` and `Call` are one query and one call. Each takes and returns a
    `Session`: the version, the current answers of the checks, a log of check
    calls, and a log of the argument lists the wrapped `fn` received.
  - `Run` plays a sequence of operations on one wrapper. The operations are
    version changes, check-answer changes, queries and calls.
  - `Admitted`, `VersionAfter` and `AnswersAfter` are an independent
    reference for what `fn` receives over such a sequence.
- `scopes.dfy` (module `Scopes`): the imperative form.
  - `Platform` holds the `$version` signal, the current answers of the check
    closures, and a ghost log of check calls.
  - `Gated<A>` is the object `withIsSupported` returns, with a ghost log of
    `fn`'s calls.
  - Its methods `IsSupported` and `Invoke` are proved equal to `Query` and
    `Call` of the pure model.
  - `HapticScenario` is a client that changes the version under a wrapper
    that already exists.

Where the comments and the code disagree, the model follows the code:

- The doc comments at `withIsSupported.ts` lines 17-18 and 31-32 say the
  error is thrown when `isSupported` "returned true". Line 58 throws when it
  is false, and the model throws when it is false.
- The wrapper does not return `fn`'s result (line 61 has no `return`), even
  though the cast `as F` keeps `fn`'s declared type. A call therefore ends in
  `Returned`, which carries no value, or in `Threw(NotSupported)`.
- The error carries no method name or predicate tag. Line 59 builds it from
  the error code alone.

## Model

| member | source | states |
|---|---|---|
| `Gate.Supported` | packages/sdk/src/scopes/withIsSupported.ts:52-54 | Computes the answer of `isSupported()`: for a method gate, `supports(name, version)` and (no extra check, or the extra check's answer); for a raw gate, the predicate's answer. Its contract: a method gate never holds when the method is unsupported. |
| `Gate.Evaluated` | packages/sdk/src/scopes/withIsSupported.ts:53 | Computes the check closures one evaluation calls, in order: the raw predicate, or the extra check only when the method is supported. Its contract: at most one closure is called, and for a method gate it is the extra check, called only after the method was found supported. |
| `Gate.MethodGate` | packages/sdk/src/scopes/withIsSupported.ts:52-53 | A method gate holds iff `supports(name, version)` and (no extra check, or the extra check answers true). When the method is supported, the extra check is the only closure called. When it is not, the gate is false and no check is called. |
| `Gate.MethodGateWithoutExtra` | packages/sdk/src/scopes/withIsSupported.ts:53 | Without an additional check, method support alone decides. The answer is the same under any check answers, and no check is called. |
| `Gate.RawGate` | packages/sdk/src/scopes/withIsSupported.ts:52-54 | A raw gate answers what its predicate answers. The answer and the calls made are the same under every version and every oracle, and the predicate is called exactly once. |
| `Gate.FailClosed` | packages/sdk/src/scopes/withIsSupported.ts:51-55 | The gate holds iff the method (for a method gate) is supported and every check closure that was called answered true. Any false makes it unsupported. |
| `Gate.OnlyEvaluatedChecksMatter` | packages/sdk/src/scopes/withIsSupported.ts:53 | Two sets of check answers that agree on the checks actually called give the same answer. A check skipped by the short-circuit cannot influence the result. |
| `Gate.Query` | packages/sdk/src/scopes/withIsSupported.ts:51-55 | `isSupported()` answers the gate under the current version and answers. It appends exactly the called checks to the check log, and it changes neither the version, the answers nor `fn`'s calls. |
| `Gate.Call` | packages/sdk/src/scopes/withIsSupported.ts:57-61 | A call returns iff the gate holds under the current state. On refusal it throws `NotSupported` and `fn`'s call log is unchanged. On success `fn`'s log grows by exactly the passed arguments. The gate is evaluated once, and the version and answers are left unchanged. |
| `Gate.EnvironmentAfterRun` | packages/sdk/src/scopes/withIsSupported.ts:51-61 | After any sequence of operations, the version and check answers are those last written by `SetVersion`/`SetAnswer`. Queries and calls never write them. |
| `Gate.CallLog` | packages/sdk/src/scopes/withIsSupported.ts:57-61 | Over any sequence of operations, `fn` receives exactly the argument lists of the calls whose gate held under the version and answers in force at that moment, once each and in order. Refused calls never reach it. |
| `Gate.FreshAfterVersionChange` | packages/sdk/src/scopes/withIsSupported.ts:51-58 | After the version changes to `v`, the next `isSupported()` answers the gate at `v`, and the next call is admitted iff the gate holds at `v`. The wrapper is never rebuilt. |
| `Gate.AskThenInvoke` | packages/sdk/src/scopes/withIsSupported.ts:51-64 | If `isSupported()` answered true and nothing changed since, the next call is not refused and `fn` receives its arguments. |
| `Scopes.Platform.constructor` | packages/sdk/src/scopes/withIsSupported.ts:1-3 | The shared state starts with the given oracle, version and check answers, and an empty check log. |
| `Scopes.Platform.SetVersion` | packages/sdk/src/scopes/withIsSupported.ts:3 | Setting the `$version` signal changes the version only. |
| `Scopes.Platform.SetAnswer` | packages/sdk/src/scopes/withIsSupported.ts:47-49 | A check closure starts answering `b`. Nothing else changes. |
| `Scopes.Platform.Check` | packages/sdk/src/scopes/withIsSupported.ts:53-54 | Calling a check closure returns its current answer and records the call. The version and answers are unchanged. |
| `Scopes.Gated.FromCheck` | packages/sdk/src/scopes/withIsSupported.ts:22-25 | The raw-predicate overload builds a wrapper with gate `Raw(check)` and no calls of `fn`. |
| `Scopes.Gated.FromMethod` | packages/sdk/src/scopes/withIsSupported.ts:37-42 | The method overload builds a wrapper with gate `Method(name, extra)` and no calls of `fn`. |
| `Scopes.Gated.IsSupported` | packages/sdk/src/scopes/withIsSupported.ts:51-55 | The attached query returns, and leaves behind, exactly what `Gate.Query` specifies for the current state. |
| `Scopes.Gated.Invoke` | packages/sdk/src/scopes/withIsSupported.ts:57-61 | Calling the wrapper returns, and leaves behind, exactly what `Gate.Call` specifies for the current state. |
| `Scopes.HapticScenario` | packages/sdk/__tests__/components/HapticFeedback/HapticFeedback.ts:55-73 | A scenario built on the test's thresholds: given an oracle in which the haptic method is supported from 6.1 (false at "6.0", true at "6.1" and "6.2"), one wrapper refuses at 6.0. After the version moves to 6.1 it delegates, so `fn` has received exactly the one argument list `["heavy"]`, and at 6.2 its query answers true. The test itself checks three separate instances and never moves the version under one object. |

## Left out

- `supports` and its version table live in the bridge package, which is not part of this model. The oracle is a parameter of type `(MethodName, Version) -> bool`. Nothing is assumed about it, and version strings are never compared here.
- Scopes.HapticScenario: the 6.1 threshold is an assumption, stated as its `requires`. It comes from the tests of the `HapticFeedback` class, whose source is not part of this model.
- The `$version` signal (`@/scopes/globals.js`) is not part of this model. It is a plain mutable field of `Platform`.
- Check closures are arbitrary JavaScript functions. The model treats each one as a named value, `CheckId`, whose current answer is given by `Platform.answer`. Its only side effect is the call recorded in the log. A check closure whose answer depends on `$version` is not updated by `SetVersion` in this model; such a change needs an explicit `SetAnswer`. So `RawGate`'s "same under every version" is a claim about the wrapper, not about the predicate.
- A check closure or `fn` that throws is not modelled. In the source such an exception propagates out of `isSupported()` or out of the wrapper.
- The wrapped `fn` is modelled only by its call log. Its effects and its return value are left out, because the wrapper discards the value.
- `TypedError` and the construction of `ERR_NOT_SUPPORTED` are not part of this model. The error is the single value `NotSupported`.
- The implementation signature would accept a third argument together with a raw predicate, and would ignore it. The overloads forbid that call, and `GateSpec.Raw` has no room for it.
- `packages/sdk-react/src/lib/hooks.ts` (React subscription hooks) and `packages/sdk-react/src/lib/init-data/withInitData.tsx` (a JSX higher-order component) are UI-framework glue with no gating logic.
- The `postEvent` calls checked in `HapticFeedback.ts` lines 9-52 are transport I/O of a class that is not part of this model.
