# Join-failure taxonomy of a voice-channel library

This project models `src/error.rs` of songbird, a Rust voice library for Discord. That file defines
`JoinError`, the single failure type of every request to join or leave a voice channel. It also holds
the two recovery predicates callers use to decide how to retry:

- `should_leave_server` says the caller should leave the channel on the gateway before rejoining.
- `should_reconnect_driver` says the caller can retry only the media connection.

The same file gives `JoinError` its `Display` text and its `Error::source`. It also converts into
`JoinError` the four foreign errors a join can meet: the driver's `ConnectionError`, the futures
channel's `TrySendError` carrying serenity's `InterMessage`, and twilight's `ClusterCommandError`
and `CommandError`.

The model describes one build with every cargo feature enabled, so all ten cases exist.

- `foreign.dfy` (module `Foreign`) models the four foreign error types. The library cannot see
  inside them, so each one is modelled only by what its holder can observe: a `DynError` with the
  value's own opaque state, its display text and its optional source.
- `join_error.dfy` (module `JoinErrors`) holds:
  - the `JoinError` datatype;
  - the predicates `ShouldLeaveServer` and `ShouldReconnectDriver`;
  - `Display`, `Source` and the four `From…` conversions;
  - the lemmas tying these together.

`Display` returns a string. It does not write into a formatter.

A backend case does not return the wrapped error as its source: src/error.rs:121-125 pass on that
error's own `source()`. The wrapped error is still reachable through the case's payload.
`BackendWrappersAreTransparent` states what the backend cases return, and `BackendSourceCanDiffer`
shows that this source can differ from the wrapped error.

### Where the code and its doc comments disagree

The doc comment on `Driver` tells users to leave before reconnecting (src/error.rs:46-47). But
`should_leave_server` is false for `Driver`, and the model follows the code.

## Model

| member | source | states |
|---|---|---|
| `JoinErrors.ShouldLeaveServer` | src/error.rs:68-70 | No contract of its own. True exactly for `TimedOut`, as `ShouldLeaveServerExactlyOnTimeout` and `RecoveryAdviceTable` state. |
| `JoinErrors.ShouldReconnectDriver` | src/error.rs:80-82 | No contract of its own. True exactly for `Driver` with any payload, as `ShouldReconnectDriverExactlyOnDriver` and `RecoveryAdviceTable` state. |
| `JoinErrors.RecoveryAdviceTable` | src/error.rs:68-82 | Table over all ten cases, whatever the payload. `TimedOut` is the only case that advises leaving. `Driver` is the only case that advises reconnecting the driver. Every backend wrapper and every other protocol case advises neither. |
| `JoinErrors.ShouldLeaveServerExactlyOnTimeout` | src/error.rs:68-70 | `should_leave_server` holds exactly for the value `TimedOut`. |
| `JoinErrors.ShouldReconnectDriverExactlyOnDriver` | src/error.rs:80-82 | `should_reconnect_driver` holds exactly when the error is built from some connection error. |
| `JoinErrors.RecoveryAdviceExclusive` | src/error.rs:68-82 | The two predicates never both hold of one error. |
| `JoinErrors.Display` | src/error.rs:86-105 | Every display text starts with `"failed to join voice channel: "`. |
| `JoinErrors.DisplayFixedMessages` | src/error.rs:88-97 | The exact text after the prefix for each payload-free case and for `Driver`. The `Driver` text is the same whatever connection error is wrapped. |
| `JoinErrors.DisplayIdentifiesFixedCase` | src/error.rs:88-97 | Leaving out the backend wrappers, two errors print the same text exactly when they are equal or both are `Driver`. |
| `JoinErrors.DisplayDoesNotDetermineAdvice` | src/error.rs:88-103 | In this model, a wrapped error whose own text is `TimedOut`'s message prints exactly like `TimedOut` and still advises no leave. src/error.rs:99 does nothing to prevent this, so the display text does not decide the recovery advice. |
| `JoinErrors.Source` | src/error.rs:109-128 | The source is `None` for the six payload-free cases. For `Driver` it is the wrapped connection error itself. For a backend wrapper it is the wrapped error's own source. |
| `JoinErrors.BackendWrappersAreTransparent` | src/error.rs:99-125 | A backend wrapper prints the prefix and then exactly the wrapped error's text. Its source is the wrapped error's source. |
| `JoinErrors.BackendSourceCanDiffer` | src/error.rs:120-125 | The source of a converted backend error can differ from the wrapped error itself, because the wrapped error's own source is passed on. |
| `JoinErrors.SourcePresence` | src/error.rs:111-126 | An error has a source exactly when it is `Driver`, or when it is a backend wrapper whose wrapped error has a source. |
| `JoinErrors.FromTrySendError` | src/error.rs:130-135 | The result is `Serenity` and stores its argument unchanged. It advises neither leaving nor reconnecting. Its display and source are the argument's. |
| `JoinErrors.FromCommandError` | src/error.rs:137-142 | The result is `TwilightShard` and stores its argument unchanged. It advises neither leaving nor reconnecting. Its display and source are the argument's. |
| `JoinErrors.FromClusterCommandError` | src/error.rs:144-149 | The result is `TwilightCluster` and stores its argument unchanged. It advises neither leaving nor reconnecting. Its display and source are the argument's. |
| `JoinErrors.FromConnectionError` | src/error.rs:151-156 | The result is `Driver` and stores its argument unchanged. It advises a driver reconnect and no leave. Its source is the argument, with the argument's display text. |
| `JoinErrors.ConversionsAreInjective` | src/error.rs:130-156 | Each conversion keeps its argument: different inputs give different join errors. |
| `JoinErrors.ConversionsNeverCollide` | src/error.rs:130-156 | No conversion returns a payload-free case, and no two conversions return the same case. |

## Left out

- The four foreign error types are modelled only through what a `dyn Error` exposes (display text
  and source), because they are defined in other crates. Their `Display` and `source` are stored
  fields, not computed.
- The `Debug` derive is left out; it produces no behaviour that this layer states anything about.
- `fmt::Formatter` mechanics and the `fmt::Result` error path of `write!` are left out, because
  display is modelled as a function returning a string.
- Cargo feature gating is left out. The model is the build with `serenity`, `twilight`,
  `driver-core` and `gateway-core` all enabled.
- `#[non_exhaustive]` is left out. Dafny datatypes are closed, so the model cannot express that
  downstream matches need a wildcard arm.
- The `JoinResult<T>` alias and the `ConnectionResult`, `TrackError` and `TrackResult` re-exports
  are left out (src/error.rs:158-166). They are aliases with no logic.
- The join and leave orchestration that builds these errors is in files that are not part of this
  model. That covers zero-ID validation, waiting for gateway confirmation against a deadline,
  cancellation and supersession, and sending voice-state commands.
