/** The error types that a join failure can carry but that belong to other components: the voice
    driver's connection error, the futures channel's `TrySendError` carrying serenity's
    `InterMessage`, and twilight's `ClusterCommandError` and `CommandError`. Their internals are not
    modelled. A join error only ever stores one of them, prints it and asks it for its source, so
    each is modelled by exactly what a `dyn Error` lets its holder observe. */
module Foreign {

  /** Rust's `Option`. */
  datatype Option<+T> = None | Some(value: T)

  /** What a `&dyn Error` exposes: its `Display` text and its `source()`. The `state` field stands for
      the value's own data, which nothing in this layer reads; two errors with the same text can
      still be different values. */
  datatype DynError = DynError(state: nat, text: string, cause: Option<DynError>)

  /** The driver's connection error, re-exported as `ConnectionError`. */
  datatype ConnectionError = ConnectionError(obj: DynError) {
    /** Its own `Display` text. */
    function Display(): string { obj.text }
    /** Its own `Error::source`. */
    function Source(): Option<DynError> { obj.cause }
    /** The value seen as a `&dyn Error`. */
    function AsDyn(): DynError { obj }
  }

  /** The futures channel's `TrySendError` carrying serenity's `InterMessage`: the failure to queue
      a gateway message. */
  datatype TrySendError = TrySendError(obj: DynError) {
    function Display(): string { obj.text }
    function Source(): Option<DynError> { obj.cause }
    function AsDyn(): DynError { obj }
  }

  /** Twilight's `ClusterCommandError`, a command rejected by a shard cluster. */
  datatype ClusterCommandError = ClusterCommandError(obj: DynError) {
    function Display(): string { obj.text }
    function Source(): Option<DynError> { obj.cause }
    function AsDyn(): DynError { obj }
  }

  /** Twilight's `CommandError`, a command rejected by a single shard. */
  datatype CommandError = CommandError(obj: DynError) {
    function Display(): string { obj.text }
    function Source(): Option<DynError> { obj.cause }
    function AsDyn(): DynError { obj }
  }
}
