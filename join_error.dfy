/** The join-failure taxonomy: every way a request to join or leave a voice channel can fail, the
    two pieces of recovery advice derived from a failure, its display text, its causal source, and
    the conversions from the foreign error types. The model is one build with every cargo feature
    on, so all ten cases exist. */
module JoinErrors {
  import opened Foreign

  /** A failed join or leave. The first six cases are detected by the protocol itself and carry
      nothing; `Driver` wraps a failed media connection; the last three wrap a gateway backend's
      failure to send a voice-state command. */
  datatype JoinError =
    | Dropped
    | NoSender
    | NoCall
    | TimedOut
    | IllegalGuild
    | IllegalChannel
    | Driver(conn: ConnectionError)
    | Serenity(send: TrySendError)
    | TwilightCluster(cluster: ClusterCommandError)
    | TwilightShard(shard: CommandError)

  /** The payload-free cases: terminal causes rather than wrappers. */
  predicate IsProtocolCase(e: JoinError) {
    e.Dropped? || e.NoSender? || e.NoCall? || e.TimedOut? || e.IllegalGuild? || e.IllegalChannel?
  }

  /** The cases that wrap a gateway backend's send error. */
  predicate IsBackendCase(e: JoinError) {
    e.Serenity? || e.TwilightCluster? || e.TwilightShard?
  }

  /** The foreign error a case carries, seen as a `dyn Error`; `None` for the protocol cases. */
  function Payload(e: JoinError): (p: Option<DynError>)
    ensures p.None? <==> IsProtocolCase(e)
  {
    match e
    case Driver(c) => Some(c.AsDyn())
    case Serenity(t) => Some(t.AsDyn())
    case TwilightCluster(k) => Some(k.AsDyn())
    case TwilightShard(s) => Some(s.AsDyn())
    case _ => None
  }

  // ---------------------------------------------------------------------------------------------
  // Recovery advice

  /** The failure may have left the gateway believing the bot is still in a channel, so the caller
      should leave before rejoining. */
  predicate ShouldLeaveServer(e: JoinError) {
    e.TimedOut?
  }

  /** The gateway handshake succeeded and only the media connection failed, so the caller may retry
      the driver connection alone with the connection info already received. */
  predicate ShouldReconnectDriver(e: JoinError) {
    e.Driver?
  }

  /** The advice for every case, written out as a table: only `TimedOut` asks for a leave, only
      `Driver` (with any payload) allows a driver-only reconnect. */
  lemma RecoveryAdviceTable()
    ensures ShouldLeaveServer(TimedOut) && !ShouldReconnectDriver(TimedOut)
    ensures !ShouldLeaveServer(Dropped) && !ShouldReconnectDriver(Dropped)
    ensures !ShouldLeaveServer(NoSender) && !ShouldReconnectDriver(NoSender)
    ensures !ShouldLeaveServer(NoCall) && !ShouldReconnectDriver(NoCall)
    ensures !ShouldLeaveServer(IllegalGuild) && !ShouldReconnectDriver(IllegalGuild)
    ensures !ShouldLeaveServer(IllegalChannel) && !ShouldReconnectDriver(IllegalChannel)
    ensures forall c :: !ShouldLeaveServer(Driver(c)) && ShouldReconnectDriver(Driver(c))
    ensures forall t :: !ShouldLeaveServer(Serenity(t)) && !ShouldReconnectDriver(Serenity(t))
    ensures forall k ::
      !ShouldLeaveServer(TwilightCluster(k)) && !ShouldReconnectDriver(TwilightCluster(k))
    ensures forall s :: !ShouldLeaveServer(TwilightShard(s)) && !ShouldReconnectDriver(TwilightShard(s))
  {
  }

  /** A leave is advised for exactly one error value, `TimedOut`. */
  lemma ShouldLeaveServerExactlyOnTimeout(e: JoinError)
    ensures ShouldLeaveServer(e) <==> e == TimedOut
  {
  }

  /** A driver-only reconnect is advised exactly for the errors built from some connection error. */
  lemma ShouldReconnectDriverExactlyOnDriver(e: JoinError)
    ensures ShouldReconnectDriver(e) <==> exists c :: e == Driver(c)
  {
  }

  /** The two pieces of advice never apply to the same failure. */
  lemma RecoveryAdviceExclusive(e: JoinError)
    ensures !(ShouldLeaveServer(e) && ShouldReconnectDriver(e))
  {
  }

  // ---------------------------------------------------------------------------------------------
  // Display

  /** The text every join error's display starts with. */
  const Prefix: string := "failed to join voice channel: "

  /** `Display::fmt`: the prefix, then either the case's fixed message or the wrapped backend error's
      own display text. */
  function Display(e: JoinError): (s: string)
    ensures Prefix <= s
  {
    Prefix + match e
      case Dropped => "request was cancelled/dropped"
      case NoSender => "no gateway destination"
      case NoCall => "tried to leave a non-existent call"
      case TimedOut => "gateway response from Discord timed out"
      case IllegalGuild => "target guild ID was zero"
      case IllegalChannel => "target channel ID was zero"
      case Driver(_) => "establishing connection failed"
      case Serenity(t) => t.Display()
      case TwilightCluster(k) => k.Display()
      case TwilightShard(s) => s.Display()
  }

  /** The full display text of each case that prints a fixed message; for `Driver` it is the same
      whatever connection error is wrapped. */
  lemma DisplayFixedMessages()
    ensures Display(Dropped) == Prefix + "request was cancelled/dropped"
    ensures Display(NoSender) == Prefix + "no gateway destination"
    ensures Display(NoCall) == Prefix + "tried to leave a non-existent call"
    ensures Display(TimedOut) == Prefix + "gateway response from Discord timed out"
    ensures Display(IllegalGuild) == Prefix + "target guild ID was zero"
    ensures Display(IllegalChannel) == Prefix + "target channel ID was zero"
    ensures forall c :: Display(Driver(c)) == Prefix + "establishing connection failed"
  {
  }

  /** Apart from the backend wrappers, the display text tells the cases apart, and it tells nothing
      more: two such errors print alike exactly when they are equal or both `Driver`. */
  lemma DisplayIdentifiesFixedCase(a: JoinError, b: JoinError)
    requires !IsBackendCase(a) && !IsBackendCase(b)
    ensures Display(a) == Display(b) <==> a == b || (a.Driver? && b.Driver?)
  {
  }

  /** A backend error's text is printed as it is, and nothing in this layer keeps it apart from the
      fixed messages: a wrapped error whose text is `TimedOut`'s prints like `TimedOut` yet advises
      no leave, so the display text does not determine the recovery advice. */
  lemma DisplayDoesNotDetermineAdvice()
    ensures exists t ::
      Display(Serenity(t)) == Display(TimedOut) && ShouldLeaveServer(Serenity(t)) != ShouldLeaveServer(TimedOut)
  {
    var t := TrySendError(DynError(0, "gateway response from Discord timed out", None));
    assert Display(Serenity(t)) == Display(TimedOut);
  }

  // ---------------------------------------------------------------------------------------------
  // Causal source

  /** `Error::source`: nothing for the protocol cases, the connection error itself for `Driver`,
      and for a backend wrapper whatever the wrapped error gives as its own source. */
  function Source(e: JoinError): (r: Option<DynError>)
    ensures IsProtocolCase(e) ==> r == None
    ensures e.Driver? ==> r == Payload(e)
    ensures IsBackendCase(e) ==> r == Payload(e).value.cause
  {
    match e
    case Dropped => None
    case NoSender => None
    case NoCall => None
    case TimedOut => None
    case IllegalGuild => None
    case IllegalChannel => None
    case Driver(c) => Some(c.AsDyn())
    case Serenity(t) => t.Source()
    case TwilightCluster(k) => k.Source()
    case TwilightShard(s) => s.Source()
  }

  /** A backend wrapper is transparent: its detail text and its source are both those of the wrapped
      error. (A `Driver` error is the opposite: its text is fixed and its source is the wrapped
      error.) */
  lemma BackendWrappersAreTransparent(e: JoinError)
    requires IsBackendCase(e)
    ensures Display(e) == Prefix + Payload(e).value.text
    ensures Source(e) == Payload(e).value.cause
  {
  }

  /** Unlike `Driver`, a converted backend error does not hand back the wrapped error as its source:
      for a wrapped error without a source of its own, the join error has none either. */
  lemma BackendSourceCanDiffer()
    ensures exists t :: Source(FromTrySendError(t)) != Some(t.AsDyn())
  {
    var t := TrySendError(DynError(0, "x", None));
    assert Source(FromTrySendError(t)) == None;
  }

  /** A source is present exactly when the error wraps something whose chain continues from it: for
      `Driver` always, for a backend exactly when the wrapped error has a source of its own. */
  lemma SourcePresence(e: JoinError)
    ensures Source(e).Some? <==> e.Driver? || (IsBackendCase(e) && Payload(e).value.cause.Some?)
  {
  }

  // ---------------------------------------------------------------------------------------------
  // Conversions (`From` impls)

  /** `From<TrySendError<InterMessage>>`. */
  function FromTrySendError(t: TrySendError): (e: JoinError)
    ensures e.Serenity? && e.send == t && Payload(e) == Some(t.AsDyn())
    ensures !ShouldLeaveServer(e) && !ShouldReconnectDriver(e)
    ensures Display(e) == Prefix + t.Display() && Source(e) == t.Source()
  {
    Serenity(t)
  }

  /** `From<CommandError>`. */
  function FromCommandError(s: CommandError): (e: JoinError)
    ensures e.TwilightShard? && e.shard == s && Payload(e) == Some(s.AsDyn())
    ensures !ShouldLeaveServer(e) && !ShouldReconnectDriver(e)
    ensures Display(e) == Prefix + s.Display() && Source(e) == s.Source()
  {
    TwilightShard(s)
  }

  /** `From<ClusterCommandError>`. */
  function FromClusterCommandError(k: ClusterCommandError): (e: JoinError)
    ensures e.TwilightCluster? && e.cluster == k && Payload(e) == Some(k.AsDyn())
    ensures !ShouldLeaveServer(e) && !ShouldReconnectDriver(e)
    ensures Display(e) == Prefix + k.Display() && Source(e) == k.Source()
  {
    TwilightCluster(k)
  }

  /** `From<ConnectionError>`: the result advises a driver-only reconnect, and its source is the
      connection error itself, so the original is recovered through the causal chain. */
  function FromConnectionError(c: ConnectionError): (e: JoinError)
    ensures e.Driver? && e.conn == c && Payload(e) == Some(c.AsDyn())
    ensures !ShouldLeaveServer(e) && ShouldReconnectDriver(e)
    ensures Source(e) == Some(c.AsDyn()) && Source(e).value.text == c.Display()
  {
    Driver(c)
  }

  /** Each conversion keeps its argument: different foreign errors give different join errors. */
  lemma ConversionsAreInjective()
    ensures forall c1, c2 :: FromConnectionError(c1) == FromConnectionError(c2) ==> c1 == c2
    ensures forall t1, t2 :: FromTrySendError(t1) == FromTrySendError(t2) ==> t1 == t2
    ensures forall k1, k2 ::
      FromClusterCommandError(k1) == FromClusterCommandError(k2) ==> k1 == k2
    ensures forall s1, s2 :: FromCommandError(s1) == FromCommandError(s2) ==> s1 == s2
  {
  }

  /** No conversion lands in a protocol case, and no two conversions share a case: driver errors
      never pass for backend errors, nor one backend for another. */
  lemma ConversionsNeverCollide(c: ConnectionError, t: TrySendError, k: ClusterCommandError, s: CommandError)
    ensures !IsProtocolCase(FromConnectionError(c)) && !IsProtocolCase(FromTrySendError(t))
    ensures !IsProtocolCase(FromClusterCommandError(k)) && !IsProtocolCase(FromCommandError(s))
    ensures FromConnectionError(c) != FromTrySendError(t)
    ensures FromConnectionError(c) != FromClusterCommandError(k)
    ensures FromConnectionError(c) != FromCommandError(s)
    ensures FromTrySendError(t) != FromClusterCommandError(k)
    ensures FromTrySendError(t) != FromCommandError(s)
    ensures FromClusterCommandError(k) != FromCommandError(s)
  {
  }
}
