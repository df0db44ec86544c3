/**
 * The socket as its lock shows it: an atomic machine whose only operations are the whole lock sections
 * of `connectExecute`, `destroy` and `setTimeout`.
 */
module LockMachine {
  import opened Basics
  import opened SocketMachine

  datatype AtomicOp =
    | Connected(c: ConnId)                    // connectExecute succeeded
    | ConnectFailed                           // failed before a connection was published
    | ArmingFailed(c: ConnId)                 // SetReadDeadline failed after publication
    | TornDown                                // the section inside destroy
    | TimeoutSet(ms: int)

  const START := Core(Disconnected, None, 0, false)

  function Do(k: Core, op: AtomicOp): Core {
    match op
    case Connected(c) => k.(st := Open, conn := Some(c), connected := true)
    case ConnectFailed => k.(st := Disconnected)
    case ArmingFailed(c) => k.(st := Disconnected, conn := Some(c), connected := true)
    case TornDown => k.(st := Destroyed, conn := None)
    case TimeoutSet(ms) => k.(timeout := TimeoutFor(ms))
  }

  function DoAll(ops: seq<AtomicOp>): Core {
    if ops == [] then START else Do(DoAll(ops[..|ops| - 1]), ops[|ops| - 1])
  }

  /** What holds of every state of the atomic machine. */
  predicate Settled(k: Core) {
    && !k.st.Opening?
    && (k.st.Open? ==> k.conn.Some?)
    && (k.st.Destroyed? ==> k.conn.None?)
    && (k.conn.Some? ==> k.connected)
  }

  lemma {:induction false} AlwaysSettled(ops: seq<AtomicOp>)
    ensures Settled(DoAll(ops))
  {
    if ops != [] { AlwaysSettled(ops[..|ops| - 1]); }
  }

  // ---------------------------------------------------------------- the state, read off the operations

  /** The last operation other than a setTimeout: it alone decides the state. */
  function LastSection(ops: seq<AtomicOp>): Option<AtomicOp> {
    if ops == [] then None
    else if ops[|ops| - 1].TimeoutSet? then LastSection(ops[..|ops| - 1])
    else Some(ops[|ops| - 1])
  }

  /** The connection published by the last connect that got so far, unless a teardown took it since. */
  function Published(ops: seq<AtomicOp>): Option<ConnId> {
    if ops == [] then None
    else
      match ops[|ops| - 1]
      case Connected(c) => Some(c)
      case ArmingFailed(c) => Some(c)
      case TornDown => None
      case _ => Published(ops[..|ops| - 1])
  }

  lemma {:induction false} ConnIsPublished(ops: seq<AtomicOp>)
    ensures DoAll(ops).conn == Published(ops)
  {
    if ops != [] { ConnIsPublished(ops[..|ops| - 1]); }
  }

  lemma {:induction false} StateIsLastSection(ops: seq<AtomicOp>)
    ensures DoAll(ops).st == match LastSection(ops)
                             case Some(Connected(_)) => Open
                             case Some(TornDown) => SockState.Destroyed
                             case _ => Disconnected
  {
    if ops != [] { StateIsLastSection(ops[..|ops| - 1]); }
  }

  /** The last connect failed after publishing its connection, or failed while an earlier one was set. */
  predicate Strands(ops: seq<AtomicOp>) {
    match LastSection(ops)
    case Some(ArmingFailed(_)) => true
    case Some(ConnectFailed) => Published(ops).Some?
    case _ => false
  }

  /** Exactly then is the socket `disconnected` with a connection set. */
  lemma {:induction false} StrandedIff(ops: seq<AtomicOp>)
    ensures DoAll(ops).st.Disconnected? && DoAll(ops).conn.Some? <==> Strands(ops)
  {
    hide DoAll, LastSection, Published;
    StateIsLastSection(ops);
    ConnIsPublished(ops);
    LastPublishes(ops);
  }

  lemma {:induction false} LastPublishes(ops: seq<AtomicOp>)
    ensures LastSection(ops).None? ==> Published(ops).None?
    ensures LastSection(ops).Some? ==> !LastSection(ops).value.TimeoutSet?
    ensures LastSection(ops).Some? && LastSection(ops).value.ArmingFailed? ==> Published(ops).Some?
  {
    if ops != [] { LastPublishes(ops[..|ops| - 1]); }
  }

  /** What the last setTimeout asked for. */
  function LastTimeout(ops: seq<AtomicOp>): int {
    if ops == [] then 0
    else if ops[|ops| - 1].TimeoutSet? then TimeoutFor(ops[|ops| - 1].ms)
    else LastTimeout(ops[..|ops| - 1])
  }

  lemma {:induction false} TimeoutIsLast(ops: seq<AtomicOp>)
    ensures DoAll(ops).timeout == LastTimeout(ops)
  {
    if ops != [] { TimeoutIsLast(ops[..|ops| - 1]); }
  }
}
