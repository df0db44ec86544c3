/**
 * The socket as a concurrent step machine.
 *
 * A system is the shared state (`Globals`) and one record per goroutine.  Thread 0 is the JavaScript
 * thread; connect goroutines, readers and writers are appended as they are started.  `Local` gives the
 * effect of one atomic step of one thread, `EnvStep` the steps of the loop goroutine and of the VU
 * context.  Every blocking call, channel hand-off, metric push, atomic add and shared access is a step
 * of its own.  A lock section that makes no call (the read sections and the one in `destroy`) is a
 * single step that needs the lock free; the sections of `connectExecute` and `setTimeout`, which call
 * out while holding the lock, are split at those calls.
 */
module SocketMachine {
  import opened Basics

  type Tid = nat
  type ConnId = nat
  type BufId = nat

  datatype Event = Connect | Data | Close | Error | Timeout
  datatype SockState = Disconnected | Opening | Open | Destroyed
  datatype ReadErr = NoErr | Eof | TimedOut | Fatal

  /** Who asked for `destroy`, hence where it returns to. */
  datatype Ret = ToScript | ToReaderEnd

  /** Which failure `handleError` reports; `dead` says the read ran on a connection already closed. */
  datatype ErrKind = FromConnect | FromPrepare | FromRead(dead: bool)

  /** One pending `fire`: the event, its arguments and where the caller continues. */
  datatype Call =
    | OnConnect
    | OnData(buf: BufId, chunk: seq<byte>, payload: seq<byte>, err: ReadErr, dead: bool)
    | OnTimeout(dead: bool)
    | OnClose(ret: Ret)
    | OnError(kind: ErrKind)

  /** A call accepted by the loop; `origin` is the thread that started the sender. */
  datatype Task = Task(sender: Tid, origin: Tid, call: Call)

  datatype Once = Fresh | Running(who: Tid) | Done
  datatype Loop = Select | Holding(task: Task) | Exited

  /** The fields guarded by `mu`. */
  datatype Core = Core(st: SockState, conn: Option<ConnId>, timeout: int, connected: bool)

  /** The mutex; `snap` is the guarded part as it was when the present holder took the lock. */
  datatype Lock = Lock(holder: Option<Tid>, snap: Core)

  /** History of the lifecycle: teardown has taken the connection; a connect took the lock in state
      destroyed; a connect took the lock while a connection was set; a connection was published over
      another one or after teardown took its own; some setTimeout stored a positive timeout; failed
      connects.  `sockets` is the tcp_sockets counter. */
  datatype Life = Life(swapped: bool, revived: bool, overlapped: bool, leaks: bool, positive: bool,
                       failedConnects: nat, sockets: nat)

  /** Where a dialled connection currently lives. */
  datatype ConnLoc = InFlight(t: Tid) | Current | Teardown(who: Tid) | Closed | Lost

  /** `shown`: the lock has been released since publication.  `stale`: the last deadline update was a
      reader arming it although the timeout was already disabled. */
  datatype Conn = Conn(closes: nat, deadline: bool, stale: bool, shown: bool, loc: ConnLoc)

  /** Every connection ever dialled; `armFailed` once some SetReadDeadline has failed. */
  datatype Net = Net(conns: seq<Conn>, armFailed: bool)

  /** Registered handlers, the task queue, the running handler; the calls accepted by the loop and those
      started, in order; `closeSkipped` once teardown found no close handler. */
  datatype Events = Events(handlers: set<Event>, queue: seq<Task>, running: Option<Task>,
                           accepted: seq<Task>, started: seq<Task>, closeSkipped: bool)

  /** Where a pooled buffer currently lives. */
  datatype BufLoc = Pooled | Held(t: Tid) | AtLoop | Queued | InHandler
  datatype Buf = Buf(bytes: seq<byte>, loc: BufLoc)
  datatype Mem = Mem(readBuf: seq<byte>, pool: multiset<BufId>, bufs: seq<Buf>)

  /** The read side: totalRead, tcp_reads, reads that ended the stream, fatal reads while open. */
  datatype Rx = Rx(total: nat, ops: nat, endings: nat, fatal: nat)

  /** The write side: what reached the wire, totalWritten, tcp_writes, tcp_partial_writes. */
  datatype Frag = Frag(who: Tid, conn: ConnId, bytes: seq<byte>, counted: bool)
  datatype Tx = Tx(wire: seq<Frag>, total: nat, ops: nat, partials: nat)

  /** tcp_errors, and those caused by a read on a connection already closed. */
  datatype Reports = Reports(errors: nat, dead: nat)

  /** What the script did and saw: failed preparations, destroy() calls, ready_state results. */
  datatype Log = Log(prepFails: nat, destroys: nat, observed: seq<SockState>)

  datatype Globals = Globals(
    core: Core, lock: Lock, once: Once, vuDone: bool, cancelled: bool, loop: Loop,
    life: Life, net: Net, ev: Events, mem: Mem, rx: Rx, tx: Tx, reports: Reports,
    durations: nat,          // tcp_socket_duration samples
    log: Log,
    spawned: set<Tid>)       // history: the connect goroutines that have started their reader

  /** connectExecute, dial and wrapTLS. */
  datatype ConnectPc =
    | Begin(tls: bool) | Resolve(tls: bool) | Dial(tls: bool)
    | Handshake(c: ConnId) | Publish(c: ConnId) | Arm(c: ConnId)
    | Fail(pub: Option<ConnId>) | Unlock(c: ConnId) | Spawn | Count

  /** read and readLoopStep. */
  datatype ReadPc =
    | Head | Snap | ArmRead(c: ConnId, to: int) | CallRead(c: ConnId)
    | PushRead(chunk: seq<byte>, err: ReadErr, dead: bool)
    | AddRead(chunk: seq<byte>, err: ReadErr, dead: bool)
    | CopyRead(chunk: seq<byte>, err: ReadErr, dead: bool)
    | Test(err: ReadErr, dead: bool)

  /** destroy, apart from its `fire`. */
  datatype DestroyPc =
    | EnterOnce | Swap | CloseConn(c: ConnId) | PushDuration | Cancel | LeaveOnce

  /** setTimeout. */
  datatype TimeoutPc = LockTimeout | ArmTimeout(c: ConnId) | UnlockTimeout

  /** writeExecute. */
  datatype WritePc =
    | SnapWrite | CallWrite(c: ConnId, done: nat) | AddWrite(c: ConnId, done: nat, n: nat)
    | FailedWrite(done: nat) | CountWrite(done: nat)

  datatype Pc =
    | Finished
    | Script
    | Connecting(c: ConnectPc)
    | Reporting(kind: ErrKind)               // handleError, before its fire
    | Firing(call: Call, sending: bool)      // fireAndCleanup: looking up the handler, then in the select
    | Reading(r: ReadPc)
    | Destroying(ret: Ret, d: DestroyPc)
    | SettingTimeout(ms: int, p: TimeoutPc)
    | Observing                              // readyState
    | Writing(w: WritePc)

  datatype Role = JsRole | ConnectRole | ReaderRole | WriterRole(data: seq<byte>)

  /** `parent` started this thread.  History: bytes added to the shared total, chunks read, whether a
      data handler existed at the start, and sends completed after teardown took the connection. */
  datatype Thread = Thread(role: Role, pc: Pc, parent: Tid, added: nat, chunks: seq<seq<byte>>,
                           ready: bool, late: nat)

  datatype Sys = Sys(g: Globals, ts: seq<Thread>)

  datatype ScriptOp =
    | DoConnect(tls: bool) | DoBadConnect | DoWrite(data: seq<byte>) | DoBadWrite | DoDestroy
    | DoSetTimeout(ms: int) | DoOn(event: Event) | DoReadyState | DoRunTask | DoEndTask

  /** The choices the environment makes for a step; `Tau` where there is none. */
  datatype Action =
    | Tau
    | Returned(ok: bool)
    | ReadReturned(chunk: seq<byte>, err: ReadErr)
    | WriteReturned(n: nat, ok: bool)
    | GotBuffer(b: BufId)
    | HandOff
    | GiveUp
    | Invoke(op: ScriptOp)

  datatype EnvAction = VuEnds | LoopQueues | LoopExits

  datatype Step = ThreadStep(t: Tid, a: Action) | EnvStep(e: EnvAction)

  datatype Outcome = Blocked | Moved(g: Globals, th: Thread, spawn: Option<Thread>)

  // ---------------------------------------------------------------- small helpers

  function NewThread(role: Role, pc: Pc, parent: Tid, ready: bool): Thread {
    Thread(role, pc, parent, 0, [], ready, 0)
  }

  function Init(): Sys {
    var core := Core(Disconnected, None, 0, false);
    Sys(Globals(core, Lock(None, core), Fresh, false, false, Select,
                Life(false, false, false, false, false, 0, 0), Net([], false), Events({}, [], None, [], [], false),
                Mem(seq(READ_BUFFER_SIZE, i => 0), multiset{}, []),
                Rx(0, 0, 0, 0), Tx([], 0, 0, 0), Reports(0, 0), 0, Log(0, 0, []), {}),
        [NewThread(JsRole, Script, 0, false)])
  }

  predicate LockFree(g: Globals) { g.lock.holder.None? }

  function EventOf(k: Call): Event {
    match k
    case OnConnect => Connect
    case OnData(_, _, _, _, _) => Data
    case OnTimeout(_) => Timeout
    case OnClose(_) => Close
    case OnError(_) => Error
  }

  /** Where a thread continues once its `fire` has returned. */
  function Resume(k: Call): Pc {
    match k
    case OnConnect => Connecting(Spawn)
    case OnData(_, _, _, err, dead) => Reading(Test(err, dead))
    case OnTimeout(_) => Reading(Head)
    case OnClose(ret) => Destroying(ret, Cancel)
    case OnError(FromConnect) => Finished
    case OnError(FromPrepare) => Script
    case OnError(FromRead(_)) => Destroying(ToReaderEnd, EnterOnce)
  }

  function AfterDestroy(ret: Ret): Pc {
    match ret case ToScript => Script case ToReaderEnd => Finished
  }

  /** The cleanup callback: a data call returns its buffer to the pool. */
  function Release(m: Mem, k: Call): Mem {
    if k.OnData? && k.buf < |m.bufs| then
      m.(pool := m.pool + multiset{k.buf}, bufs := m.bufs[k.buf := m.bufs[k.buf].(loc := Pooled)])
    else m
  }

  /** The buffer of a data call moves to another place, contents untouched. */
  function Move(m: Mem, k: Call, loc: BufLoc): Mem {
    if k.OnData? && k.buf < |m.bufs| then m.(bufs := m.bufs[k.buf := m.bufs[k.buf].(loc := loc)]) else m
  }

  /** `PushIfNotDone` drops a sample once the VU context is done. */
  function Push(g: Globals, n: nat): nat { if g.vuDone then n else n + 1 }

  function SetConn(net: Net, c: ConnId, k: Conn): Net
    requires c < |net.conns|
  {
    net.(conns := net.conns[c := k])
  }

  function Show(net: Net, c: ConnId): Net {
    if c < |net.conns| then SetConn(net, c, net.conns[c].(shown := true)) else net
  }

  function Go(g: Globals, th: Thread, pc: Pc): Outcome { Moved(g, th.(pc := pc), None) }

  // ---------------------------------------------------------------- connectExecute, dial, wrapTLS

  function ConnectStep(g: Globals, t: Tid, th: Thread, pc: ConnectPc, a: Action): Outcome {
    match pc
    case Begin(tls) =>
      if !a.Tau? || !LockFree(g) then Blocked else
      Go(g.(core := g.core.(st := Opening), lock := Lock(Some(t), g.core),
            life := g.life.(revived := g.life.revived || g.core.st.Destroyed?,
                            overlapped := g.life.overlapped || g.core.conn.Some?)), th, Connecting(Resolve(tls)))
    case Resolve(tls) =>
      if !a.Returned? then Blocked else Go(g, th, Connecting(if a.ok then Dial(tls) else Fail(None)))
    case Dial(tls) =>
      if !a.Returned? then Blocked
      else if !a.ok then Go(g, th, Connecting(Fail(None)))
      else Go(g.(net := g.net.(conns := g.net.conns + [Conn(0, false, false, false, InFlight(t))])), th,
              Connecting(if tls then Handshake(|g.net.conns|) else Publish(|g.net.conns|)))
    case Handshake(c) =>
      if !a.Returned? || c >= |g.net.conns| then Blocked
      else if a.ok then Go(g, th, Connecting(Publish(c)))
      else Go(g.(net := Shut(g.net, c)), th, Connecting(Fail(None)))
    case Publish(c) =>
      if !a.Tau? || c >= |g.net.conns| then Blocked else
      Go(g.(core := g.core.(st := Open, conn := Some(c), connected := true),
            net := Relocate(Displace(g.net, g.core.conn, Lost), c, Current),
            life := g.life.(leaks := g.life.leaks || g.core.conn.Some? || g.life.swapped)), th, Connecting(Arm(c)))
    case Arm(c) =>
      if g.core.timeout <= 0 then (if a.Tau? then Go(g, th, Connecting(Unlock(c))) else Blocked)
      else if !a.Returned? || c >= |g.net.conns| then Blocked
      else if a.ok then
        Go(g.(net := SetConn(g.net, c, g.net.conns[c].(deadline := true, stale := false))), th, Connecting(Unlock(c)))
      else Go(g.(net := g.net.(armFailed := true)), th, Connecting(Fail(Some(c))))
    case Fail(pub) =>
      if !a.Tau? then Blocked else
      Go(g.(core := g.core.(st := Disconnected), lock := g.lock.(holder := None),
            net := if pub.Some? then Show(g.net, pub.value) else g.net,
            life := g.life.(failedConnects := g.life.failedConnects + 1)), th, Reporting(FromConnect))
    case Unlock(c) =>
      if !a.Tau? then Blocked else
      Go(g.(lock := g.lock.(holder := None), net := Show(g.net, c)), th, Firing(OnConnect, false))
    case Spawn =>
      if !a.Tau? then Blocked else
      Moved(g, th.(pc := Connecting(Count)),
            Some(NewThread(ReaderRole, Reading(Head), t, Data in g.ev.handlers)))
    case Count =>
      if !a.Tau? then Blocked else Go(g.(life := g.life.(sockets := Push(g, g.life.sockets))), th, Finished)
  }

  /** `Close` on connection `c`. */
  function Shut(net: Net, c: ConnId): Net
    requires c < |net.conns|
  {
    SetConn(net, c, net.conns[c].(closes := net.conns[c].closes + 1, loc := Closed))
  }

  function Relocate(net: Net, c: ConnId, loc: ConnLoc): Net {
    if c < |net.conns| then SetConn(net, c, net.conns[c].(loc := loc)) else net
  }

  function Displace(net: Net, c: Option<ConnId>, loc: ConnLoc): Net {
    if c.Some? then Relocate(net, c.value, loc) else net
  }

  // ---------------------------------------------------------------- handleError, fireAndCleanup

  function ReportStep(g: Globals, th: Thread, kind: ErrKind, a: Action): Outcome {
    if !a.Tau? then Blocked else
    Go(g.(reports := Reports(Push(g, g.reports.errors),
                             g.reports.dead + if kind.FromRead? && kind.dead then 1 else 0)),
       th, Firing(OnError(kind), false))
  }

  /** Look up the handler; without one the cleanup runs at once. */
  function LookupStep(g: Globals, th: Thread, k: Call, a: Action): Outcome {
    if !a.Tau? then Blocked
    else if EventOf(k) in g.ev.handlers then Go(g, th, Firing(k, true))
    else Go(g.(mem := Release(g.mem, k), ev := g.ev.(closeSkipped := g.ev.closeSkipped || k.OnClose?)), th, Resume(k))
  }

  /** The select: hand the call to the loop, or give up once the VU context is done. */
  function SendStep(g: Globals, t: Tid, th: Thread, k: Call, a: Action): Outcome {
    if a.HandOff? && g.loop.Select? then
      var task := Task(t, th.parent, k);
      Moved(g.(loop := Holding(task), mem := Move(g.mem, k, AtLoop),
               ev := g.ev.(accepted := g.ev.accepted + [task])),
            th.(pc := Resume(k), late := th.late + if g.life.swapped && !k.OnClose? then 1 else 0), None)
    else if a.GiveUp? && g.vuDone then Go(g.(mem := Release(g.mem, k)), th, Resume(k))
    else Blocked
  }

  // ---------------------------------------------------------------- read, readLoopStep

  function ReadStep(g: Globals, t: Tid, th: Thread, pc: ReadPc, a: Action): Outcome {
    match pc
    case Head =>
      if !a.Tau? || !LockFree(g) then Blocked else
      Go(g, th, if g.core.st.Open? then Reading(Snap) else Destroying(ToReaderEnd, EnterOnce))
    case Snap =>
      if !a.Tau? || !LockFree(g) then Blocked else
      Go(g, th, if g.core.conn.Some? then Reading(ArmRead(g.core.conn.value, g.core.timeout))
                else Destroying(ToReaderEnd, EnterOnce))
    case ArmRead(c, to) =>
      if to <= 0 then (if a.Tau? then Go(g, th, Reading(CallRead(c))) else Blocked)
      else if !a.Returned? || c >= |g.net.conns| then Blocked
      else Go(g.(net := if a.ok then SetConn(g.net, c, g.net.conns[c].(deadline := true, stale := g.core.timeout <= 0))
                        else g.net.(armFailed := true)), th, Reading(CallRead(c)))
    case CallRead(c) =>
      if !a.ReadReturned? || |a.chunk| > READ_BUFFER_SIZE || c >= |g.net.conns| ||
         (a.err.TimedOut? && !g.net.conns[c].deadline) then Blocked else
      var dead := g.net.conns[c].closes > 0;
      var h := g.(mem := g.mem.(readBuf := Overwrite(g.mem.readBuf, a.chunk)),
                  rx := g.rx.(endings := g.rx.endings + if a.err.Eof? || a.err.Fatal? then 1 else 0));
      if a.chunk == [] then Go(h, th, Reading(Test(a.err, dead)))
      else Moved(h, th.(pc := Reading(PushRead(a.chunk, a.err, dead)), chunks := th.chunks + [a.chunk]), None)
    case PushRead(chunk, err, dead) =>
      if !a.Tau? then Blocked else
      Go(g.(rx := g.rx.(ops := Push(g, g.rx.ops))), th, Reading(AddRead(chunk, err, dead)))
    case AddRead(chunk, err, dead) =>
      if !a.Tau? then Blocked else
      Moved(g.(rx := g.rx.(total := g.rx.total + |chunk|)),
            th.(pc := Reading(CopyRead(chunk, err, dead)), added := th.added + |chunk|), None)
    case CopyRead(chunk, err, dead) =>
      if !a.GotBuffer? || |chunk| > |g.mem.readBuf| then Blocked else
      var payload := g.mem.readBuf[..|chunk|];
      if a.b == |g.mem.bufs| || (a.b < |g.mem.bufs| && a.b in g.mem.pool) then
        Go(g.(mem := Fill(g.mem, a.b, Buf(payload, Held(t)))), th,
           Firing(OnData(a.b, chunk, payload, err, dead), false))
      else Blocked
    case Test(err, dead) =>
      if !a.Tau? || !LockFree(g) then Blocked
      else if !g.core.st.Open? || err.Eof? then Go(g, th, Destroying(ToReaderEnd, EnterOnce))
      else if err.NoErr? then Go(g, th, Reading(Head))
      else if err.TimedOut? then Go(g, th, Firing(OnTimeout(dead), false))
      else Go(g.(rx := g.rx.(fatal := g.rx.fatal + 1)), th, Reporting(FromRead(dead)))
  }

  /** The shared read buffer after a read of `chunk`: its first bytes are replaced. */
  function Overwrite(buf: seq<byte>, chunk: seq<byte>): seq<byte> {
    chunk + if |chunk| <= |buf| then buf[|chunk|..] else []
  }

  /** Take buffer `b` from the pool, or a new one, and fill it. */
  function Fill(m: Mem, b: BufId, buf: Buf): Mem
    requires b <= |m.bufs|
  {
    if b == |m.bufs| then m.(bufs := m.bufs + [buf])
    else m.(pool := m.pool - multiset{b}, bufs := m.bufs[b := buf])
  }

  // ---------------------------------------------------------------- destroy

  function DestroyStep(g: Globals, t: Tid, th: Thread, ret: Ret, pc: DestroyPc, a: Action): Outcome {
    if !a.Tau? then Blocked else
    match pc
    case EnterOnce =>
      if g.once.Fresh? then Go(g.(once := Running(t)), th, Destroying(ret, Swap))
      else if g.once.Done? then Go(g, th, AfterDestroy(ret))
      else Blocked
    case Swap =>
      if !LockFree(g) then Blocked else
      Go(g.(core := g.core.(st := Destroyed, conn := None), net := Displace(g.net, g.core.conn, Teardown(t)),
            life := g.life.(swapped := true)),
         th, if g.core.conn.Some? then Destroying(ret, CloseConn(g.core.conn.value)) else Firing(OnClose(ret), false))
    case CloseConn(c) =>
      if c >= |g.net.conns| then Blocked else Go(g.(net := Shut(g.net, c)), th, Destroying(ret, PushDuration))
    case PushDuration => Go(g.(durations := Push(g, g.durations)), th, Firing(OnClose(ret), false))
    case Cancel => Go(g.(cancelled := true), th, Destroying(ret, LeaveOnce))
    case LeaveOnce => Go(g.(once := Done), th, AfterDestroy(ret))
  }

  // ---------------------------------------------------------------- setTimeout and readyState

  function TimeoutStep(g: Globals, t: Tid, th: Thread, ms: int, pc: TimeoutPc, a: Action): Outcome {
    match pc
    case LockTimeout =>
      if !a.Tau? || !LockFree(g) then Blocked else
      Go(g.(core := g.core.(timeout := TimeoutFor(ms)), lock := Lock(Some(t), g.core),
            life := g.life.(positive := g.life.positive || TimeoutFor(ms) > 0)),
         th, SettingTimeout(ms, if g.core.conn.Some? then ArmTimeout(g.core.conn.value) else UnlockTimeout))
    case ArmTimeout(c) =>
      if !a.Returned? || c >= |g.net.conns| then Blocked
      else Go(g.(net := if a.ok then SetConn(g.net, c, g.net.conns[c].(deadline := g.core.timeout > 0, stale := false))
                        else g.net.(armFailed := true)), th, SettingTimeout(ms, UnlockTimeout))
    case UnlockTimeout => if !a.Tau? then Blocked else Go(g.(lock := g.lock.(holder := None)), th, Script)
  }

  function ObserveStep(g: Globals, th: Thread, a: Action): Outcome {
    if !a.Tau? || !LockFree(g) then Blocked else
    Go(g.(log := g.log.(observed := g.log.observed + [g.core.st])), th, Script)
  }

  // ---------------------------------------------------------------- writeExecute

  function WriteStep(g: Globals, t: Tid, th: Thread, data: seq<byte>, pc: WritePc, a: Action): Outcome {
    match pc
    case SnapWrite =>
      if !a.Tau? || !LockFree(g) then Blocked else
      Go(g, th, if g.core.conn.Some? then Writing(CallWrite(g.core.conn.value, 0)) else Finished)
    case CallWrite(c, done) =>
      if done >= |data| then (if a.Tau? then Go(g, th, Writing(CountWrite(done))) else Blocked)
      else if !a.WriteReturned? || a.n > |data| - done then Blocked else
      var h := g.(tx := g.tx.(wire := g.tx.wire + [Frag(t, c, data[done..done + a.n], a.ok && a.n > 0)]));
      Go(h, th, Writing(if !a.ok || a.n == 0 then FailedWrite(done) else AddWrite(c, done + a.n, a.n)))
    case AddWrite(c, done, n) =>
      if !a.Tau? then Blocked else
      Moved(g.(tx := g.tx.(total := g.tx.total + n)),
            th.(pc := Writing(CallWrite(c, done)), added := th.added + n), None)
    case FailedWrite(done) =>
      if !a.Tau? then Blocked else
      Go(g.(tx := g.tx.(partials := if 0 < done < |data| then Push(g, g.tx.partials) else g.tx.partials)),
         th, Writing(CountWrite(done)))
    case CountWrite(_) =>
      if !a.Tau? then Blocked else Go(g.(tx := g.tx.(ops := Push(g, g.tx.ops))), th, Finished)
  }

  // ---------------------------------------------------------------- the JavaScript thread

  function ScriptStep(g: Globals, th: Thread, op: ScriptOp): Outcome {
    match op
    case DoConnect(tls) => Moved(g, th, Some(NewThread(ConnectRole, Connecting(Begin(tls)), 0, false)))
    case DoBadConnect =>
      Go(g.(log := g.log.(prepFails := g.log.prepFails + 1)), th, Reporting(FromPrepare))
    case DoBadWrite =>
      Go(g.(log := g.log.(prepFails := g.log.prepFails + 1)), th, Reporting(FromPrepare))
    case DoWrite(data) => Moved(g, th, Some(NewThread(WriterRole(data), Writing(SnapWrite), 0, false)))
    case DoDestroy =>
      Go(g.(log := g.log.(destroys := g.log.destroys + 1)), th, Destroying(ToScript, EnterOnce))
    case DoSetTimeout(ms) => Go(g, th, SettingTimeout(ms, LockTimeout))
    case DoOn(e) => Go(g.(ev := g.ev.(handlers := g.ev.handlers + {e})), th, Script)
    case DoReadyState => Go(g, th, Observing)
    case DoRunTask =>
      if g.ev.running.Some? || g.ev.queue == [] then Blocked else
      var task := g.ev.queue[0];
      Go(g.(ev := g.ev.(running := Some(task), queue := g.ev.queue[1..], started := g.ev.started + [task]),
            mem := Move(g.mem, task.call, InHandler)), th, Script)
    case DoEndTask =>
      if g.ev.running.None? then Blocked else
      Go(g.(mem := Release(g.mem, g.ev.running.value.call), ev := g.ev.(running := None)), th, Script)
  }

  // ---------------------------------------------------------------- steps and runs

  /** One step of thread `t`, dispatched on its program counter. */
  function Local(g: Globals, t: Tid, th: Thread, a: Action): Outcome {
    match th.pc
    case Finished => Blocked
    case Script => if a.Invoke? then ScriptStep(g, th, a.op) else Blocked
    case Connecting(c) => ConnectStep(g, t, th, c, a)
    case Reporting(kind) => ReportStep(g, th, kind, a)
    case Firing(k, sending) => if sending then SendStep(g, t, th, k, a) else LookupStep(g, th, k, a)
    case Reading(r) => ReadStep(g, t, th, r, a)
    case Destroying(ret, d) => DestroyStep(g, t, th, ret, d, a)
    case SettingTimeout(ms, p) => TimeoutStep(g, t, th, ms, p, a)
    case Observing => ObserveStep(g, th, a)
    case Writing(w) => if th.role.WriterRole? then WriteStep(g, t, th, th.role.data, w, a) else Blocked
  }

  /** The loop goroutine and the VU context. */
  function Env(g: Globals, e: EnvAction): Option<Globals> {
    match e
    case VuEnds => Some(g.(vuDone := true))
    case LoopQueues =>
      if !g.loop.Holding? then None else
      Some(g.(loop := Select, ev := g.ev.(queue := g.ev.queue + [g.loop.task]),
              mem := Move(g.mem, g.loop.task.call, Queued)))
    case LoopExits =>
      if g.loop.Select? && (g.cancelled || g.vuDone) then Some(g.(loop := Exited)) else None
  }

  /** A thread that starts a reader is recorded. */
  function Record(g: Globals, t: Tid, sp: Option<Thread>): Globals {
    if sp.Some? && sp.value.role.ReaderRole? then g.(spawned := g.spawned + {t}) else g
  }

  predicate Enabled(s: Sys, e: Step) {
    match e
    case ThreadStep(t, a) => t < |s.ts| && Local(s.g, t, s.ts[t], a).Moved?
    case EnvStep(v) => Env(s.g, v).Some?
  }

  function Apply(s: Sys, e: Step): Sys
    requires Enabled(s, e)
  {
    match e
    case ThreadStep(t, a) =>
      var o := Local(s.g, t, s.ts[t], a);
      Sys(Record(o.g, t, o.spawn),
          s.ts[t := o.th] + if o.spawn.Some? then [o.spawn.value] else [])
    case EnvStep(v) => s.(g := Env(s.g, v).value)
  }

  /** `tr` is a run: every step is enabled in the state the earlier steps lead to. */
  ghost predicate IsRun(tr: seq<Step>)
    decreases |tr|, 0
  {
    tr == [] || (IsRun(tr[..|tr| - 1]) && Enabled(Exec(tr[..|tr| - 1]), tr[|tr| - 1]))
  }

  /** The system after the run `tr`. */
  ghost function Exec(tr: seq<Step>): Sys
    requires IsRun(tr)
    decreases |tr|, 1
  {
    if tr == [] then Init() else Apply(Exec(tr[..|tr| - 1]), tr[|tr| - 1])
  }
}
