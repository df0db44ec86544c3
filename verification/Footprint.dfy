/**
 * What each kind of step leaves alone.  Every invariant proof uses these facts for the steps it is not
 * about, and looks inside a step only where the step matters to it.
 */
module Footprint {
  import opened Basics
  import opened SocketMachine

  /** The shared state after a step at `pc` differs from `g` only in the listed parts. */
  ghost predicate Shared(g: Globals, pc: Pc, h: Globals) {
    match pc
    case Finished => h == g
    case Script => h == g.(ev := h.ev, mem := h.mem, log := h.log)
    case Connecting(_) => h == g.(core := h.core, lock := h.lock, life := h.life, net := h.net)
    case Reporting(_) => h == g.(reports := h.reports)
    case Firing(_, _) => h == g.(loop := h.loop, ev := h.ev, mem := h.mem)
    case Reading(_) => h == g.(net := h.net, mem := h.mem, rx := h.rx)
    case Destroying(_, _) =>
      h == g.(core := h.core, once := h.once, cancelled := h.cancelled, life := h.life,
              net := h.net, durations := h.durations)
    case SettingTimeout(_, _) => h == g.(core := h.core, lock := h.lock, life := h.life, net := h.net)
    case Observing => h == g.(log := h.log)
    case Writing(_) => h == g.(tx := h.tx)
  }

  /** The thread itself changes its program counter and the history its kind of code keeps. */
  ghost predicate Private(th: Thread, th': Thread) {
    match th.pc
    case Firing(_, _) => th' == th.(pc := th'.pc, late := th'.late)
    case Reading(_) => th' == th.(pc := th'.pc, chunks := th'.chunks, added := th'.added)
    case Writing(_) => th' == th.(pc := th'.pc, added := th'.added)
    case Finished => th' == th
    case Script => th' == th.(pc := th'.pc)
    case Connecting(_) => th' == th.(pc := th'.pc)
    case Reporting(_) => th' == th.(pc := th'.pc)
    case Destroying(_, _) => th' == th.(pc := th'.pc)
    case SettingTimeout(_, _) => th' == th.(pc := th'.pc)
    case Observing => th' == th.(pc := th'.pc)
  }

  /** Which part of the code can follow which. */
  predicate Follows(pc: Pc, pc': Pc) {
    match pc
    case Finished => false
    case Script =>
      pc'.Script? || (pc'.Reporting? && pc'.kind.FromPrepare?) || (pc'.SettingTimeout? && pc'.p.LockTimeout?) ||
      pc'.Observing? || (pc'.Destroying? && pc'.ret.ToScript? && pc'.d.EnterOnce?)
    case Connecting(_) =>
      pc'.Connecting? || pc'.Finished? || (pc'.Reporting? && pc'.kind.FromConnect?) ||
      (pc'.Firing? && pc'.call.OnConnect? && !pc'.sending)
    case Reporting(kind) => pc'.Firing? && pc'.call == OnError(kind) && !pc'.sending
    case Firing(k, sending) => (pc'.Firing? && pc'.call == k && !sending && pc'.sending) || pc' == Resume(k)
    case Reading(_) =>
      pc'.Reading? || (pc'.Reporting? && pc'.kind.FromRead?) ||
      (pc'.Firing? && (pc'.call.OnData? || pc'.call.OnTimeout?) && !pc'.sending) ||
      (pc'.Destroying? && pc'.ret.ToReaderEnd? && pc'.d.EnterOnce?)
    case Destroying(ret, _) =>
      (pc'.Destroying? && pc'.ret == ret) ||
      (pc'.Firing? && pc'.call.OnClose? && pc'.call.ret == ret && !pc'.sending) ||
      pc' == AfterDestroy(ret)
    case SettingTimeout(ms, _) => (pc'.SettingTimeout? && pc'.ms == ms) || pc'.Script?
    case Observing => pc'.Script?
    case Writing(_) => pc'.Writing? || pc'.Finished?
  }

  /** The script starts connects and writes, a connect starts its reader; nobody else starts a thread. */
  ghost predicate Spawns(pc: Pc, sp: Option<Thread>) {
    sp.Some? ==>
      && sp.value.added == 0 && sp.value.chunks == [] && sp.value.late == 0
      && ( || (pc.Script? && sp.value.parent == 0 && sp.value.role.ConnectRole? &&
               sp.value.pc.Connecting? && sp.value.pc.c.Begin?)
           || (pc.Script? && sp.value.parent == 0 && sp.value.role.WriterRole? &&
               sp.value.pc.Writing? && sp.value.pc.w.SnapWrite?)
           || (pc.Connecting? && pc.c.Spawn? && sp.value.role.ReaderRole? &&
               sp.value.pc.Reading? && sp.value.pc.r.Head?))
  }

  ghost predicate Calm(g: Globals, th: Thread, o: Outcome) {
    o.Moved? ==> Shared(g, th.pc, o.g) && Private(th, o.th) && Follows(th.pc, o.th.pc) && Spawns(th.pc, o.spawn)
  }

  lemma Connects(g: Globals, t: Tid, th: Thread, a: Action)
    requires th.pc.Connecting?
    ensures Calm(g, th, ConnectStep(g, t, th, th.pc.c, a))
  {
    match th.pc.c
    case Begin(_) => case Resolve(_) => case Dial(_) => case Handshake(_) => case Publish(_) =>
    case Arm(_) => case Fail(_) => case Unlock(_) => case Spawn => case Count =>
  }

  lemma Fires(g: Globals, t: Tid, th: Thread, a: Action)
    requires th.pc.Firing?
    ensures !th.pc.sending ==> Calm(g, th, LookupStep(g, th, th.pc.call, a))
    ensures th.pc.sending ==> Calm(g, th, SendStep(g, t, th, th.pc.call, a))
  {}

  lemma Reads(g: Globals, t: Tid, th: Thread, a: Action)
    requires th.pc.Reading?
    ensures Calm(g, th, ReadStep(g, t, th, th.pc.r, a))
  {}

  lemma Destroys(g: Globals, t: Tid, th: Thread, a: Action)
    requires th.pc.Destroying?
    ensures Calm(g, th, DestroyStep(g, t, th, th.pc.ret, th.pc.d, a))
  {}

  lemma Scripts(g: Globals, t: Tid, th: Thread, a: Action)
    requires th.pc.Script? && a.Invoke?
    ensures Calm(g, th, ScriptStep(g, th, a.op))
  {
    match a.op
    case DoConnect(_) => case DoBadConnect => case DoWrite(_) => case DoBadWrite => case DoDestroy =>
    case DoSetTimeout(_) => case DoOn(_) => case DoReadyState => case DoRunTask => case DoEndTask =>
  }

  lemma Others(g: Globals, t: Tid, th: Thread, a: Action)
    ensures th.pc.SettingTimeout? ==> Calm(g, th, TimeoutStep(g, t, th, th.pc.ms, th.pc.p, a))
    ensures th.pc.Reporting? ==> Calm(g, th, ReportStep(g, th, th.pc.kind, a))
    ensures th.pc.Observing? ==> Calm(g, th, ObserveStep(g, th, a))
    ensures th.pc.Writing? && th.role.WriterRole? ==> Calm(g, th, WriteStep(g, t, th, th.role.data, th.pc.w, a))
  {}

  /** A step changes only what its kind of code is about. */
  lemma Of(g: Globals, t: Tid, th: Thread, a: Action)
    ensures Calm(g, th, Local(g, t, th, a))
  {
    hide ConnectStep, LookupStep, SendStep, ReadStep, DestroyStep, WriteStep, ScriptStep, TimeoutStep, ObserveStep,
      ReportStep;
    match th.pc
    case Finished =>
    case Connecting(_) => Connects(g, t, th, a);
    case Destroying(_, _) => Destroys(g, t, th, a);
    case Reading(_) => Reads(g, t, th, a);
    case Firing(_, _) => Fires(g, t, th, a);
    case Script => if a.Invoke? { Scripts(g, t, th, a); }
    case _ => Others(g, t, th, a);
  }

  /** The script never adds to what the loop accepted. */
  lemma ScriptEvents(g: Globals, th: Thread, op: ScriptOp)
    requires ScriptStep(g, th, op).Moved?
    ensures ScriptStep(g, th, op).g.ev.accepted == g.ev.accepted
    ensures ScriptStep(g, th, op).g.ev.closeSkipped == g.ev.closeSkipped
    ensures g.ev.handlers <= ScriptStep(g, th, op).g.ev.handlers
  {
    match op
    case DoConnect(_) => case DoBadConnect => case DoWrite(_) => case DoBadWrite => case DoDestroy =>
    case DoSetTimeout(_) => case DoOn(_) => case DoReadyState => case DoRunTask => case DoEndTask =>
  }

  /** The loop goroutine and the VU context touch only what they are about. */
  lemma OfEnv(g: Globals, e: EnvAction)
    requires Env(g, e).Some?
    ensures var h := Env(g, e).value; h == g.(vuDone := h.vuDone, loop := h.loop, ev := h.ev, mem := h.mem)
  {}
}
