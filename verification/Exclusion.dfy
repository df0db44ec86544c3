/**
 * Mutual exclusion and once-only teardown, for every run: the lock and the once cell always agree with
 * the program counters, so at most one thread is ever inside a lock section and at most one inside the
 * teardown body.
 */
module Exclusion {
  import opened Basics
  import opened SocketMachine
  import Footprint

  /** Between `mu.Lock()` and `mu.Unlock()`. */
  predicate HoldsLock(pc: Pc) {
    || (pc.Connecting? && !pc.c.Begin? && !pc.c.Spawn? && !pc.c.Count?)
    || (pc.SettingTimeout? && !pc.p.LockTimeout?)
  }

  /** Inside the function passed to `destroyOnce.Do`. */
  predicate InBody(pc: Pc) {
    || (pc.Destroying? && !pc.d.EnterOnce?)
    || (pc.Firing? && pc.call.OnClose?)
  }

  /** The code each kind of thread can be executing. */
  predicate RolePc(role: Role, pc: Pc) {
    match pc
    case Finished => !role.JsRole?
    case Script => role.JsRole?
    case Connecting(_) => role.ConnectRole?
    case Reporting(kind) => RoleKind(role, kind)
    case Firing(k, _) => RoleCall(role, k)
    case Reading(_) => role.ReaderRole?
    case Destroying(ret, _) => RoleRet(role, ret)
    case SettingTimeout(_, _) => role.JsRole?
    case Observing => role.JsRole?
    case Writing(_) => role.WriterRole?
  }

  predicate RoleRet(role: Role, ret: Ret) {
    match ret case ToScript => role.JsRole? case ToReaderEnd => role.ReaderRole?
  }

  predicate RoleKind(role: Role, kind: ErrKind) {
    match kind
    case FromConnect => role.ConnectRole?
    case FromPrepare => role.JsRole?
    case FromRead(_) => role.ReaderRole?
  }

  predicate RoleCall(role: Role, k: Call) {
    match k
    case OnConnect => role.ConnectRole?
    case OnData(_, _, _, _, _) => role.ReaderRole?
    case OnTimeout(_) => role.ReaderRole?
    case OnClose(ret) => RoleRet(role, ret)
    case OnError(kind) => RoleKind(role, kind)
  }

  ghost predicate G(g: Globals, n: nat) {
    && (g.lock.holder.Some? ==> g.lock.holder.value < n)
    && (g.once.Running? ==> g.once.who < n)
    && n > 0
  }

  ghost predicate L(g: Globals, t: Tid, th: Thread) {
    && RolePc(th.role, th.pc)
    && (th.role.JsRole? <==> t == 0)
    && (HoldsLock(th.pc) <==> g.lock.holder == Some(t))
    && (InBody(th.pc) <==> g.once == Running(t))
  }

  ghost predicate Inv(s: Sys) {
    G(s.g, |s.ts|) && forall t :: 0 <= t < |s.ts| ==> L(s.g, t, s.ts[t])
  }

  ghost predicate Pre(g: Globals, n: nat, t: Tid, th: Thread) { G(g, n) && t < n && L(g, t, th) }

  /** Only the acting thread's own claim on the lock and on the once cell can change. */
  ghost predicate Frame(g: Globals, h: Globals, t: Tid) {
    && (h.lock.holder == g.lock.holder || (g.lock.holder.None? && h.lock.holder == Some(t)) ||
        (g.lock.holder == Some(t) && h.lock.holder.None?))
    && (h.once == g.once || (g.once.Fresh? && h.once == Running(t)) || (g.once == Running(t) && h.once.Done?))
  }

  ghost predicate Kept(g: Globals, t: Tid, o: Outcome) { o.Moved? ==> L(o.g, t, o.th) && Frame(g, o.g, t) }

  lemma OwnConnect(g: Globals, n: nat, t: Tid, th: Thread, a: Action)
    requires Pre(g, n, t, th) && th.pc.Connecting?
    ensures Kept(g, t, ConnectStep(g, t, th, th.pc.c, a))
  {}

  lemma OwnDestroy(g: Globals, n: nat, t: Tid, th: Thread, a: Action)
    requires Pre(g, n, t, th) && th.pc.Destroying?
    ensures Kept(g, t, DestroyStep(g, t, th, th.pc.ret, th.pc.d, a))
  {
    match th.pc.d
    case EnterOnce => case Swap => case CloseConn(_) => case PushDuration => case Cancel => case LeaveOnce =>
  }

  lemma OwnTimeout(g: Globals, n: nat, t: Tid, th: Thread, a: Action)
    requires Pre(g, n, t, th) && th.pc.SettingTimeout?
    ensures Kept(g, t, TimeoutStep(g, t, th, th.pc.ms, th.pc.p, a))
  {}

  lemma OwnOther(g: Globals, n: nat, t: Tid, th: Thread, a: Action)
    requires Pre(g, n, t, th) && !th.pc.Connecting? && !th.pc.Destroying? && !th.pc.SettingTimeout?
    ensures Kept(g, t, Local(g, t, th, a))
  {
    hide Local;
    Footprint.Of(g, t, th, a);
  }

  lemma Own(g: Globals, n: nat, t: Tid, th: Thread, a: Action)
    requires Pre(g, n, t, th)
    ensures Kept(g, t, Local(g, t, th, a))
  {
    hide ConnectStep, LookupStep, SendStep, ReadStep, DestroyStep, WriteStep, ScriptStep, TimeoutStep, ObserveStep,
      ReportStep, Kept;
    if th.pc.Connecting? { OwnConnect(g, n, t, th, a); }
    else if th.pc.Destroying? { OwnDestroy(g, n, t, th, a); }
    else if th.pc.SettingTimeout? { OwnTimeout(g, n, t, th, a); }
    else { OwnOther(g, n, t, th, a); }
  }

  lemma Preserved(s: Sys, e: Step)
    requires Inv(s) && Enabled(s, e)
    ensures Inv(Apply(s, e))
  {
    hide Local;
    var s' := Apply(s, e);
    match e
    case ThreadStep(t, a) =>
      Own(s.g, |s.ts|, t, s.ts[t], a);
      Footprint.Of(s.g, t, s.ts[t], a);
      forall u | 0 <= u < |s'.ts| ensures L(s'.g, u, s'.ts[u]) {
        if u < |s.ts| && u != t { assert L(s.g, u, s.ts[u]); }
      }
    case EnvStep(_) =>
      forall u | 0 <= u < |s'.ts| ensures L(s'.g, u, s'.ts[u]) { assert L(s.g, u, s.ts[u]); }
  }

  /** The lock and the once cell agree with the program counters after every run. */
  lemma {:induction false} Always(tr: seq<Step>)
    requires IsRun(tr)
    ensures Inv(Exec(tr))
  {
    hide Local;
    if tr != [] {
      Always(tr[..|tr| - 1]);
      Preserved(Exec(tr[..|tr| - 1]), tr[|tr| - 1]);
    }
  }

  /** No two threads are ever inside lock sections, nor both inside the teardown body. */
  lemma {:induction false} MutualExclusion(tr: seq<Step>, t: Tid, u: Tid)
    requires IsRun(tr) && t < |Exec(tr).ts| && u < |Exec(tr).ts| && t != u
    ensures !(HoldsLock(Exec(tr).ts[t].pc) && HoldsLock(Exec(tr).ts[u].pc))
    ensures !(InBody(Exec(tr).ts[t].pc) && InBody(Exec(tr).ts[u].pc))
  {
    hide Local;
    Always(tr);
    var s := Exec(tr);
    assert L(s.g, t, s.ts[t]) && L(s.g, u, s.ts[u]);
  }
}
