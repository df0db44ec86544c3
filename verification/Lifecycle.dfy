/**
 * The lock sections refine the atomic machine.  In every run the guarded fields, read when the lock is
 * free, are exactly what the completed sections computed one after another; `opening` is never visible,
 * and `destroyed` is left only by a connect that takes the lock afterwards.
 */
module Lifecycle {
  import opened Basics
  import opened SocketMachine
  import opened LockMachine
  import opened Runs
  import Footprint
  import Exclusion

  /** The guarded fields as the last completed lock section left them. */
  function Visible(g: Globals): Core {
    if LockFree(g) then g.core else g.lock.snap
  }

  /** The guarded fields part-way through a lock section, from what they were at its start. */
  function Partial(k: Core, pc: Pc): Core {
    if pc.SettingTimeout? then Do(k, TimeoutSet(pc.ms))
    else if pc.Connecting? && (pc.c.Arm? || pc.c.Unlock?) then Do(k, Connected(pc.c.c))
    else if pc.Connecting? && pc.c.Fail? && pc.c.pub.Some? then Do(k, Connected(pc.c.pub.value))
    else k.(st := Opening)
  }

  /** How far the teardown body has come. */
  ghost predicate Body(g: Globals, pc: Pc) {
    && (pc.Destroying? && pc.d.Swap? ==> !g.life.swapped)
    && (Exclusion.InBody(pc) && !(pc.Destroying? && pc.d.Swap?) ==> g.life.swapped)
    && (pc.Connecting? && Exclusion.HoldsLock(pc) && !g.life.revived ==> !g.life.swapped)
  }

  ghost predicate G(g: Globals) {
    && Settled(Visible(g))
    && (g.life.swapped ==> !g.once.Fresh?)
    && (g.once.Done? ==> g.life.swapped)
    && (g.core.st.Destroyed? ==> g.life.swapped)
    && (g.life.swapped && !g.life.revived ==> g.core.st.Destroyed? && g.core.conn.None?)
  }

  ghost predicate L(g: Globals, th: Thread) {
    (Exclusion.HoldsLock(th.pc) ==> g.core == Partial(g.lock.snap, th.pc)) && Body(g, th.pc)
  }

  ghost predicate Inv(s: Sys) {
    Exclusion.Inv(s) && G(s.g) && forall t :: 0 <= t < |s.ts| ==> L(s.g, s.ts[t])
  }

  /** What other threads may rely on. */
  ghost predicate Frame(g: Globals, g': Globals, t: Tid) {
    && (g.lock.holder.Some? && g.lock.holder.value != t ==> g'.core == g.core && g'.lock.snap == g.lock.snap)
    && (g.life.swapped ==> g'.life.swapped)
    && (g.life.revived ==> g'.life.revived)
    && (g'.life.swapped != g.life.swapped ==> LockFree(g) && g.once == Running(t))
  }

  ghost predicate Kept(g: Globals, t: Tid, o: Outcome) {
    o.Moved? ==> G(o.g) && L(o.g, o.th) && Frame(g, o.g, t)
  }

  ghost predicate Pre(g: Globals, n: nat, t: Tid, th: Thread) {
    Exclusion.Pre(g, n, t, th) && G(g) && L(g, th)
  }

  predicate Publishing(c: ConnectPc) { c.Publish? || c.Arm? }
  predicate Releasing(c: ConnectPc) { c.Fail? || c.Unlock? }

  lemma OwnBegin(g: Globals, n: nat, t: Tid, th: Thread, a: Action)
    requires Pre(g, n, t, th) && th.pc.Connecting? && th.pc.c.Begin?
    ensures Kept(g, t, ConnectStep(g, t, th, th.pc.c, a))
  {
    hide Exclusion.RolePc;
  }

  lemma OwnDial(g: Globals, n: nat, t: Tid, th: Thread, a: Action)
    requires Pre(g, n, t, th) && th.pc.Connecting? && !th.pc.c.Begin? && !Publishing(th.pc.c) && !Releasing(th.pc.c)
    ensures Kept(g, t, ConnectStep(g, t, th, th.pc.c, a))
  {
    hide Exclusion.RolePc, Show, Shut, Relocate, Displace;
    match th.pc.c
    case Begin(_) => case Resolve(_) => case Dial(_) => case Handshake(_) => case Publish(_) =>
    case Arm(_) => case Fail(_) => case Unlock(_) => case Spawn => case Count =>
  }

  lemma OwnPublish(g: Globals, n: nat, t: Tid, th: Thread, a: Action)
    requires Pre(g, n, t, th) && th.pc.Connecting? && Publishing(th.pc.c)
    ensures Kept(g, t, ConnectStep(g, t, th, th.pc.c, a))
  {
    hide Exclusion.RolePc;
  }

  lemma OwnRelease(g: Globals, n: nat, t: Tid, th: Thread, a: Action)
    requires Pre(g, n, t, th) && th.pc.Connecting? && Releasing(th.pc.c)
    ensures Kept(g, t, ConnectStep(g, t, th, th.pc.c, a))
  {
    hide Exclusion.RolePc;
  }

  lemma OwnDestroy(g: Globals, n: nat, t: Tid, th: Thread, a: Action)
    requires Pre(g, n, t, th) && th.pc.Destroying?
    ensures Kept(g, t, DestroyStep(g, t, th, th.pc.ret, th.pc.d, a))
  {
    match th.pc.d
    case EnterOnce => case Swap => case CloseConn(_) => case PushDuration => case Cancel => case LeaveOnce =>
  }

  lemma OwnTimeout(g: Globals, n: nat, t: Tid, th: Thread, a: Action)
    requires Pre(g, n, t, th) && th.pc.SettingTimeout?
    ensures Kept(g, t, TimeoutStep(g, t, th, th.pc.ms, th.pc.p, a))
  {}

  lemma OwnOther(g: Globals, n: nat, t: Tid, th: Thread, a: Action)
    requires Pre(g, n, t, th) && !th.pc.Connecting? && !th.pc.Destroying? && !th.pc.SettingTimeout?
    ensures Kept(g, t, Local(g, t, th, a))
  {
    hide Local, Exclusion.RolePc;
    Footprint.Of(g, t, th, a);
    Exclusion.OwnOther(g, n, t, th, a);
  }

  lemma Own(g: Globals, n: nat, t: Tid, th: Thread, a: Action)
    requires Pre(g, n, t, th)
    ensures Kept(g, t, Local(g, t, th, a))
  {
    hide ConnectStep, LookupStep, SendStep, ReadStep, DestroyStep, WriteStep, ScriptStep, TimeoutStep, ObserveStep,
      ReportStep, Kept;
    if th.pc.Connecting? {
      if th.pc.c.Begin? { OwnBegin(g, n, t, th, a); }
      else if Publishing(th.pc.c) { OwnPublish(g, n, t, th, a); }
      else if Releasing(th.pc.c) { OwnRelease(g, n, t, th, a); }
      else { OwnDial(g, n, t, th, a); }
    }
    else if th.pc.Destroying? { OwnDestroy(g, n, t, th, a); }
    else if th.pc.SettingTimeout? { OwnTimeout(g, n, t, th, a); }
    else { OwnOther(g, n, t, th, a); }
  }

  lemma Preserved(s: Sys, e: Step)
    requires Inv(s) && Enabled(s, e)
    ensures Inv(Apply(s, e))
  {
    hide Local;
    var s' := Apply(s, e);
    Exclusion.Preserved(s, e);
    match e
    case ThreadStep(t, a) =>
      Own(s.g, |s.ts|, t, s.ts[t], a);
      Footprint.Of(s.g, t, s.ts[t], a);
      forall u | 0 <= u < |s'.ts| ensures L(s'.g, s'.ts[u]) {
        if u < |s.ts| && u != t { assert Exclusion.L(s.g, u, s.ts[u]) && L(s.g, s.ts[u]); }
      }
    case EnvStep(_) =>
      forall u | 0 <= u < |s'.ts| ensures L(s'.g, s'.ts[u]) { assert L(s.g, s.ts[u]); }
  }

  lemma {:induction false} Always(tr: seq<Step>)
    requires IsRun(tr)
    ensures Inv(Exec(tr))
  {
    hide Local;
    if tr == [] {
      Exclusion.Always(tr);
    } else {
      Always(tr[..|tr| - 1]);
      Preserved(Exec(tr[..|tr| - 1]), tr[|tr| - 1]);
    }
  }

  // ---------------------------------------------------------------- refinement

  /** The atomic operation a step completes, if it ends a lock section. */
  function Completes(s: Sys, e: Step): Option<AtomicOp>
    requires Enabled(s, e)
  {
    if e.EnvStep? then None else
    var pc := s.ts[e.t].pc;
    if pc.Connecting? && pc.c.Unlock? then Some(Connected(pc.c.c))
    else if pc.Connecting? && pc.c.Fail? then
      Some(if pc.c.pub.Some? then ArmingFailed(pc.c.pub.value) else ConnectFailed)
    else if pc.Destroying? && pc.d.Swap? then Some(TornDown)
    else if pc.SettingTimeout? && pc.p.UnlockTimeout? then Some(TimeoutSet(pc.ms))
    else None
  }

  /** The atomic operations of a run, in the order their sections ended. */
  ghost function Ops(tr: seq<Step>): seq<AtomicOp>
    requires IsRun(tr)
  {
    if tr == [] then []
    else
      var s := Exec(tr[..|tr| - 1]);
      Ops(tr[..|tr| - 1]) + (match Completes(s, tr[|tr| - 1]) case None => [] case Some(op) => [op])
  }

  lemma CompletesConnect(g: Globals, n: nat, t: Tid, th: Thread, a: Action)
    requires Pre(g, n, t, th) && th.pc.Connecting? && ConnectStep(g, t, th, th.pc.c, a).Moved?
    ensures var h := ConnectStep(g, t, th, th.pc.c, a).g;
            Visible(h) ==
              if th.pc.c.Unlock? then Do(Visible(g), Connected(th.pc.c.c))
              else if th.pc.c.Fail? then
                Do(Visible(g), if th.pc.c.pub.Some? then ArmingFailed(th.pc.c.pub.value) else ConnectFailed)
              else Visible(g)
  {}

  lemma CompletesOther(g: Globals, n: nat, t: Tid, th: Thread, a: Action)
    requires Pre(g, n, t, th)
    ensures th.pc.Destroying? && DestroyStep(g, t, th, th.pc.ret, th.pc.d, a).Moved? ==>
              Visible(DestroyStep(g, t, th, th.pc.ret, th.pc.d, a).g) ==
                if th.pc.d.Swap? then Do(Visible(g), TornDown) else Visible(g)
    ensures th.pc.SettingTimeout? && TimeoutStep(g, t, th, th.pc.ms, th.pc.p, a).Moved? ==>
              Visible(TimeoutStep(g, t, th, th.pc.ms, th.pc.p, a).g) ==
                if th.pc.p.UnlockTimeout? then Do(Visible(g), TimeoutSet(th.pc.ms)) else Visible(g)
  {}

  /** One step either leaves the visible fields alone or performs exactly one atomic operation. */
  lemma RefinesStep(s: Sys, e: Step)
    requires Inv(s) && Enabled(s, e)
    ensures Visible(Apply(s, e).g) ==
              match Completes(s, e) case None => Visible(s.g) case Some(op) => Do(Visible(s.g), op)
  {
    hide ConnectStep, LookupStep, SendStep, ReadStep, DestroyStep, WriteStep, ScriptStep, TimeoutStep, ObserveStep,
      ReportStep;
    if e.ThreadStep? {
      var th := s.ts[e.t];
      assert Exclusion.L(s.g, e.t, th) && L(s.g, th);
      if th.pc.Connecting? { CompletesConnect(s.g, |s.ts|, e.t, th, e.a); }
      else if th.pc.Destroying? || th.pc.SettingTimeout? { CompletesOther(s.g, |s.ts|, e.t, th, e.a); }
      else { Footprint.Of(s.g, e.t, th, e.a); }
    }
  }

  /**
   * Refinement: after every run the visible fields are those of the atomic machine after the run's
   * completed sections, hence always settled: never `opening`, `open` only with a connection,
   * `destroyed` only without one.
   */
  lemma {:induction false} Refines(tr: seq<Step>)
    requires IsRun(tr)
    ensures Visible(Exec(tr).g) == DoAll(Ops(tr))
    ensures Settled(Visible(Exec(tr).g))
  {
    hide Local, Visible, Completes;
    AlwaysSettled(Ops(tr));
    if tr == [] {
      StartsSettled();
    } else {
      var p := tr[..|tr| - 1];
      Refines(p);
      Always(p);
      RefinesStep(Exec(p), tr[|tr| - 1]);
      match Completes(Exec(p), tr[|tr| - 1])
      case None => assert Ops(tr) == Ops(p);
      case Some(op) => assert Ops(tr)[..|Ops(tr)| - 1] == Ops(p);
    }
  }

  lemma StartsSettled()
    ensures Visible(Init().g) == START
  {}

  /** With the lock free, the fields themselves are those of the atomic machine. */
  lemma {:induction false} FreeIsAtomic(tr: seq<Step>)
    requires IsRun(tr) && LockFree(Exec(tr).g)
    ensures Exec(tr).g.core == DoAll(Ops(tr))
  {
    hide Local;
    Refines(tr);
  }

  /**
   * With the lock free, the socket is `disconnected` although a connection is set if and only if the last
   * lock section of a connect or a teardown was a connect that failed to arm the connection it had
   * published, or a connect that failed while an earlier connection was still set.
   */
  lemma {:induction false} DisconnectedWithConnectionIff(tr: seq<Step>)
    requires IsRun(tr) && LockFree(Exec(tr).g)
    ensures Exec(tr).g.core.st.Disconnected? && Exec(tr).g.core.conn.Some? <==> Strands(Ops(tr))
  {
    hide Local, Exec, DoAll, Strands;
    FreeIsAtomic(tr);
    StrandedIff(Ops(tr));
  }

  /** With the lock free, the socket is open exactly when the last such section was a successful connect. */
  lemma {:induction false} OpenIff(tr: seq<Step>)
    requires IsRun(tr) && LockFree(Exec(tr).g)
    ensures Exec(tr).g.core.st.Open? <==> LastSection(Ops(tr)).Some? && LastSection(Ops(tr)).value.Connected?
  {
    hide Local, Exec, DoAll;
    FreeIsAtomic(tr);
    StateIsLastSection(Ops(tr));
  }

  // ---------------------------------------------------------------- what the script can see

  lemma ObserveLocal(g: Globals, t: Tid, th: Thread, a: Action)
    requires Local(g, t, th, a).Moved?
    ensures Local(g, t, th, a).g.log.observed ==
              if th.pc.Observing? then g.log.observed + [g.core.st] else g.log.observed
    ensures th.pc.Observing? ==> LockFree(g)
  {
    hide ConnectStep, LookupStep, SendStep, ReadStep, DestroyStep, WriteStep, TimeoutStep, ReportStep;
    if !th.pc.Observing? && !th.pc.Script? { Footprint.Of(g, t, th, a); }
  }

  /** `ready_state` never returns "opening", although the field holds it during every connect. */
  lemma {:induction false} NeverSeesOpening(tr: seq<Step>)
    requires IsRun(tr)
    ensures Opening !in Exec(tr).g.log.observed
  {
    hide Local, DoAll, Ops, Inv;
    if tr != [] {
      var p := tr[..|tr| - 1];
      NeverSeesOpening(p);
      Refines(p);
      var s, e := Exec(p), tr[|tr| - 1];
      if e.ThreadStep? { ObserveLocal(s.g, e.t, s.ts[e.t], e.a); }
    }
  }

  // ---------------------------------------------------------------- when destroyed is final

  lemma DestroyedConnect(g: Globals, t: Tid, th: Thread, pc: ConnectPc, a: Action)
    requires th.pc == Connecting(pc) && L(g, th) && g.core.st.Destroyed? && ConnectStep(g, t, th, pc, a).Moved?
    ensures ConnectStep(g, t, th, pc, a).g.core.st.Destroyed? <==> !pc.Begin?
  {
    match pc
    case Begin(_) => case Resolve(_) => case Dial(_) => case Handshake(_) => case Publish(_) =>
    case Arm(_) => case Fail(_) => case Unlock(_) => case Spawn => case Count =>
  }

  lemma DestroyedOther(g: Globals, t: Tid, th: Thread, a: Action)
    requires !th.pc.Connecting? && g.core.st.Destroyed? && Local(g, t, th, a).Moved?
    ensures Local(g, t, th, a).g.core.st.Destroyed?
  {
    hide ConnectStep, LookupStep, SendStep, ReadStep, WriteStep, ScriptStep, ObserveStep, ReportStep;
    if th.pc.Destroying? {
      match th.pc.d
      case EnterOnce => case Swap => case CloseConn(_) => case PushDuration => case Cancel => case LeaveOnce =>
    } else if th.pc.SettingTimeout? {
      match th.pc.p case LockTimeout => case ArmTimeout(_) => case UnlockTimeout =>
    } else {
      Footprint.Of(g, t, th, a);
    }
  }

  lemma StaysDestroyed(s: Sys, e: Step)
    requires Inv(s) && Enabled(s, e) && s.g.core.st.Destroyed?
    ensures Apply(s, e).g.core.st.Destroyed? <==> !TakesLock(s, e)
  {
    hide ConnectStep, LookupStep, SendStep, ReadStep, DestroyStep, WriteStep, ScriptStep, TimeoutStep, ObserveStep,
      ReportStep, L;
    if e.ThreadStep? {
      var th := s.ts[e.t];
      assert L(s.g, th);
      if th.pc.Connecting? { DestroyedConnect(s.g, e.t, th, th.pc.c, e.a); } else { DestroyedOther(s.g, e.t, th, e.a); }
    }
  }

  /**
   * From any point where the socket is destroyed it stays destroyed to the end of the run if and only
   * if no connect goroutine takes the lock after that point.
   */
  lemma {:induction false} DestroyedIsFinal(tr: seq<Step>, i: nat)
    requires IsRun(tr) && i <= |tr| && At(tr, i).g.core.st.Destroyed?
    ensures (forall j :: i <= j <= |tr| ==> At(tr, j).g.core.st.Destroyed?) <==>
            (forall j :: i <= j < |tr| ==> !TakesLock(At(tr, j), tr[j]))
    decreases |tr| - i
  {
    hide Enabled, Apply, TakesLock;
    if i < |tr| {
      StepAt(tr, i);
      PrefixIsRun(tr, i);
      Always(tr[..i]);
      StaysDestroyed(At(tr, i), tr[i]);
      if !TakesLock(At(tr, i), tr[i]) { DestroyedIsFinal(tr, i + 1); }
    }
  }

  // ---------------------------------------------------------------- teardown happens once

  function Teardowns(ops: seq<AtomicOp>): nat {
    if ops == [] then 0 else Teardowns(ops[..|ops| - 1]) + if ops[|ops| - 1].TornDown? then 1 else 0
  }

  lemma SwapStep(s: Sys, e: Step)
    requires Inv(s) && Enabled(s, e)
    ensures var swaps := Completes(s, e) == Some(TornDown);
            && (swaps ==> !s.g.life.swapped)
            && (Apply(s, e).g.life.swapped <==> s.g.life.swapped || swaps)
  {
    hide ConnectStep, LookupStep, SendStep, ReadStep, DestroyStep, WriteStep, ScriptStep, TimeoutStep, ObserveStep,
      ReportStep;
    if e.ThreadStep? {
      var th := s.ts[e.t];
      assert L(s.g, th);
      if th.pc.Connecting? { LifeConnect(s.g, e.t, th, th.pc.c, e.a); } else { LifeOther(s.g, e.t, th, e.a); }
    }
  }

  /** However many destroy() calls and readers race, the teardown section runs at most once. */
  lemma {:induction false} TornDownOnce(tr: seq<Step>)
    requires IsRun(tr)
    ensures Teardowns(Ops(tr)) == if Exec(tr).g.life.swapped then 1 else 0
  {
    hide Local, Completes;
    if tr != [] {
      var p := tr[..|tr| - 1];
      TornDownOnce(p);
      Always(p);
      SwapStep(Exec(p), tr[|tr| - 1]);
      match Completes(Exec(p), tr[|tr| - 1])
      case None => assert Ops(tr) == Ops(p);
      case Some(op) => assert Ops(tr)[..|Ops(tr)| - 1] == Ops(p);
    }
  }
}
