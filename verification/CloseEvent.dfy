/**
 * The `close` event: accepted at most once in every run, and exactly once by the end of teardown when
 * its handler was registered in time and the VU context is live, because the loop cannot be cancelled
 * before it has accepted it.
 */
module CloseEvent {
  import opened SocketMachine
  import opened Runs
  import Footprint
  import Exclusion

  /** How many accepted calls are `close`. */
  function Closes(acc: seq<Task>): nat {
    if acc == [] then 0 else Closes(acc[..|acc| - 1]) + if acc[|acc| - 1].call.OnClose? then 1 else 0
  }

  lemma ClosesAppend(acc: seq<Task>, task: Task)
    ensures Closes(acc + [task]) == Closes(acc) + if task.call.OnClose? then 1 else 0
  {
    assert (acc + [task])[..|acc|] == acc;
  }

  /** The teardown body has not fired `close` yet. */
  predicate BeforeClose(pc: Pc) { Exclusion.InBody(pc) && !AfterClose(pc) }

  predicate AfterClose(pc: Pc) { pc.Destroying? && (pc.d.Cancel? || pc.d.LeaveOnce?) }

  /** `close` has been dealt with: accepted, skipped for want of a handler, or dropped with the VU. */
  ghost predicate Settled(g: Globals) {
    Closes(g.ev.accepted) + (if g.ev.closeSkipped then 1 else 0) <= 1 &&
    (g.vuDone || Closes(g.ev.accepted) + (if g.ev.closeSkipped then 1 else 0) == 1)
  }

  ghost predicate Pristine(g: Globals) { Closes(g.ev.accepted) == 0 && !g.ev.closeSkipped && !g.cancelled }

  ghost predicate G(g: Globals) {
    && (g.once.Fresh? ==> Pristine(g))
    && (g.once.Done? ==> Settled(g))
    && (g.loop.Exited? ==> g.cancelled || g.vuDone)
  }

  ghost predicate L(g: Globals, th: Thread) {
    && (BeforeClose(th.pc) ==> Pristine(g))
    && (AfterClose(th.pc) ==> Settled(g))
  }

  ghost predicate Inv(s: Sys) {
    Exclusion.Inv(s) && G(s.g) && forall t :: 0 <= t < |s.ts| ==> L(s.g, s.ts[t])
  }

  /** Only the thread inside the teardown body touches what `close` is about. */
  ghost predicate Frame(g: Globals, h: Globals, t: Tid) {
    && (g.once != Running(t) ==>
          Closes(h.ev.accepted) == Closes(g.ev.accepted) && h.ev.closeSkipped == g.ev.closeSkipped &&
          h.cancelled == g.cancelled)
    && (g.vuDone ==> h.vuDone)
  }

  ghost predicate Pre(g: Globals, n: nat, t: Tid, th: Thread) { Exclusion.Pre(g, n, t, th) && G(g) && L(g, th) }

  ghost predicate Kept(g: Globals, t: Tid, o: Outcome) { o.Moved? ==> G(o.g) && L(o.g, o.th) && Frame(g, o.g, t) }

  /** What the role of a thread has no part in. */
  lemma InBodyIsRunning(g: Globals, n: nat, t: Tid, th: Thread)
    requires Exclusion.Pre(g, n, t, th)
    ensures Exclusion.InBody(th.pc) <==> g.once == Running(t)
  {}

  lemma OwnLookup(g: Globals, n: nat, t: Tid, th: Thread, a: Action)
    requires Pre(g, n, t, th) && th.pc.Firing? && !th.pc.sending
    ensures Kept(g, t, LookupStep(g, th, th.pc.call, a))
  {
    hide Closes, Exclusion.Pre, Release;
    InBodyIsRunning(g, n, t, th);
    match th.pc.call
    case OnConnect => case OnData(_, _, _, _, _) => case OnTimeout(_) => case OnClose(_) => case OnError(_) =>
  }

  lemma OwnSend(g: Globals, n: nat, t: Tid, th: Thread, a: Action)
    requires Pre(g, n, t, th) && th.pc.Firing? && th.pc.sending
    ensures Kept(g, t, SendStep(g, t, th, th.pc.call, a))
  {
    hide Closes, Exclusion.Pre, Release, Move;
    InBodyIsRunning(g, n, t, th);
    ClosesAppend(g.ev.accepted, Task(t, th.parent, th.pc.call));
    match th.pc.call
    case OnConnect => case OnData(_, _, _, _, _) => case OnTimeout(_) => case OnClose(_) => case OnError(_) =>
  }

  lemma OwnDestroy(g: Globals, n: nat, t: Tid, th: Thread, a: Action)
    requires Pre(g, n, t, th) && th.pc.Destroying?
    ensures Kept(g, t, DestroyStep(g, t, th, th.pc.ret, th.pc.d, a))
  {
    hide Closes;
    match th.pc.d
    case EnterOnce => case Swap => case CloseConn(_) => case PushDuration => case Cancel => case LeaveOnce =>
  }

  lemma OwnScript(g: Globals, n: nat, t: Tid, th: Thread, a: Action)
    requires Pre(g, n, t, th) && th.pc.Script?
    ensures Kept(g, t, Local(g, t, th, a))
  {
    hide ConnectStep, LookupStep, SendStep, ReadStep, DestroyStep, WriteStep, ScriptStep, TimeoutStep, ObserveStep,
      ReportStep, Closes;
    if Local(g, t, th, a).Moved? {
      Footprint.Of(g, t, th, a);
      Footprint.ScriptEvents(g, th, a.op);
    }
  }

  lemma OwnOther(g: Globals, n: nat, t: Tid, th: Thread, a: Action)
    requires Pre(g, n, t, th) && !th.pc.Firing? && !th.pc.Destroying? && !th.pc.Script?
    ensures Kept(g, t, Local(g, t, th, a))
  {
    hide Local, Closes;
    Footprint.Of(g, t, th, a);
  }

  lemma Own(g: Globals, n: nat, t: Tid, th: Thread, a: Action)
    requires Pre(g, n, t, th)
    ensures Kept(g, t, Local(g, t, th, a))
  {
    hide ConnectStep, LookupStep, SendStep, ReadStep, DestroyStep, WriteStep, ScriptStep, TimeoutStep, ObserveStep,
      ReportStep, Kept;
    if th.pc.Destroying? { OwnDestroy(g, n, t, th, a); }
    else if th.pc.Firing? { if th.pc.sending { OwnSend(g, n, t, th, a); } else { OwnLookup(g, n, t, th, a); } }
    else if th.pc.Script? { OwnScript(g, n, t, th, a); }
    else { OwnOther(g, n, t, th, a); }
  }

  lemma Preserved(s: Sys, e: Step)
    requires Inv(s) && Enabled(s, e)
    ensures Inv(Apply(s, e))
  {
    hide Local, Closes;
    var s' := Apply(s, e);
    Exclusion.Preserved(s, e);
    match e
    case ThreadStep(t, a) =>
      Own(s.g, |s.ts|, t, s.ts[t], a);
      Footprint.Of(s.g, t, s.ts[t], a);
      forall u | 0 <= u < |s'.ts| ensures L(s'.g, s'.ts[u]) {
        if u < |s.ts| && u != t { assert Exclusion.L(s.g, u, s.ts[u]) && L(s.g, s.ts[u]); }
      }
    case EnvStep(_) =>
      forall u | 0 <= u < |s'.ts| ensures L(s'.g, s'.ts[u]) { assert L(s.g, s.ts[u]); }
  }

  lemma {:induction false} Always(tr: seq<Step>)
    requires IsRun(tr)
    ensures Inv(Exec(tr))
  {
    hide Local;
    if tr == [] {
      Exclusion.Always(tr);
    } else {
      Always(tr[..|tr| - 1]);
      Preserved(Exec(tr[..|tr| - 1]), tr[|tr| - 1]);
    }
  }

  /** `close` is accepted at most once, however many destroyers race. */
  lemma {:induction false} AtMostOnce(tr: seq<Step>)
    requires IsRun(tr)
    ensures Closes(Exec(tr).g.ev.accepted) <= 1
  {
    hide Local, Closes;
    Always(tr);
    var s := Exec(tr);
    if s.g.once.Running? { assert Exclusion.L(s.g, s.g.once.who, s.ts[s.g.once.who]) && L(s.g, s.ts[s.g.once.who]); }
  }

  /** With a live VU context, after teardown `close` was accepted exactly once unless its handler was missing. */
  lemma {:induction false} ExactlyOnceUnlessUnhandled(tr: seq<Step>)
    requires IsRun(tr) && Exec(tr).g.once.Done? && !Exec(tr).g.vuDone
    ensures Closes(Exec(tr).g.ev.accepted) == if SomeStep(tr, SkipsClose) then 0 else 1
  {
    hide Local, Closes, SomeStep;
    Always(tr);
    FlagsMean(tr);
  }

  lemma HandlersGrow(g: Globals, t: Tid, th: Thread, a: Action)
    requires Local(g, t, th, a).Moved?
    ensures g.ev.handlers <= Local(g, t, th, a).g.ev.handlers
    ensures Close in g.ev.handlers && !g.ev.closeSkipped ==> !Local(g, t, th, a).g.ev.closeSkipped
  {
    hide ConnectStep, ReadStep, DestroyStep, WriteStep, TimeoutStep, ObserveStep, ReportStep, ScriptStep;
    if th.pc.Script? { Footprint.ScriptEvents(g, th, a.op); }
    else if !th.pc.Firing? { Footprint.Of(g, t, th, a); }
  }

  lemma {:induction false} StaysHandled(tr: seq<Step>, i: nat)
    requires IsRun(tr) && i <= |tr|
    requires Close in At(tr, i).g.ev.handlers && !At(tr, i).g.ev.closeSkipped
    ensures Close in Exec(tr).g.ev.handlers && !Exec(tr).g.ev.closeSkipped
    decreases |tr| - i
  {
    hide Local;
    if i == |tr| {
      AtEnd(tr);
    } else {
      StepAt(tr, i);
      var s, e := At(tr, i), tr[i];
      if e.ThreadStep? { HandlersGrow(s.g, e.t, s.ts[e.t], e.a); }
      StaysHandled(tr, i + 1);
    }
  }

  /**
   * If the close handler was registered at some point before any destroy had begun, the VU context is
   * still live and teardown has ended, then `close` was accepted exactly once.
   */
  lemma {:induction false} ExactlyOnce(tr: seq<Step>, i: nat)
    requires IsRun(tr) && i <= |tr| && At(tr, i).g.once.Fresh? && Close in At(tr, i).g.ev.handlers
    requires Exec(tr).g.once.Done? && !Exec(tr).g.vuDone
    ensures Closes(Exec(tr).g.ev.accepted) == 1
  {
    hide Local, Closes, SomeStep;
    PrefixIsRun(tr, i);
    Always(tr[..i]);
    StaysHandled(tr, i);
    FlagsMean(tr);
    ExactlyOnceUnlessUnhandled(tr);
  }
}
