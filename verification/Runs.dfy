/** Runs and their prefixes, and what the history flags of a run record. */
module Runs {
  import opened Basics
  import opened SocketMachine
  import Footprint

  lemma {:induction false} PrefixIsRun(tr: seq<Step>, i: nat)
    requires IsRun(tr) && i <= |tr|
    ensures IsRun(tr[..i])
    decreases |tr|
  {
    hide Enabled, Apply;
    if i < |tr| {
      PrefixIsRun(tr[..|tr| - 1], i);
      assert tr[..|tr| - 1][..i] == tr[..i];
    } else {
      assert tr[..i] == tr;
    }
  }

  /** The system before step `i` of a run. */
  ghost function At(tr: seq<Step>, i: nat): Sys
    requires IsRun(tr) && i <= |tr|
  {
    PrefixIsRun(tr, i);
    Exec(tr[..i])
  }

  lemma {:induction false} StepAt(tr: seq<Step>, i: nat)
    requires IsRun(tr) && i < |tr|
    ensures Enabled(At(tr, i), tr[i]) && At(tr, i + 1) == Apply(At(tr, i), tr[i])
  {
    hide Enabled, Apply;
    PrefixIsRun(tr, i + 1);
    assert tr[..i + 1][..i] == tr[..i];
  }

  lemma {:induction false} AtPrefix(tr: seq<Step>, n: nat, i: nat)
    requires IsRun(tr) && i <= n <= |tr|
    ensures IsRun(tr[..n]) && At(tr[..n], i) == At(tr, i)
  {
    hide Enabled, Apply;
    PrefixIsRun(tr, n);
    assert tr[..n][..i] == tr[..i];
  }

  lemma {:induction false} AtEnd(tr: seq<Step>)
    requires IsRun(tr)
    ensures At(tr, |tr|) == Exec(tr)
  {
    hide Enabled, Apply;
    assert tr[..|tr|] == tr;
  }

  /** Step `e` is a connect goroutine taking the lock. */
  predicate TakesLock(s: Sys, e: Step) {
    e.ThreadStep? && e.t < |s.ts| && s.ts[e.t].pc.Connecting? && s.ts[e.t].pc.c.Begin?
  }

  /** Step `e` stores a positive timeout. */
  predicate SetsPositive(s: Sys, e: Step) {
    e.ThreadStep? && e.t < |s.ts| && s.ts[e.t].pc.SettingTimeout? && s.ts[e.t].pc.p.LockTimeout? &&
    TimeoutFor(s.ts[e.t].pc.ms) > 0
  }

  /** Step `e` is the script calling `destroy()`. */
  predicate CallsDestroy(e: Step) { e.ThreadStep? && e.a.Invoke? && e.a.op.DoDestroy? }

  /** Step `e` is a read that returns EOF or an error other than a timeout. */
  predicate EndsStream(e: Step) { e.ThreadStep? && e.a.ReadReturned? && (e.a.err.Eof? || e.a.err.Fatal?) }

  lemma LifeConnect(g: Globals, t: Tid, th: Thread, pc: ConnectPc, a: Action)
    requires ConnectStep(g, t, th, pc, a).Moved?
    ensures ConnectStep(g, t, th, pc, a).g.life.revived == (g.life.revived || (pc.Begin? && g.core.st.Destroyed?))
    ensures ConnectStep(g, t, th, pc, a).g.life.overlapped == (g.life.overlapped || (pc.Begin? && g.core.conn.Some?))
    ensures ConnectStep(g, t, th, pc, a).g.life.positive == g.life.positive
    ensures ConnectStep(g, t, th, pc, a).g.life.swapped == g.life.swapped
  {
    match pc
    case Begin(_) => case Resolve(_) => case Dial(_) => case Handshake(_) => case Publish(_) =>
    case Arm(_) => case Fail(_) => case Unlock(_) => case Spawn => case Count =>
  }

  lemma LifeOther(g: Globals, t: Tid, th: Thread, a: Action)
    requires !th.pc.Connecting? && Local(g, t, th, a).Moved?
    ensures var f := Local(g, t, th, a).g.life;
            && f.revived == g.life.revived && f.overlapped == g.life.overlapped
            && (f.swapped == (g.life.swapped || (th.pc.Destroying? && th.pc.d.Swap?)))
            && f.positive == (g.life.positive ||
                              (th.pc.SettingTimeout? && th.pc.p.LockTimeout? && TimeoutFor(th.pc.ms) > 0))
  {
    hide ConnectStep, LookupStep, SendStep, ReadStep, WriteStep, ScriptStep, ObserveStep, ReportStep;
    if !th.pc.Destroying? && !th.pc.SettingTimeout? { Footprint.Of(g, t, th, a); }
  }

  lemma LogStep(g: Globals, t: Tid, th: Thread, a: Action)
    requires Local(g, t, th, a).Moved?
    ensures var h := Local(g, t, th, a).g;
            && (h.log.destroys > 0 <==> g.log.destroys > 0 || (a.Invoke? && a.op.DoDestroy?))
            && (h.rx.endings > 0 <==> g.rx.endings > 0 || (a.ReadReturned? && (a.err.Eof? || a.err.Fatal?)))
  {
    hide ConnectStep, LookupStep, SendStep, DestroyStep, TimeoutStep, WriteStep;
    if !th.pc.Script? && !th.pc.Observing? { Footprint.Of(g, t, th, a); }
    if !th.pc.Reading? { Footprint.Of(g, t, th, a); }
    OnlyScriptInvokes(g, t, th, a);
  }

  lemma OnlyScriptInvokes(g: Globals, t: Tid, th: Thread, a: Action)
    requires Local(g, t, th, a).Moved?
    ensures a.Invoke? ==> th.pc.Script?
    ensures a.ReadReturned? ==> th.pc.Reading? && th.pc.r.CallRead?
  {}

  ghost predicate SomeStep(tr: seq<Step>, p: (Sys, Step) -> bool)
    requires IsRun(tr)
  {
    exists i :: 0 <= i < |tr| && p(At(tr, i), tr[i])
  }

  lemma {:induction false} SomeStepGrows(tr: seq<Step>, p: (Sys, Step) -> bool)
    requires IsRun(tr) && tr != []
    ensures IsRun(tr[..|tr| - 1])
    ensures SomeStep(tr, p) <==> SomeStep(tr[..|tr| - 1], p) || p(Exec(tr[..|tr| - 1]), tr[|tr| - 1])
  {
    hide Enabled, Apply;
    var q := tr[..|tr| - 1];
    forall i | 0 <= i < |q| ensures At(tr, i) == At(q, i) { AtPrefix(tr, |q|, i); }
    assert At(tr, |q|) == Exec(q);
    if SomeStep(q, p) {
      var i :| 0 <= i < |q| && p(At(q, i), q[i]);
      assert p(At(tr, i), tr[i]);
    }
    if SomeStep(tr, p) {
      var i :| 0 <= i < |tr| && p(At(tr, i), tr[i]);
      if i < |q| { assert p(At(q, i), q[i]); }
    }
  }

  /** A connect goroutine takes the lock although the socket is destroyed. */
  predicate Revives(s: Sys, e: Step) { TakesLock(s, e) && s.g.core.st.Destroyed? }

  /** A connect goroutine takes the lock although a connection is set. */
  predicate Overlaps(s: Sys, e: Step) { TakesLock(s, e) && s.g.core.conn.Some? }

  /** Teardown comes to its `close` and finds no handler for it. */
  predicate SkipsClose(s: Sys, e: Step) {
    e.ThreadStep? && e.t < |s.ts| && s.ts[e.t].pc.Firing? && s.ts[e.t].pc.call.OnClose? &&
    !s.ts[e.t].pc.sending && Close !in s.g.ev.handlers
  }

  /** A SetReadDeadline call fails. */
  predicate FailsToArm(s: Sys, e: Step) {
    e.ThreadStep? && e.t < |s.ts| && e.a == Returned(false) && Arming(s.ts[e.t].pc)
  }

  predicate Arming(pc: Pc) {
    || (pc.Connecting? && pc.c.Arm?)
    || (pc.Reading? && pc.r.ArmRead?)
    || (pc.SettingTimeout? && pc.p.ArmTimeout?)
  }

  /** The history flags say exactly which of these steps a run contains. */
  lemma {:induction false} FlagsMean(tr: seq<Step>)
    requires IsRun(tr)
    ensures Exec(tr).g.life.revived <==> SomeStep(tr, Revives)
    ensures Exec(tr).g.life.overlapped <==> SomeStep(tr, Overlaps)
    ensures Exec(tr).g.life.positive <==> SomeStep(tr, SetsPositive)
    ensures Exec(tr).g.log.destroys > 0 <==> SomeStep(tr, (_, e) => CallsDestroy(e))
    ensures Exec(tr).g.rx.endings > 0 <==> SomeStep(tr, (_, e) => EndsStream(e))
    ensures Exec(tr).g.ev.closeSkipped <==> SomeStep(tr, SkipsClose)
    ensures Exec(tr).g.net.armFailed <==> SomeStep(tr, FailsToArm)
  {
    hide Local, SomeStep;
    if tr == [] {
      NoSteps();
    } else {
      var q := tr[..|tr| - 1];
      var e := tr[|tr| - 1];
      FlagsMean(q);
      var s := Exec(q);
      SomeStepGrows(tr, Revives);
      SomeStepGrows(tr, Overlaps);
      SomeStepGrows(tr, SetsPositive);
      SomeStepGrows(tr, (_, e) => CallsDestroy(e));
      SomeStepGrows(tr, (_, e) => EndsStream(e));
      SomeStepGrows(tr, SkipsClose);
      SomeStepGrows(tr, FailsToArm);
      FlagsStep(s, e);
      CallFlagsStep(s, e);
    }
  }

  lemma NoSteps()
    ensures forall p :: !SomeStep([], p)
  {}

  lemma FlagsStep(s: Sys, e: Step)
    requires Enabled(s, e)
    ensures var g := Apply(s, e).g;
            && (g.life.revived <==> s.g.life.revived || Revives(s, e))
            && (g.life.overlapped <==> s.g.life.overlapped || Overlaps(s, e))
            && (g.life.positive <==> s.g.life.positive || SetsPositive(s, e))
            && (g.log.destroys > 0 <==> s.g.log.destroys > 0 || CallsDestroy(e))
            && (g.rx.endings > 0 <==> s.g.rx.endings > 0 || EndsStream(e))
  {
    hide ConnectStep, LookupStep, SendStep, ReadStep, DestroyStep, WriteStep, ScriptStep, TimeoutStep, ObserveStep,
      ReportStep;
    if e.ThreadStep? {
      LogStep(s.g, e.t, s.ts[e.t], e.a);
      if s.ts[e.t].pc.Connecting? { LifeConnect(s.g, e.t, s.ts[e.t], s.ts[e.t].pc.c, e.a); }
      else { LifeOther(s.g, e.t, s.ts[e.t], e.a); }
    }
  }

  lemma ArmConnect(g: Globals, t: Tid, th: Thread, pc: ConnectPc, a: Action)
    requires ConnectStep(g, t, th, pc, a).Moved?
    ensures ConnectStep(g, t, th, pc, a).g.net.armFailed == (g.net.armFailed || (pc.Arm? && a == Returned(false)))
  {
    match pc
    case Begin(_) => case Resolve(_) => case Dial(_) => case Handshake(_) => case Publish(_) =>
    case Arm(_) => case Fail(_) => case Unlock(_) => case Spawn => case Count =>
  }

  lemma ArmRead(g: Globals, t: Tid, th: Thread, pc: ReadPc, a: Action)
    requires ReadStep(g, t, th, pc, a).Moved?
    ensures ReadStep(g, t, th, pc, a).g.net.armFailed == (g.net.armFailed || (pc.ArmRead? && a == Returned(false)))
  {
    match pc
    case Head => case Snap => case ArmRead(_, _) => case CallRead(_) => case PushRead(_, _, _) =>
    case AddRead(_, _, _) => case CopyRead(_, _, _) => case Test(_, _) =>
  }

  lemma ArmOther(g: Globals, t: Tid, th: Thread, a: Action)
    requires (th.pc.Destroying? || th.pc.SettingTimeout?) && Local(g, t, th, a).Moved?
    ensures Local(g, t, th, a).g.net.armFailed ==
              (g.net.armFailed || (th.pc.SettingTimeout? && th.pc.p.ArmTimeout? && a == Returned(false)))
  {
    hide ConnectStep, LookupStep, SendStep, ReadStep, WriteStep, ScriptStep, ObserveStep, ReportStep;
  }

  lemma SkipFire(g: Globals, t: Tid, th: Thread, a: Action)
    requires th.pc.Firing? && Local(g, t, th, a).Moved?
    ensures Local(g, t, th, a).g.ev.closeSkipped ==
              (g.ev.closeSkipped || (th.pc.call.OnClose? && !th.pc.sending && Close !in g.ev.handlers))
  {
    hide ConnectStep, ReadStep, DestroyStep, WriteStep, ScriptStep, TimeoutStep, ObserveStep, ReportStep;
  }

  lemma CallFlagsStep(s: Sys, e: Step)
    requires Enabled(s, e)
    ensures Apply(s, e).g.ev.closeSkipped <==> s.g.ev.closeSkipped || SkipsClose(s, e)
    ensures Apply(s, e).g.net.armFailed <==> s.g.net.armFailed || FailsToArm(s, e)
  {
    hide ConnectStep, LookupStep, SendStep, ReadStep, DestroyStep, WriteStep, ScriptStep, TimeoutStep, ObserveStep,
      ReportStep;
    if e.ThreadStep? {
      var th := s.ts[e.t];
      Footprint.Of(s.g, e.t, th, e.a);
      if th.pc.Connecting? { ArmConnect(s.g, e.t, th, th.pc.c, e.a); }
      else if th.pc.Reading? { ArmRead(s.g, e.t, th, th.pc.r, e.a); }
      else if th.pc.Firing? { SkipFire(s.g, e.t, th, e.a); }
      else if th.pc.Script? { Footprint.ScriptEvents(s.g, th, e.a.op); }
      else if th.pc.Destroying? || th.pc.SettingTimeout? { ArmOther(s.g, e.t, th, e.a); }
    }
  }

  // ---------------------------------------------------------------- what never changes about a thread

  /** Step `i` starts thread `t`. */
  ghost predicate Starts(tr: seq<Step>, i: nat, t: Tid)
    requires IsRun(tr)
  {
    i < |tr| && |At(tr, i).ts| == t && |At(tr, i + 1).ts| == t + 1
  }

  /** A thread keeps its role, its parent and the record of how it was started. */
  lemma {:induction false} SameThread(tr: seq<Step>, i: nat, t: Tid)
    requires IsRun(tr) && i <= |tr| && t < |At(tr, i).ts|
    ensures t < |Exec(tr).ts|
    ensures Exec(tr).ts[t].role == At(tr, i).ts[t].role && Exec(tr).ts[t].parent == At(tr, i).ts[t].parent
    ensures Exec(tr).ts[t].ready == At(tr, i).ts[t].ready
    decreases |tr| - i
  {
    hide Local;
    if i == |tr| {
      AtEnd(tr);
    } else {
      StepAt(tr, i);
      var s, e := At(tr, i), tr[i];
      if e.ThreadStep? { Footprint.Of(s.g, e.t, s.ts[e.t], e.a); }
      SameThread(tr, i + 1, t);
    }
  }

  lemma ReadyAtBirth(s: Sys, e: Step)
    requires Enabled(s, e) && |Apply(s, e).ts| == |s.ts| + 1 && Apply(s, e).ts[|s.ts|].role.ReaderRole?
    ensures Apply(s, e).ts[|s.ts|].ready <==> Data in s.g.ev.handlers
  {
    hide LookupStep, SendStep, ReadStep, DestroyStep, WriteStep, ScriptStep, TimeoutStep, ObserveStep, ReportStep;
    Footprint.Of(s.g, e.t, s.ts[e.t], e.a);
    if s.ts[e.t].pc.Connecting? { SpawnsReady(s.g, e.t, s.ts[e.t], s.ts[e.t].pc.c, e.a); }
  }

  lemma SpawnsReady(g: Globals, t: Tid, th: Thread, pc: ConnectPc, a: Action)
    requires ConnectStep(g, t, th, pc, a).Moved? && ConnectStep(g, t, th, pc, a).spawn.Some?
    ensures ConnectStep(g, t, th, pc, a).spawn.value.ready <==> Data in g.ev.handlers
  {
    match pc
    case Begin(_) => case Resolve(_) => case Dial(_) => case Handshake(_) => case Publish(_) =>
    case Arm(_) => case Fail(_) => case Unlock(_) => case Spawn => case Count =>
  }

  /** A reader's `ready` says whether a data handler was registered when it was started. */
  lemma {:induction false} ReadyMeans(tr: seq<Step>, i: nat, t: Tid)
    requires IsRun(tr) && Starts(tr, i, t)
    ensures t < |Exec(tr).ts|
    ensures Exec(tr).ts[t].role.ReaderRole? ==> (Exec(tr).ts[t].ready <==> Data in At(tr, i).g.ev.handlers)
  {
    hide Local;
    StepAt(tr, i);
    SameThread(tr, i + 1, t);
    if Exec(tr).ts[t].role.ReaderRole? { ReadyAtBirth(At(tr, i), tr[i]); }
  }
}
