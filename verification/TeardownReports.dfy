/**
 * When the script hears of reads that ran on a connection already closed.  Every fatal such result judged
 * while the socket is open is reported, exactly once, and no other; every timeout likewise.  A result is
 * judged while the socket is open exactly when the last lock section of a connect or a teardown before
 * that was a successful connect.
 */
module TeardownReports {
  import opened SocketMachine
  import opened Runs
  import opened LockMachine
  import opened Totals
  import opened Conservation
  import Footprint
  import Lifecycle

  /** The re-check of a result read from a closed connection. */
  predicate Judges(s: Sys, e: Step, err: ReadErr) {
    e.ThreadStep? && e.t < |s.ts| && s.ts[e.t].pc == Reading(Test(err, true))
  }

  predicate JudgesFatal(s: Sys, e: Step) { Judges(s, e, Fatal) && s.g.core.st.Open? }

  predicate JudgesTimeout(s: Sys, e: Step) { Judges(s, e, TimedOut) && s.g.core.st.Open? }

  // ---------------------------------------------------------------- errors

  /** About to be reported. */
  function DeadReportsPending(th: Thread): nat {
    if th.pc.Reporting? && th.pc.kind.FromRead? && th.pc.kind.dead then 1 else 0
  }

  lemma DeadRead(g: Globals, t: Tid, th: Thread, pc: ReadPc, a: Action)
    requires ReadStep(g, t, th, pc, a).Moved?
    ensures DeadReportsPending(ReadStep(g, t, th, pc, a).th) ==
              if pc == Test(Fatal, true) && g.core.st.Open? then 1 else 0
  {
    match pc
    case Head => case Snap => case ArmRead(_, _) => case CallRead(_) => case PushRead(_, _, _) =>
    case AddRead(_, _, _) => case CopyRead(_, _, _) => case Test(_, _) =>
  }

  lemma DeadBalance(s: Sys, t: Tid, a: Action)
    requires t < |s.ts| && Enabled(s, ThreadStep(t, a))
    ensures var o := Local(s.g, t, s.ts[t], a);
            && o.g.reports.dead + DeadReportsPending(o.th) ==
                 s.g.reports.dead + DeadReportsPending(s.ts[t]) + (if JudgesFatal(s, ThreadStep(t, a)) then 1 else 0)
            && (o.spawn.Some? ==> DeadReportsPending(o.spawn.value) == 0)
  {
    hide ConnectStep, LookupStep, SendStep, ReadStep, DestroyStep, WriteStep, ScriptStep, TimeoutStep, ObserveStep;
    var th := s.ts[t];
    Footprint.Of(s.g, t, th, a);
    if th.pc.Reading? { DeadRead(s.g, t, th, th.pc.r, a); }
    else if th.pc.Firing? { ResumesSilent(th.pc.call); }
  }

  lemma ResumesSilent(k: Call)
    ensures !Resume(k).Reporting? && !Resume(k).Firing?
  {
    match k
    case OnConnect => case OnData(_, _, _, _, _) => case OnTimeout(_) => case OnClose(_) => case OnError(_) =>
  }

  /** Reports of closed connections, made or pending, are one for one the fatal results judged while open. */
  lemma {:induction false} DeadReportsAccounted(tr: seq<Step>)
    requires IsRun(tr)
    ensures Exec(tr).g.reports.dead + Sum(Exec(tr).ts, DeadReportsPending) == Times(tr, JudgesFatal)
  {
    hide Local, DeadReportsPending, JudgesFatal;
    if tr == [] {
      NothingDead();
    } else {
      var p := tr[..|tr| - 1];
      var s, e := Exec(p), tr[|tr| - 1];
      DeadReportsAccounted(p);
      match e
      case ThreadStep(t, a) =>
        DeadBalance(s, t, a);
        SumStep(s, t, a, DeadReportsPending);
      case EnvStep(_) =>
        EnvJudgesNothing(s, e);
    }
  }

  lemma NothingDead()
    ensures Sum(Init().ts, DeadReportsPending) == 0 && Sum(Init().ts, DeadTimeoutsPending) == 0
  {
    SumZero(Init().ts, DeadReportsPending);
    SumZero(Init().ts, DeadTimeoutsPending);
  }

  lemma EnvJudgesNothing(s: Sys, e: Step)
    requires e.EnvStep?
    ensures !JudgesFatal(s, e) && !JudgesTimeout(s, e) && !DropsTimeout(s, e)
  {}

  // ---------------------------------------------------------------- timeouts

  predicate DeadTimeout(k: Call) { k.OnTimeout? && k.dead }

  function DeadTimeouts(acc: seq<Task>): nat {
    if acc == [] then 0 else DeadTimeouts(acc[..|acc| - 1]) + if DeadTimeout(acc[|acc| - 1].call) then 1 else 0
  }

  lemma DeadTimeoutsAppend(acc: seq<Task>, task: Task)
    ensures DeadTimeouts(acc + [task]) == DeadTimeouts(acc) + if DeadTimeout(task.call) then 1 else 0
  {
    assert (acc + [task])[..|acc|] == acc;
  }

  function DeadTimeoutsPending(th: Thread): nat { if th.pc.Firing? && DeadTimeout(th.pc.call) then 1 else 0 }

  /** A timeout that finds no handler, or is given up with the VU context. */
  predicate DropsTimeout(s: Sys, e: Step) {
    e.ThreadStep? && e.t < |s.ts| && s.ts[e.t].pc.Firing? && DeadTimeout(s.ts[e.t].pc.call) &&
    if s.ts[e.t].pc.sending then e.a.GiveUp? else Timeout !in s.g.ev.handlers
  }

  lemma TimeoutRead(g: Globals, t: Tid, th: Thread, pc: ReadPc, a: Action)
    requires ReadStep(g, t, th, pc, a).Moved?
    ensures DeadTimeoutsPending(ReadStep(g, t, th, pc, a).th) ==
              if pc == Test(TimedOut, true) && g.core.st.Open? then 1 else 0
  {
    match pc
    case Head => case Snap => case ArmRead(_, _) => case CallRead(_) => case PushRead(_, _, _) =>
    case AddRead(_, _, _) => case CopyRead(_, _, _) => case Test(_, _) =>
  }

  lemma TimeoutFire(g: Globals, t: Tid, th: Thread, a: Action)
    requires th.pc.Firing? && Local(g, t, th, a).Moved?
    ensures var o := Local(g, t, th, a);
            DeadTimeouts(o.g.ev.accepted) + DeadTimeoutsPending(o.th) +
              (if DeadTimeout(th.pc.call) && (if th.pc.sending then a.GiveUp? else Timeout !in g.ev.handlers)
               then 1 else 0)
              == DeadTimeouts(g.ev.accepted) + DeadTimeoutsPending(th)
  {
    hide ConnectStep, ReadStep, DestroyStep, WriteStep, ScriptStep, TimeoutStep, ObserveStep, ReportStep, DeadTimeouts;
    DeadTimeoutsAppend(g.ev.accepted, Task(t, th.parent, th.pc.call));
    ResumesSilent(th.pc.call);
  }

  lemma TimeoutBalance(s: Sys, t: Tid, a: Action)
    requires t < |s.ts| && Enabled(s, ThreadStep(t, a))
    ensures var o := Local(s.g, t, s.ts[t], a);
            && DeadTimeouts(o.g.ev.accepted) + DeadTimeoutsPending(o.th) +
                 (if DropsTimeout(s, ThreadStep(t, a)) then 1 else 0) ==
               DeadTimeouts(s.g.ev.accepted) + DeadTimeoutsPending(s.ts[t]) +
                 (if JudgesTimeout(s, ThreadStep(t, a)) then 1 else 0)
            && (o.spawn.Some? ==> DeadTimeoutsPending(o.spawn.value) == 0)
  {
    hide ConnectStep, LookupStep, SendStep, ReadStep, DestroyStep, WriteStep, ScriptStep, TimeoutStep, ObserveStep,
      ReportStep, DeadTimeouts;
    var th := s.ts[t];
    Footprint.Of(s.g, t, th, a);
    if th.pc.Reading? { TimeoutRead(s.g, t, th, th.pc.r, a); }
    else if th.pc.Firing? { TimeoutFire(s.g, t, th, a); }
    else if th.pc.Script? { Footprint.ScriptEvents(s.g, th, a.op); }
  }

  /** Timeouts of closed connections, accepted, dropped or pending, are those judged while open. */
  lemma {:induction false} DeadTimeoutsAccounted(tr: seq<Step>)
    requires IsRun(tr)
    ensures DeadTimeouts(Exec(tr).g.ev.accepted) + Times(tr, DropsTimeout) + Sum(Exec(tr).ts, DeadTimeoutsPending) ==
              Times(tr, JudgesTimeout)
  {
    hide Local, DeadTimeoutsPending, JudgesTimeout, DropsTimeout, DeadTimeouts;
    if tr == [] {
      NothingDead();
      assert DeadTimeouts([]) == 0 by { NoTimeouts(); }
    } else {
      var p := tr[..|tr| - 1];
      var s, e := Exec(p), tr[|tr| - 1];
      DeadTimeoutsAccounted(p);
      match e
      case ThreadStep(t, a) =>
        TimeoutBalance(s, t, a);
        SumStep(s, t, a, DeadTimeoutsPending);
      case EnvStep(_) =>
        EnvJudgesNothing(s, e);
    }
  }

  lemma NoTimeouts()
    ensures DeadTimeouts([]) == 0
  {}

  // ---------------------------------------------------------------- the exact condition

  lemma {:induction false} TimesCountsSteps(tr: seq<Step>, p: (Sys, Step) -> bool)
    requires IsRun(tr)
    ensures Times(tr, p) > 0 <==> SomeStep(tr, p)
  {
    hide Enabled, Apply, SomeStep;
    if tr == [] {
      NoSteps();
    } else {
      TimesCountsSteps(tr[..|tr| - 1], p);
      SomeStepGrows(tr, p);
    }
  }

  /** Step `i` re-checks a result of a closed connection after a connect has reopened the socket. */
  ghost predicate JudgedReopened(tr: seq<Step>, i: nat, err: ReadErr)
    requires IsRun(tr)
  {
    && i < |tr| && Judges(At(tr, i), tr[i], err) && IsRun(tr[..i])
    && var last := LastSection(Lifecycle.Ops(tr[..i])); last.Some? && last.value.Connected?
  }

  lemma JudgingIsLocked(s: Sys, e: Step, err: ReadErr)
    requires Enabled(s, e) && Judges(s, e, err)
    ensures LockFree(s.g)
  {
    hide ConnectStep, LookupStep, SendStep, DestroyStep, WriteStep, ScriptStep, TimeoutStep, ObserveStep, ReportStep;
  }

  /** At a re-check the socket is open exactly when the last section before it was a successful connect. */
  lemma {:induction false} JudgedOpenIff(tr: seq<Step>, i: nat, err: ReadErr)
    requires IsRun(tr) && i < |tr| && Judges(At(tr, i), tr[i], err)
    ensures At(tr, i).g.core.st.Open? <==> JudgedReopened(tr, i, err)
  {
    hide Local, Judges, LastSection;
    StepAt(tr, i);
    JudgingIsLocked(At(tr, i), tr[i], err);
    PrefixIsRun(tr, i);
    Lifecycle.OpenIff(tr[..i]);
  }

  /**
   * A read on a closed connection is reported, or about to be, if and only if the run re-checks a fatal
   * result of one when the last lock section of a connect or a teardown was a successful connect.
   */
  lemma {:induction false} TeardownIsReportedIff(tr: seq<Step>)
    requires IsRun(tr)
    ensures Exec(tr).g.reports.dead + Sum(Exec(tr).ts, DeadReportsPending) > 0 <==>
            exists i: nat :: JudgedReopened(tr, i, Fatal)
  {
    hide Local, Exec, DeadReportsPending, Judges, LastSection;
    DeadReportsAccounted(tr);
    TimesCountsSteps(tr, JudgesFatal);
    if SomeStep(tr, JudgesFatal) {
      var i :| 0 <= i < |tr| && JudgesFatal(At(tr, i), tr[i]);
      JudgedOpenIff(tr, i, Fatal);
    }
    if i: nat :| JudgedReopened(tr, i, Fatal) {
      JudgedOpenIff(tr, i, Fatal);
      assert JudgesFatal(At(tr, i), tr[i]);
    }
  }

  /** Likewise for its timeouts, whether accepted, dropped or about to be sent. */
  lemma {:induction false} TeardownTimesOutIff(tr: seq<Step>)
    requires IsRun(tr)
    ensures DeadTimeouts(Exec(tr).g.ev.accepted) + Times(tr, DropsTimeout) + Sum(Exec(tr).ts, DeadTimeoutsPending) > 0
            <==> exists i: nat :: JudgedReopened(tr, i, TimedOut)
  {
    hide Local, Exec, DeadTimeoutsPending, DeadTimeouts, DropsTimeout, Judges, LastSection;
    DeadTimeoutsAccounted(tr);
    TimesCountsSteps(tr, JudgesTimeout);
    if SomeStep(tr, JudgesTimeout) {
      var i :| 0 <= i < |tr| && JudgesTimeout(At(tr, i), tr[i]);
      JudgedOpenIff(tr, i, TimedOut);
    }
    if i: nat :| JudgedReopened(tr, i, TimedOut) {
      JudgedOpenIff(tr, i, TimedOut);
      assert JudgesTimeout(At(tr, i), tr[i]);
    }
  }
}
