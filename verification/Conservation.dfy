/**
 * Every goroutine ends in exactly one sample or one failure.  While the VU context is live, each connect
 * started is still at work, counted in tcp_sockets or failed; each write started is still at work,
 * rejected for want of a connection or counted in tcp_writes; tcp_partial_writes counts exactly the
 * writers that ended after a non-empty strict prefix of their data.
 */
module Conservation {
  import opened SocketMachine
  import opened Totals
  import Footprint
  import Exclusion
  import Accounting

  /** How many steps of a run are of a kind. */
  ghost function Times(tr: seq<Step>, p: (Sys, Step) -> bool): nat
    requires IsRun(tr)
  {
    if tr == [] then 0
    else Times(tr[..|tr| - 1], p) + if p(Exec(tr[..|tr| - 1]), tr[|tr| - 1]) then 1 else 0
  }

  // ---------------------------------------------------------------- the failures that tcp_errors counts

  predicate FailsConnect(s: Sys, e: Step) {
    e.ThreadStep? && e.t < |s.ts| && s.ts[e.t].pc.Connecting? && s.ts[e.t].pc.c.Fail?
  }

  predicate FailsPrepare(s: Sys, e: Step) {
    e.ThreadStep? && e.t < |s.ts| && s.ts[e.t].pc.Script? && e.a.Invoke? && (e.a.op.DoBadConnect? || e.a.op.DoBadWrite?)
  }

  /** A read error that is neither EOF nor a timeout, judged while the socket is open. */
  predicate FailsRead(s: Sys, e: Step) {
    e.ThreadStep? && e.t < |s.ts| && s.ts[e.t].pc.Reading? && s.ts[e.t].pc.r.Test? && s.ts[e.t].pc.r.err.Fatal? &&
    s.g.core.st.Open?
  }

  lemma FailuresConnect(g: Globals, t: Tid, th: Thread, pc: ConnectPc, a: Action)
    requires ConnectStep(g, t, th, pc, a).Moved?
    ensures ConnectStep(g, t, th, pc, a).g.life.failedConnects == g.life.failedConnects + if pc.Fail? then 1 else 0
  {
    match pc
    case Begin(_) => case Resolve(_) => case Dial(_) => case Handshake(_) => case Publish(_) =>
    case Arm(_) => case Fail(_) => case Unlock(_) => case Spawn => case Count =>
  }

  lemma FailuresRead(g: Globals, t: Tid, th: Thread, pc: ReadPc, a: Action)
    requires ReadStep(g, t, th, pc, a).Moved?
    ensures ReadStep(g, t, th, pc, a).g.rx.fatal ==
              g.rx.fatal + if pc.Test? && pc.err.Fatal? && g.core.st.Open? then 1 else 0
  {
    match pc
    case Head => case Snap => case ArmRead(_, _) => case CallRead(_) => case PushRead(_, _, _) =>
    case AddRead(_, _, _) => case CopyRead(_, _, _) => case Test(_, _) =>
  }

  lemma FailuresScript(g: Globals, th: Thread, op: ScriptOp)
    requires ScriptStep(g, th, op).Moved?
    ensures ScriptStep(g, th, op).g.log.prepFails ==
              g.log.prepFails + if op.DoBadConnect? || op.DoBadWrite? then 1 else 0
  {
    match op
    case DoConnect(_) => case DoBadConnect => case DoWrite(_) => case DoBadWrite => case DoDestroy =>
    case DoSetTimeout(_) => case DoOn(_) => case DoReadyState => case DoRunTask => case DoEndTask =>
  }

  lemma FailuresStep(s: Sys, e: Step)
    requires Enabled(s, e)
    ensures var g := Apply(s, e).g;
            && g.life.failedConnects == s.g.life.failedConnects + (if FailsConnect(s, e) then 1 else 0)
            && g.log.prepFails == s.g.log.prepFails + (if FailsPrepare(s, e) then 1 else 0)
            && g.rx.fatal == s.g.rx.fatal + (if FailsRead(s, e) then 1 else 0)
  {
    hide ConnectStep, LookupStep, SendStep, ReadStep, DestroyStep, WriteStep, ScriptStep, TimeoutStep, ObserveStep,
      ReportStep;
    if e.ThreadStep? {
      var th := s.ts[e.t];
      Footprint.Of(s.g, e.t, th, e.a);
      if th.pc.Connecting? { FailuresConnect(s.g, e.t, th, th.pc.c, e.a); }
      else if th.pc.Reading? { FailuresRead(s.g, e.t, th, th.pc.r, e.a); }
      else if th.pc.Script? { FailuresScript(s.g, th, e.a.op); }
      else if th.pc.Destroying? || th.pc.SettingTimeout? || th.pc.Observing? {
        Accounting.FailuresKept(s.g, e.t, th, e.a); }
    }
  }

  /** The failures in the account of tcp_errors are exactly the failing steps of the run. */
  lemma {:induction false} FailuresAreSteps(tr: seq<Step>)
    requires IsRun(tr)
    ensures Accounting.Failures(Exec(tr).g) == Times(tr, FailsConnect) + Times(tr, FailsPrepare) + Times(tr, FailsRead)
    ensures Exec(tr).g.life.failedConnects == Times(tr, FailsConnect)
    ensures Exec(tr).g.log.prepFails == Times(tr, FailsPrepare)
    ensures Exec(tr).g.rx.fatal == Times(tr, FailsRead)
  {
    hide Local, FailsConnect, FailsPrepare, FailsRead;
    if tr != [] {
      FailuresAreSteps(tr[..|tr| - 1]);
      FailuresStep(Exec(tr[..|tr| - 1]), tr[|tr| - 1]);
    }
  }

  // ---------------------------------------------------------------- connects

  function IsConnect(th: Thread): nat { if th.role.ConnectRole? then 1 else 0 }

  /** A connect goroutine that has neither failed nor been counted. */
  function ConnectsAtWork(th: Thread): nat {
    if th.role.ConnectRole? && (th.pc.Connecting? || (th.pc.Firing? && th.pc.call.OnConnect?)) then 1 else 0
  }

  lemma ConnectMoves(g: Globals, t: Tid, th: Thread, pc: ConnectPc, a: Action)
    requires th.pc == Connecting(pc) && ConnectStep(g, t, th, pc, a).Moved? && !g.vuDone
    ensures var o := ConnectStep(g, t, th, pc, a);
            && o.g.life.sockets + o.g.life.failedConnects ==
                 g.life.sockets + g.life.failedConnects + (if pc.Fail? || pc.Count? then 1 else 0)
            && (pc.Fail? || pc.Count? <==> !o.th.pc.Connecting? && !o.th.pc.Firing?)
            && o.th.role == th.role
  {
    match pc
    case Begin(_) => case Resolve(_) => case Dial(_) => case Handshake(_) => case Publish(_) =>
    case Arm(_) => case Fail(_) => case Unlock(_) => case Spawn => case Count =>
  }

  lemma SocketsKept(g: Globals, t: Tid, th: Thread, a: Action)
    requires !th.pc.Connecting? && Local(g, t, th, a).Moved?
    ensures Local(g, t, th, a).g.life.sockets == g.life.sockets
    ensures Local(g, t, th, a).g.life.failedConnects == g.life.failedConnects
  {
    hide ConnectStep, LookupStep, SendStep, ReadStep, WriteStep, ScriptStep, ReportStep, ObserveStep;
    if th.pc.Destroying? {
      match th.pc.d
      case EnterOnce => case Swap => case CloseConn(_) => case PushDuration => case Cancel => case LeaveOnce =>
    } else if th.pc.SettingTimeout? {
      match th.pc.p case LockTimeout => case ArmTimeout(_) => case UnlockTimeout =>
    } else {
      Footprint.Of(g, t, th, a);
    }
  }

  lemma ConnectBalance(g: Globals, t: Tid, th: Thread, a: Action)
    requires Exclusion.L(g, t, th) && Local(g, t, th, a).Moved? && !g.vuDone
    ensures var o := Local(g, t, th, a);
            && o.g.life.sockets + o.g.life.failedConnects + ConnectsAtWork(o.th) ==
                 g.life.sockets + g.life.failedConnects + ConnectsAtWork(th)
            && IsConnect(o.th) == IsConnect(th)
            && (o.spawn.Some? ==> IsConnect(o.spawn.value) == ConnectsAtWork(o.spawn.value))
  {
    hide ConnectStep, LookupStep, SendStep, ReadStep, DestroyStep, WriteStep, ScriptStep, TimeoutStep, ObserveStep,
      ReportStep;
    Footprint.Of(g, t, th, a);
    if th.pc.Connecting? { ConnectMoves(g, t, th, th.pc.c, a); } else { SocketsKept(g, t, th, a); }
  }

  lemma NoneAtStart()
    ensures Sum(Init().ts, IsConnect) == 0 && Sum(Init().ts, ConnectsAtWork) == 0
    ensures Sum(Init().ts, IsWriter) == 0 && Sum(Init().ts, WritesAtWork) == 0 && Sum(Init().ts, EndedPartial) == 0
  {
    SumZero(Init().ts, IsConnect);
    SumZero(Init().ts, ConnectsAtWork);
    SumZero(Init().ts, IsWriter);
    SumZero(Init().ts, WritesAtWork);
    SumZero(Init().ts, EndedPartial);
  }

  /** Connects started = sockets counted + connects failed + connects at work. */
  lemma {:induction false} ConnectsAccounted(tr: seq<Step>)
    requires IsRun(tr) && !Exec(tr).g.vuDone
    ensures Sum(Exec(tr).ts, IsConnect) ==
              Exec(tr).g.life.sockets + Exec(tr).g.life.failedConnects + Sum(Exec(tr).ts, ConnectsAtWork)
  {
    hide Local, IsConnect, ConnectsAtWork;
    if tr == [] {
      NoneAtStart();
    } else {
      var p := tr[..|tr| - 1];
      var s, e := Exec(p), tr[|tr| - 1];
      match e
      case ThreadStep(t, a) =>
        Accounting.VuStays(s.g, t, s.ts[t], a);
        ConnectsAccounted(p);
        Exclusion.Always(p);
        assert Exclusion.L(s.g, t, s.ts[t]);
        ConnectBalance(s.g, t, s.ts[t], a);
        SumStep(s, t, a, IsConnect);
        SumStep(s, t, a, ConnectsAtWork);
      case EnvStep(_) =>
        ConnectsAccounted(p);
    }
  }

  // ---------------------------------------------------------------- writes

  function IsWriter(th: Thread): nat { if th.role.WriterRole? then 1 else 0 }

  function WritesAtWork(th: Thread): nat { if th.role.WriterRole? && th.pc.Writing? then 1 else 0 }

  /** A write that finds no connection. */
  predicate Rejects(s: Sys, e: Step) {
    e.ThreadStep? && e.t < |s.ts| && s.ts[e.t].pc.Writing? && s.ts[e.t].pc.w.SnapWrite? && s.g.core.conn.None?
  }

  /** A writer that ended after counting some of its data but not all. */
  function EndedPartial(th: Thread): nat {
    if th.role.WriterRole? && (th.pc.Finished? || (th.pc.Writing? && th.pc.w.CountWrite?)) &&
       0 < th.added < |th.role.data| then 1 else 0
  }

  lemma WriteMoves(g: Globals, t: Tid, th: Thread, w: WritePc, a: Action)
    requires th.role.WriterRole? && th.pc == Writing(w) && WriteStep(g, t, th, th.role.data, w, a).Moved? && !g.vuDone
    requires Totals.L(g, t, th)
    ensures var o := WriteStep(g, t, th, th.role.data, w, a);
            && o.g.tx.ops + WritesAtWork(o.th) + (if w.SnapWrite? && g.core.conn.None? then 1 else 0) ==
                 g.tx.ops + WritesAtWork(th)
            && o.g.tx.partials + EndedPartial(th) == g.tx.partials + EndedPartial(o.th)
            && o.th.role == th.role
  {
    match w
    case SnapWrite => case CallWrite(_, _) => case AddWrite(_, _, _) => case FailedWrite(_) => case CountWrite(_) =>
  }

  lemma WriteBalance(s: Sys, t: Tid, a: Action)
    requires Totals.Inv(s) && t < |s.ts| && Enabled(s, ThreadStep(t, a)) && !s.g.vuDone
    ensures var o := Local(s.g, t, s.ts[t], a);
            && o.g.tx.ops + WritesAtWork(o.th) + (if Rejects(s, ThreadStep(t, a)) then 1 else 0) ==
                 s.g.tx.ops + WritesAtWork(s.ts[t])
            && o.g.tx.partials + EndedPartial(s.ts[t]) == s.g.tx.partials + EndedPartial(o.th)
            && IsWriter(o.th) == IsWriter(s.ts[t])
            && (o.spawn.Some? ==>
                 IsWriter(o.spawn.value) == WritesAtWork(o.spawn.value) && EndedPartial(o.spawn.value) == 0)
  {
    hide ConnectStep, LookupStep, SendStep, ReadStep, DestroyStep, WriteStep, ScriptStep, TimeoutStep, ObserveStep,
      ReportStep, Totals.L, Exclusion.L;
    var th := s.ts[t];
    assert Exclusion.L(s.g, t, th) && Totals.L(s.g, t, th);
    Footprint.Of(s.g, t, th, a);
    WriterCode(s.g, t, th);
    if th.pc.Writing? { WriteMoves(s.g, t, th, th.pc.w, a); }
  }

  /**
   * Writes started = writes counted + writes rejected + writes at work; and tcp_partial_writes is the
   * number of writers that ended part-way.
   */
  lemma {:induction false} WritesAccounted(tr: seq<Step>)
    requires IsRun(tr) && !Exec(tr).g.vuDone
    ensures Sum(Exec(tr).ts, IsWriter) == Exec(tr).g.tx.ops + Times(tr, Rejects) + Sum(Exec(tr).ts, WritesAtWork)
    ensures Exec(tr).g.tx.partials == Sum(Exec(tr).ts, EndedPartial)
  {
    hide Local, IsWriter, WritesAtWork, EndedPartial, Rejects;
    if tr == [] {
      NoneAtStart();
    } else {
      var p := tr[..|tr| - 1];
      var s, e := Exec(p), tr[|tr| - 1];
      match e
      case ThreadStep(t, a) =>
        Accounting.VuStays(s.g, t, s.ts[t], a);
        WritesAccounted(p);
        Totals.Always(p);
        WriteBalance(s, t, a);
        SumStep(s, t, a, IsWriter);
        SumStep(s, t, a, WritesAtWork);
        SumStep(s, t, a, EndedPartial);
      case EnvStep(_) =>
        WritesAccounted(p);
        EnvRejectsNothing(s, e);
    }
  }

  lemma EnvRejectsNothing(s: Sys, e: Step)
    requires e.EnvStep?
    ensures !Rejects(s, e)
  {}

  // ---------------------------------------------------------------- tcp_socket_duration

  /** Teardown finds a connection to take. */
  predicate TakesConnection(s: Sys, e: Step) {
    e.ThreadStep? && e.t < |s.ts| && s.ts[e.t].pc.Destroying? && s.ts[e.t].pc.d.Swap? && s.g.core.conn.Some?
  }

  /** Holding a connection whose duration is still to be pushed. */
  function ClosesAtWork(th: Thread): nat {
    if th.pc.Destroying? && (th.pc.d.CloseConn? || th.pc.d.PushDuration?) then 1 else 0
  }

  lemma DurationMoves(g: Globals, t: Tid, th: Thread, a: Action)
    requires th.pc.Destroying? && DestroyStep(g, t, th, th.pc.ret, th.pc.d, a).Moved? && !g.vuDone
    ensures var o := DestroyStep(g, t, th, th.pc.ret, th.pc.d, a);
            o.g.durations + ClosesAtWork(o.th) ==
              g.durations + ClosesAtWork(th) + if th.pc.d.Swap? && g.core.conn.Some? then 1 else 0
  {
    match th.pc.d
    case EnterOnce => case Swap => case CloseConn(_) => case PushDuration => case Cancel => case LeaveOnce =>
  }

  lemma DurationBalance(s: Sys, t: Tid, a: Action)
    requires t < |s.ts| && Enabled(s, ThreadStep(t, a)) && !s.g.vuDone
    ensures var o := Local(s.g, t, s.ts[t], a);
            && o.g.durations + ClosesAtWork(o.th) ==
                 s.g.durations + ClosesAtWork(s.ts[t]) + (if TakesConnection(s, ThreadStep(t, a)) then 1 else 0)
            && (o.spawn.Some? ==> ClosesAtWork(o.spawn.value) == 0)
  {
    hide ConnectStep, LookupStep, SendStep, ReadStep, DestroyStep, WriteStep, ScriptStep, TimeoutStep, ObserveStep,
      ReportStep;
    var th := s.ts[t];
    Footprint.Of(s.g, t, th, a);
    if th.pc.Destroying? { DurationMoves(s.g, t, th, a); }
    else if th.pc.Firing? {
      match th.pc.call
      case OnConnect => case OnData(_, _, _, _, _) => case OnTimeout(_) => case OnClose(_) => case OnError(_) =>
    }
  }

  /** Every connection teardown takes yields exactly one tcp_socket_duration sample, and nothing else does. */
  lemma {:induction false} DurationsAccounted(tr: seq<Step>)
    requires IsRun(tr) && !Exec(tr).g.vuDone
    ensures Exec(tr).g.durations + Sum(Exec(tr).ts, ClosesAtWork) == Times(tr, TakesConnection)
  {
    hide Local, ClosesAtWork, TakesConnection;
    if tr == [] {
      NothingClosing();
    } else {
      var p := tr[..|tr| - 1];
      var s, e := Exec(p), tr[|tr| - 1];
      match e
      case ThreadStep(t, a) =>
        Accounting.VuStays(s.g, t, s.ts[t], a);
        DurationsAccounted(p);
        DurationBalance(s, t, a);
        SumStep(s, t, a, ClosesAtWork);
      case EnvStep(_) =>
        DurationsAccounted(p);
        EnvTakesNothing(s, e);
    }
  }

  lemma NothingClosing()
    ensures Sum(Init().ts, ClosesAtWork) == 0
  {
    SumZero(Init().ts, ClosesAtWork);
  }

  lemma EnvTakesNothing(s: Sys, e: Step)
    requires e.EnvStep?
    ensures !TakesConnection(s, e)
  {}
}
