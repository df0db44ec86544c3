/**
 * What the metrics add up to while the VU context is live: tcp_errors is failed connects plus failed
 * preparations plus fatal reads, accepted error events never exceed it, totalRead lies between tcp_reads
 * and 4096 times tcp_reads, and there is at most one tcp_socket_duration sample.
 */
module Accounting {
  import opened Basics
  import opened SocketMachine
  import opened Totals
  import Footprint
  import Exclusion
  import Streams

  // ---------------------------------------------------------------- tcp_errors

  /** About to push a tcp_errors sample. */
  function ReportsPending(th: Thread): nat { if th.pc.Reporting? then 1 else 0 }

  /** Firing an error event whose sample is already pushed. */
  function FiringError(th: Thread): nat { if th.pc.Firing? && th.pc.call.OnError? then 1 else 0 }

  /** Failures that must be reported: connects, preparations, reads that failed while open. */
  function Failures(g: Globals): nat { g.life.failedConnects + g.log.prepFails + g.rx.fatal }

  function Errors(acc: seq<Task>): nat {
    if acc == [] then 0 else Errors(acc[..|acc| - 1]) + if acc[|acc| - 1].call.OnError? then 1 else 0
  }

  lemma ErrorsAppend(acc: seq<Task>, task: Task)
    ensures Errors(acc + [task]) == Errors(acc) + if task.call.OnError? then 1 else 0
  {
    assert (acc + [task])[..|acc|] == acc;
  }

  ghost predicate Balanced(g: Globals, th: Thread, h: Globals, th': Thread) {
    && (!g.vuDone ==>
          h.reports.errors + ReportsPending(th') + Failures(g) == g.reports.errors + ReportsPending(th) + Failures(h))
    && (!g.vuDone ==>
          h.reports.errors + Errors(g.ev.accepted) + FiringError(th) >=
          g.reports.errors + Errors(h.ev.accepted) + FiringError(th'))
  }

  lemma BalancedConnect(g: Globals, t: Tid, th: Thread, pc: ConnectPc, a: Action)
    requires ConnectStep(g, t, th, pc, a).Moved? && th.pc == Connecting(pc)
    ensures Balanced(g, th, ConnectStep(g, t, th, pc, a).g, ConnectStep(g, t, th, pc, a).th)
  {
    match pc
    case Begin(_) => case Resolve(_) => case Dial(_) => case Handshake(_) => case Publish(_) =>
    case Arm(_) => case Fail(_) => case Unlock(_) => case Spawn => case Count =>
  }

  lemma BalancedRead(g: Globals, t: Tid, th: Thread, pc: ReadPc, a: Action)
    requires ReadStep(g, t, th, pc, a).Moved? && th.pc == Reading(pc)
    ensures Balanced(g, th, ReadStep(g, t, th, pc, a).g, ReadStep(g, t, th, pc, a).th)
  {
    match pc
    case Head => case Snap => case ArmRead(_, _) => case CallRead(_) => case PushRead(_, _, _) =>
    case AddRead(_, _, _) => case CopyRead(_, _, _) => case Test(_, _) =>
  }

  lemma BalancedScript(g: Globals, th: Thread, op: ScriptOp)
    requires ScriptStep(g, th, op).Moved? && th.pc == Script
    ensures Balanced(g, th, ScriptStep(g, th, op).g, ScriptStep(g, th, op).th)
  {
    match op
    case DoConnect(_) => case DoBadConnect => case DoWrite(_) => case DoBadWrite => case DoDestroy =>
    case DoSetTimeout(_) => case DoOn(_) => case DoReadyState => case DoRunTask => case DoEndTask =>
  }

  lemma BalancedFire(g: Globals, t: Tid, th: Thread, a: Action)
    requires Local(g, t, th, a).Moved? && (th.pc.Firing? || th.pc.Reporting?)
    ensures Balanced(g, th, Local(g, t, th, a).g, Local(g, t, th, a).th)
  {
    hide ConnectStep, ReadStep, DestroyStep, WriteStep, ScriptStep, TimeoutStep, ObserveStep, Errors;
    if th.pc.Firing? {
      ErrorsAppend(g.ev.accepted, Task(t, th.parent, th.pc.call));
      match th.pc.call
      case OnConnect => case OnData(_, _, _, _, _) => case OnTimeout(_) => case OnClose(_) => case OnError(_) =>
    }
  }

  lemma FailuresKept(g: Globals, t: Tid, th: Thread, a: Action)
    requires Local(g, t, th, a).Moved? && (th.pc.Destroying? || th.pc.SettingTimeout? || th.pc.Observing?)
    ensures Local(g, t, th, a).g.life.failedConnects == g.life.failedConnects
    ensures Local(g, t, th, a).g.log.prepFails == g.log.prepFails
  {
    hide ConnectStep, LookupStep, SendStep, ReadStep, WriteStep, ScriptStep, ReportStep;
  }

  lemma BalancedStep(g: Globals, t: Tid, th: Thread, a: Action)
    requires Local(g, t, th, a).Moved?
    ensures Balanced(g, th, Local(g, t, th, a).g, Local(g, t, th, a).th)
  {
    hide ConnectStep, LookupStep, SendStep, ReadStep, DestroyStep, WriteStep, ScriptStep, TimeoutStep, ObserveStep,
      ReportStep;
    if th.pc.Connecting? { BalancedConnect(g, t, th, th.pc.c, a); }
    else if th.pc.Reading? { BalancedRead(g, t, th, th.pc.r, a); }
    else if th.pc.Script? { BalancedScript(g, th, a.op); }
    else if th.pc.Firing? || th.pc.Reporting? { BalancedFire(g, t, th, a); }
    else {
      Footprint.Of(g, t, th, a);
      if !th.pc.Writing? { FailuresKept(g, t, th, a); }
    }
  }

  /**
   * While the VU context is live, tcp_errors plus the reports still under way is the number of failures,
   * and the error events accepted so far never exceed tcp_errors.
   */
  lemma {:induction false} ErrorsAccounted(tr: seq<Step>)
    requires IsRun(tr) && !Exec(tr).g.vuDone
    ensures Exec(tr).g.reports.errors + Sum(Exec(tr).ts, ReportsPending) == Failures(Exec(tr).g)
    ensures Errors(Exec(tr).g.ev.accepted) + Sum(Exec(tr).ts, FiringError) <= Exec(tr).g.reports.errors
  {
    hide Local, ReportsPending, FiringError;
    if tr == [] {
      NoErrors();
    } else {
      var s, e := Exec(tr[..|tr| - 1]), tr[|tr| - 1];
      match e
      case ThreadStep(t, a) =>
        VuStays(s.g, t, s.ts[t], a);
        ErrorsAccounted(tr[..|tr| - 1]);
        BalancedStep(s.g, t, s.ts[t], a);
        if Local(s.g, t, s.ts[t], a).spawn.Some? { StartsSilent(s.g, t, s.ts[t], a); }
        SumStep(s, t, a, ReportsPending);
        SumStep(s, t, a, FiringError);
      case EnvStep(_) =>
        ErrorsAccounted(tr[..|tr| - 1]);
    }
  }

  lemma NoErrors()
    ensures Sum(Init().ts, ReportsPending) == 0 && Sum(Init().ts, FiringError) == 0
  {
    SumZero(Init().ts, ReportsPending);
    SumZero(Init().ts, FiringError);
  }

  lemma StartsSilent(g: Globals, t: Tid, th: Thread, a: Action)
    requires Local(g, t, th, a).Moved? && Local(g, t, th, a).spawn.Some?
    ensures ReportsPending(Local(g, t, th, a).spawn.value) == 0 && FiringError(Local(g, t, th, a).spawn.value) == 0
  {
    hide Local;
    Footprint.Of(g, t, th, a);
  }

  // ---------------------------------------------------------------- tcp_reads and totalRead

  function Chunks(th: Thread): nat { if th.role.ReaderRole? then |th.chunks| else 0 }

  function AtPush(th: Thread): nat { if th.role.ReaderRole? && th.pc.Reading? && th.pc.r.PushRead? then 1 else 0 }

  lemma ReadsMove(g: Globals, t: Tid, th: Thread, pc: ReadPc, a: Action)
    requires ReadStep(g, t, th, pc, a).Moved? && th.pc == Reading(pc) && th.role.ReaderRole? && !g.vuDone
    ensures ReadStep(g, t, th, pc, a).g.rx.ops + AtPush(ReadStep(g, t, th, pc, a).th) + Chunks(th) ==
              g.rx.ops + AtPush(th) + Chunks(ReadStep(g, t, th, pc, a).th)
  {
    match pc
    case Head => case Snap => case ArmRead(_, _) => case CallRead(_) => case PushRead(_, _, _) =>
    case AddRead(_, _, _) => case CopyRead(_, _, _) => case Test(_, _) =>
  }

  lemma ChunksMove(g: Globals, t: Tid, th: Thread, a: Action)
    requires Local(g, t, th, a).Moved? && Exclusion.RolePc(th.role, th.pc) && !g.vuDone
    ensures var o := Local(g, t, th, a);
            && o.g.rx.ops + AtPush(o.th) + Chunks(th) == g.rx.ops + AtPush(th) + Chunks(o.th)
            && (o.spawn.Some? ==> AtPush(o.spawn.value) == 0 && Chunks(o.spawn.value) == 0)
  {
    hide ConnectStep, LookupStep, SendStep, ReadStep, DestroyStep, WriteStep, ScriptStep, TimeoutStep, ObserveStep,
      ReportStep;
    Footprint.Of(g, t, th, a);
    if th.pc.Reading? { ReadsMove(g, t, th, th.pc.r, a); }
    else if th.pc.Firing? {
      match th.pc.call
      case OnConnect => case OnData(_, _, _, _, _) => case OnTimeout(_) => case OnClose(_) => case OnError(_) =>
    }
  }

  /** tcp_reads plus the reads not yet counted is the number of chunks read. */
  lemma {:induction false} ReadsAreChunks(tr: seq<Step>)
    requires IsRun(tr) && !Exec(tr).g.vuDone
    ensures Exec(tr).g.rx.ops + Sum(Exec(tr).ts, AtPush) == Sum(Exec(tr).ts, Chunks)
  {
    hide Local, AtPush, Chunks, Exclusion.RolePc;
    if tr == [] {
      NoChunks();
    } else {
      var s, e := Exec(tr[..|tr| - 1]), tr[|tr| - 1];
      match e
      case ThreadStep(t, a) =>
        VuStays(s.g, t, s.ts[t], a);
        ReadsAreChunks(tr[..|tr| - 1]);
        Exclusion.Always(tr[..|tr| - 1]);
        assert Exclusion.L(s.g, t, s.ts[t]);
        ChunksMove(s.g, t, s.ts[t], a);
        SumStep(s, t, a, AtPush);
        SumStep(s, t, a, Chunks);
      case EnvStep(_) =>
        ReadsAreChunks(tr[..|tr| - 1]);
    }
  }

  lemma NoChunks()
    ensures Sum(Init().ts, AtPush) == 0 && Sum(Init().ts, Chunks) == 0
  {
    SumZero(Init().ts, AtPush);
    SumZero(Init().ts, Chunks);
  }

  lemma VuStays(g: Globals, t: Tid, th: Thread, a: Action)
    requires Local(g, t, th, a).Moved?
    ensures Local(g, t, th, a).g.vuDone == g.vuDone
  {
    hide Local;
    Footprint.Of(g, t, th, a);
  }

  lemma {:induction false} SumLe(ts: seq<Thread>, f: Thread -> nat, k: nat, h: Thread -> nat)
    requires forall t :: 0 <= t < |ts| ==> f(ts[t]) <= k * h(ts[t])
    ensures Sum(ts, f) <= k * Sum(ts, h)
  {
    if ts != [] { SumLe(ts[..|ts| - 1], f, k, h); }
  }

  lemma {:induction false} ChunkSizes(chunks: seq<seq<byte>>)
    requires forall i :: 0 <= i < |chunks| ==> 0 < |chunks[i]| <= READ_BUFFER_SIZE
    ensures |chunks| <= Streams.Bytes(chunks) <= READ_BUFFER_SIZE * |chunks|
  {
    if chunks != [] { ChunkSizes(chunks[..|chunks| - 1]); }
  }

  /** With no read step under way and a live VU: tcp_reads <= totalRead <= 4096 * tcp_reads. */
  lemma {:induction false} ReadsBoundTotal(tr: seq<Step>)
    requires IsRun(tr) && !Exec(tr).g.vuDone
    requires forall t :: 0 <= t < |Exec(tr).ts| ==> Streams.Uncounted(Exec(tr).ts[t].pc) == 0
    ensures Exec(tr).g.rx.ops <= Exec(tr).g.rx.total <= READ_BUFFER_SIZE * Exec(tr).g.rx.ops
  {
    hide Local;
    var s := Exec(tr);
    Streams.Always(tr);
    ReadsAreChunks(tr);
    CountersAreSums(tr);
    forall t | 0 <= t < |s.ts|
      ensures Chunks(s.ts[t]) <= 1 * ReadShare(s.ts[t]) && ReadShare(s.ts[t]) <= READ_BUFFER_SIZE * Chunks(s.ts[t])
      ensures AtPush(s.ts[t]) == 0
    {
      assert Streams.L(s.g, t, s.ts[t]);
      if s.ts[t].role.ReaderRole? { ChunkSizes(s.ts[t].chunks); }
      PushIsUncounted(s.g, t, s.ts[t]);
    }
    SumZero(s.ts, AtPush);
    SumLe(s.ts, Chunks, 1, ReadShare);
    SumLe(s.ts, ReadShare, READ_BUFFER_SIZE, Chunks);
  }

  lemma PushIsUncounted(g: Globals, t: Tid, th: Thread)
    requires Streams.L(g, t, th) && Streams.Uncounted(th.pc) == 0
    ensures AtPush(th) == 0
  {}

  // ---------------------------------------------------------------- tcp_socket_duration

  ghost predicate Durations(g: Globals) {
    && g.durations <= 1
    && (g.once.Fresh? ==> g.durations == 0)
    && (g.durations > 0 ==> g.core.connected)
    && (g.core.conn.Some? ==> g.core.connected)
  }

  predicate BeforeDuration(pc: Pc) { pc.Destroying? && (pc.d.Swap? || pc.d.CloseConn? || pc.d.PushDuration?) }

  ghost predicate L(g: Globals, th: Thread) {
    && (BeforeDuration(th.pc) ==> g.durations == 0)
    && (th.pc.Destroying? && (th.pc.d.CloseConn? || th.pc.d.PushDuration?) ==> g.core.connected)
  }

  ghost predicate Inv(s: Sys) {
    Exclusion.Inv(s) && Durations(s.g) && forall t :: 0 <= t < |s.ts| ==> L(s.g, s.ts[t])
  }

  ghost predicate Frame(g: Globals, h: Globals, t: Tid) {
    (h.durations == g.durations || g.once == Running(t)) && (g.core.connected ==> h.core.connected)
  }

  lemma OwnDestroy(g: Globals, n: nat, t: Tid, th: Thread, a: Action)
    requires Exclusion.Pre(g, n, t, th) && Durations(g) && L(g, th) && th.pc.Destroying?
    requires DestroyStep(g, t, th, th.pc.ret, th.pc.d, a).Moved?
    ensures var o := DestroyStep(g, t, th, th.pc.ret, th.pc.d, a); Durations(o.g) && L(o.g, o.th) && Frame(g, o.g, t)
  {
    match th.pc.d
    case EnterOnce => case Swap => case CloseConn(_) => case PushDuration => case Cancel => case LeaveOnce =>
  }

  lemma ConnectedStays(g: Globals, t: Tid, th: Thread, a: Action)
    requires Local(g, t, th, a).Moved? && !th.pc.Destroying? && (g.core.conn.Some? ==> g.core.connected)
    ensures var h := Local(g, t, th, a).g;
            (g.core.connected ==> h.core.connected) && (h.core.conn.Some? ==> h.core.connected)
  {
    hide LookupStep, SendStep, ReadStep, DestroyStep, WriteStep, ScriptStep, ObserveStep, ReportStep;
    if th.pc.Connecting? {
      match th.pc.c
      case Begin(_) => case Resolve(_) => case Dial(_) => case Handshake(_) => case Publish(_) =>
      case Arm(_) => case Fail(_) => case Unlock(_) => case Spawn => case Count =>
    } else if !th.pc.SettingTimeout? { Footprint.Of(g, t, th, a); }
  }

  lemma Preserved(s: Sys, e: Step)
    requires Inv(s) && Enabled(s, e)
    ensures Inv(Apply(s, e))
  {
    hide ConnectStep, LookupStep, SendStep, ReadStep, DestroyStep, WriteStep, ScriptStep, TimeoutStep, ObserveStep,
      ReportStep;
    var s' := Apply(s, e);
    Exclusion.Preserved(s, e);
    match e
    case ThreadStep(t, a) =>
      var th := s.ts[t];
      assert Exclusion.L(s.g, t, th) && L(s.g, th);
      Footprint.Of(s.g, t, th, a);
      if th.pc.Destroying? { OwnDestroy(s.g, |s.ts|, t, th, a); } else { ConnectedStays(s.g, t, th, a); }
      forall u | 0 <= u < |s'.ts| ensures L(s'.g, s'.ts[u]) {
        if u < |s.ts| && u != t { assert Exclusion.L(s.g, u, s.ts[u]) && L(s.g, s.ts[u]); }
        if u == t && th.pc.Firing? {
          match th.pc.call
          case OnConnect => case OnData(_, _, _, _, _) => case OnTimeout(_) => case OnClose(_) => case OnError(_) =>
        }
      }
    case EnvStep(_) =>
      forall u | 0 <= u < |s'.ts| ensures L(s'.g, s'.ts[u]) { assert L(s.g, s.ts[u]); }
  }

  lemma {:induction false} Always(tr: seq<Step>)
    requires IsRun(tr)
    ensures Inv(Exec(tr))
  {
    hide Local;
    if tr == [] {
      Exclusion.Always(tr);
    } else {
      Always(tr[..|tr| - 1]);
      Preserved(Exec(tr[..|tr| - 1]), tr[|tr| - 1]);
    }
  }

  /** At most one tcp_socket_duration sample, and only after a connection was once established. */
  lemma {:induction false} OneDuration(tr: seq<Step>)
    requires IsRun(tr)
    ensures Exec(tr).g.durations <= 1
    ensures Exec(tr).g.durations > 0 ==> Exec(tr).g.core.connected
  {
    hide Local;
    Always(tr);
  }
}
