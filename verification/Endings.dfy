/**
 * Every goroutine can come to its end.  Once the VU context is done, from every reachable state some
 * continuation of the run finishes every connect, reader, writer and teardown and gives the script back
 * its own thread: nothing in the code can make any of them wait for good.
 */
module Endings {
  import opened SocketMachine
  import opened Totals
  import Exclusion
  import Accounting
  import Waiting

  /** A thread with nothing left to do. */
  predicate AtRest(pc: Pc) { pc.Finished? || pc.Script? }

  /** How many of its own steps, and those of a reader it still has to start, a thread needs at most. */
  function Left(pc: Pc): (n: nat)
    ensures n == 0 <==> AtRest(pc)
  {
    match pc
    case Finished => 0
    case Script => 0
    case Connecting(c) => LeftConnect(c)
    case Reporting(kind) => LeftError(kind) + 2
    case Firing(k, sending) => LeftCall(k) + if sending then 0 else 1
    case Reading(r) => LeftRead(r)
    case Destroying(_, d) => LeftDestroy(d)
    case SettingTimeout(_, p) => if p.LockTimeout? then 3 else if p.ArmTimeout? then 2 else 1
    case Observing => 1
    case Writing(w) => (match w
      case SnapWrite => 4 case CallWrite(_, _) => 3 case AddWrite(_, _, _) => 4 case FailedWrite(_) => 2
      case CountWrite(_) => 1)
  }

  function LeftConnect(c: ConnectPc): (n: nat)
    ensures n > 0
  {
    match c
    case Begin(_) => 6
    case Resolve(_) => 5
    case Dial(_) => 5
    case Handshake(_) => 5
    case Publish(_) => 20
    case Arm(_) => 19
    case Fail(_) => 4
    case Unlock(_) => 18
    case Spawn => 15
    case Count => 1
  }

  function LeftDestroy(d: DestroyPc): (n: nat)
    ensures n > 0
  {
    match d
    case EnterOnce => 8
    case Swap => 7
    case CloseConn(_) => 6
    case PushDuration => 5
    case Cancel => 2
    case LeaveOnce => 1
  }

  function LeftTest(err: ReadErr): (n: nat)
    ensures n > 0
  {
    match err
    case Eof => 9
    case Fatal => 12
    case NoErr => 14
    case TimedOut => 16
  }

  function LeftRead(r: ReadPc): (n: nat)
    ensures n > 0
  {
    match r
    case Head => 13
    case Snap => 12
    case ArmRead(_, _) => 11
    case CallRead(_) => 10
    case PushRead(_, err, _) => LeftTest(err) + 5
    case AddRead(_, err, _) => LeftTest(err) + 4
    case CopyRead(_, err, _) => LeftTest(err) + 3
    case Test(err, _) => LeftTest(err)
  }

  function LeftError(kind: ErrKind): (n: nat)
    ensures n > 0
  {
    if kind.FromRead? then 9 else 1
  }

  /** From the moment the call is being sent. */
  function LeftCall(k: Call): (n: nat)
    ensures n > 0
  {
    match k
    case OnConnect => 16
    case OnData(_, _, _, err, _) => LeftTest(err) + 1
    case OnTimeout(_) => 14
    case OnClose(_) => 3
    case OnError(kind) => LeftError(kind)
  }

  // ---------------------------------------------------------------- every free thread can come closer to its end

  /** What the environment may answer to bring a thread to its end. */
  function Answer(g: Globals, th: Thread): Action {
    match th.pc
    case Connecting(c) =>
      if c.Resolve? || c.Dial? || c.Handshake? then Returned(false)
      else if c.Arm? && g.core.timeout > 0 then Returned(true)
      else Tau
    case Reading(r) =>
      if r.ArmRead? && r.to > 0 then Returned(true)
      else if r.CallRead? then ReadReturned([], Eof)
      else if r.CopyRead? then GotBuffer(|g.mem.bufs|)
      else Tau
    case SettingTimeout(_, p) => if p.ArmTimeout? then Returned(true) else Tau
    case Writing(w) =>
      if th.role.WriterRole? && w.CallWrite? && w.done < |th.role.data| then WriteReturned(0, false) else Tau
    case Firing(_, sending) => if sending then GiveUp else Tau
    case _ => Tau
  }

  /** The step is enabled and brings its thread, with the reader it may start, closer to the end. */
  ghost predicate Closer(th: Thread, o: Outcome) {
    o.Moved? && Left(o.th.pc) + (if o.spawn.Some? then Left(o.spawn.value.pc) else 0) < Left(th.pc)
  }

  ghost predicate Pre(g: Globals, t: Tid, th: Thread) { Waiting.Pre(g, t, th) && g.vuDone && !AtRest(th.pc) }

  lemma EndConnect(g: Globals, t: Tid, th: Thread)
    requires Pre(g, t, th) && th.pc.Connecting?
    ensures Closer(th, ConnectStep(g, t, th, th.pc.c, Answer(g, th)))
  {
    match th.pc.c
    case Begin(_) => case Resolve(_) => case Dial(_) => case Handshake(_) => case Publish(_) =>
    case Arm(_) => case Fail(_) => case Unlock(_) => case Spawn => case Count =>
  }

  lemma EndRead(g: Globals, t: Tid, th: Thread)
    requires Pre(g, t, th) && th.pc.Reading?
    ensures Closer(th, ReadStep(g, t, th, th.pc.r, Answer(g, th)))
  {
    match th.pc.r
    case Head => case Snap => case ArmRead(_, _) => case CallRead(_) => case PushRead(_, _, _) =>
    case AddRead(_, _, _) => case CopyRead(_, _, _) => case Test(_, _) =>
  }

  lemma EndDestroy(g: Globals, t: Tid, th: Thread)
    requires Pre(g, t, th) && th.pc.Destroying?
    ensures Closer(th, DestroyStep(g, t, th, th.pc.ret, th.pc.d, Answer(g, th)))
  {
    match th.pc.d
    case EnterOnce => case Swap => case CloseConn(_) => case PushDuration => case Cancel => case LeaveOnce =>
  }

  lemma EndFire(g: Globals, t: Tid, th: Thread)
    requires Pre(g, t, th) && th.pc.Firing?
    ensures Closer(th, Local(g, t, th, Answer(g, th)))
  {
    hide ConnectStep, ReadStep, DestroyStep, WriteStep, ScriptStep, TimeoutStep, ObserveStep, ReportStep;
    match th.pc.call
    case OnConnect => case OnData(_, _, _, _, _) => case OnTimeout(_) => case OnClose(_) =>
    case OnError(kind) => match kind case FromConnect => case FromPrepare => case FromRead(_) =>
  }

  lemma EndOther(g: Globals, t: Tid, th: Thread)
    requires Pre(g, t, th) && !th.pc.Connecting? && !th.pc.Reading? && !th.pc.Destroying? && !th.pc.Firing?
    ensures Closer(th, Local(g, t, th, Answer(g, th)))
  {
    hide ConnectStep, LookupStep, SendStep, ReadStep, DestroyStep, ScriptStep;
    if th.pc.Writing? {
      match th.pc.w
      case SnapWrite => case CallWrite(_, _) => case AddWrite(_, _, _) => case FailedWrite(_) => case CountWrite(_) =>
    }
  }

  lemma ComesCloser(g: Globals, t: Tid, th: Thread)
    requires Pre(g, t, th)
    ensures Closer(th, Local(g, t, th, Answer(g, th)))
  {
    hide ConnectStep, LookupStep, SendStep, ReadStep, DestroyStep, WriteStep, ScriptStep, TimeoutStep, ObserveStep,
      ReportStep, Answer, Pre, Closer;
    if th.pc.Connecting? { EndConnect(g, t, th); }
    else if th.pc.Reading? { EndRead(g, t, th); }
    else if th.pc.Destroying? { EndDestroy(g, t, th); }
    else if th.pc.Firing? { EndFire(g, t, th); }
    else { EndOther(g, t, th); }
  }

  // ---------------------------------------------------------------- some thread is free

  /** Nobody waits for a thread at rest. */
  lemma {:induction false} WaitedForIsBusy(tr: seq<Step>, t: Tid, u: Tid)
    requires IsRun(tr) && Waiting.WaitsFor(Exec(tr), t, u)
    ensures u < |Exec(tr).ts| && !AtRest(Exec(tr).ts[u].pc)
  {
    hide Local;
    Exclusion.Always(tr);
    assert Exclusion.L(Exec(tr).g, u, Exec(tr).ts[u]);
  }

  lemma {:induction false} FreeThread(tr: seq<Step>, t: Tid) returns (u: Tid)
    requires IsRun(tr) && Exec(tr).g.vuDone && t < |Exec(tr).ts| && !AtRest(Exec(tr).ts[t].pc)
    ensures u < |Exec(tr).ts| && Pre(Exec(tr).g, u, Exec(tr).ts[u])
    decreases Waiting.Rank(Exec(tr).ts[t].pc)
  {
    hide Local, Exec, Waiting.WaitsFor, Waiting.Rank, Waiting.Pre;
    if forall v :: !Waiting.WaitsFor(Exec(tr), t, v) {
      u := t;
      Waiting.FreeMeansReady(tr, t);
    } else {
      var v :| Waiting.WaitsFor(Exec(tr), t, v);
      Waiting.WaitingGoesDown(tr, t, v);
      WaitedForIsBusy(tr, t, v);
      u := FreeThread(tr, v);
    }
  }

  // ---------------------------------------------------------------- all come to their end

  function LeftOf(th: Thread): nat { Left(th.pc) }

  /** Everything but the script has finished, and the script is its own master again. */
  ghost predicate AllAtRest(s: Sys) {
    |s.ts| > 0 && s.ts[0].pc.Script? && forall t :: 0 < t < |s.ts| ==> s.ts[t].pc.Finished?
  }

  lemma {:induction false} RestIsEnd(tr: seq<Step>)
    requires IsRun(tr) && forall t :: 0 <= t < |Exec(tr).ts| ==> AtRest(Exec(tr).ts[t].pc)
    ensures AllAtRest(Exec(tr))
  {
    hide Local;
    Exclusion.Always(tr);
    var s := Exec(tr);
    forall t | 0 <= t < |s.ts| ensures if t == 0 then s.ts[t].pc.Script? else s.ts[t].pc.Finished? {
      assert Exclusion.L(s.g, t, s.ts[t]);
    }
  }

  lemma {:induction false} OneStepCloser(tr: seq<Step>, u: Tid) returns (tr': seq<Step>)
    requires IsRun(tr) && u < |Exec(tr).ts| && Pre(Exec(tr).g, u, Exec(tr).ts[u])
    ensures IsRun(tr') && tr <= tr' && Exec(tr').g.vuDone
    ensures Sum(Exec(tr').ts, LeftOf) < Sum(Exec(tr).ts, LeftOf)
  {
    hide Local, Left, Answer, Sum, Waiting.Pre;
    var s := Exec(tr);
    var a := Answer(s.g, s.ts[u]);
    ComesCloser(s.g, u, s.ts[u]);
    var e := ThreadStep(u, a);
    tr' := tr + [e];
    assert tr'[..|tr'| - 1] == tr;
    Accounting.VuStays(s.g, u, s.ts[u], a);
    SumStep(s, u, a, LeftOf);
  }

  /** Once the VU context is done, some continuation of any run brings every thread to its end. */
  lemma {:induction false} AllCanEnd(tr: seq<Step>) returns (tr': seq<Step>)
    requires IsRun(tr) && Exec(tr).g.vuDone
    ensures IsRun(tr') && tr <= tr' && AllAtRest(Exec(tr'))
    decreases Sum(Exec(tr).ts, LeftOf)
  {
    hide Local, Exec, Pre, Sum, AtRest, AllAtRest;
    if forall t :: 0 <= t < |Exec(tr).ts| ==> AtRest(Exec(tr).ts[t].pc) {
      tr' := tr;
      RestIsEnd(tr);
    } else {
      var t :| 0 <= t < |Exec(tr).ts| && !AtRest(Exec(tr).ts[t].pc);
      var u := FreeThread(tr, t);
      var next := OneStepCloser(tr, u);
      tr' := AllCanEnd(next);
    }
  }

  /** So from every reachable state all threads can come to their end, at the latest with the VU context. */
  lemma {:induction false} AlwaysCanEnd(tr: seq<Step>) returns (tr': seq<Step>)
    requires IsRun(tr)
    ensures IsRun(tr') && tr <= tr' && AllAtRest(Exec(tr'))
  {
    hide Local, AllAtRest;
    var next := tr + [EnvStep(VuEnds)];
    assert next[..|next| - 1] == tr;
    tr' := AllCanEnd(next);
  }
}
