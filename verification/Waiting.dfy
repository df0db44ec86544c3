/**
 * Who waits for whom.  In every run the waits-for relation strictly decreases a rank, so there is no
 * cyclic wait; every chain ends after at most three hops at a thread that can take a step (possibly by
 * the network answering), or at a sender whose loop has exited while the VU lives.  The thread running
 * teardown is never such an orphan.
 */
module Waiting {
  import opened Basics
  import opened SocketMachine
  import opened Runs
  import Footprint
  import Exclusion
  import Connections
  import CloseEvent
  import Payloads

  /** About to enter a section opened by `mu.Lock()`. */
  predicate NeedsWrite(pc: Pc) {
    || (pc.Connecting? && pc.c.Begin?)
    || (pc.Destroying? && pc.d.Swap?)
    || (pc.SettingTimeout? && pc.p.LockTimeout?)
  }

  /** About to enter a section opened by `mu.RLock()`. */
  predicate NeedsRead(pc: Pc) {
    || (pc.Reading? && (pc.r.Head? || pc.r.Snap? || pc.r.Test?))
    || pc.Observing?
    || (pc.Writing? && pc.w.SnapWrite?)
  }

  /**
   * Thread `t` cannot go on before thread `u` does: `u` holds the lock, or is a pending writer ahead of
   * a read lock (Go's RWMutex lets it go first), or is running the body of the Once.
   */
  predicate WaitsFor(s: Sys, t: Tid, u: Tid) {
    && t < |s.ts| && u < |s.ts| && t != u
    && ( || ((NeedsWrite(s.ts[t].pc) || NeedsRead(s.ts[t].pc)) && s.g.lock.holder == Some(u))
         || (NeedsRead(s.ts[t].pc) && NeedsWrite(s.ts[u].pc) && s.g.lock.holder.Some?)
         || (s.ts[t].pc.Destroying? && s.ts[t].pc.d.EnterOnce? && s.g.once == Running(u)))
  }

  function Rank(pc: Pc): nat {
    if pc.Destroying? && pc.d.EnterOnce? then 3 else if NeedsRead(pc) then 2 else if NeedsWrite(pc) then 1 else 0
  }

  /** A sender waiting for a loop that has exited, with the VU context live. */
  predicate Orphan(s: Sys, t: Tid) {
    t < |s.ts| && s.ts[t].pc.Firing? && s.ts[t].pc.sending && s.g.loop.Exited? && !s.g.vuDone
  }

  /** Some step of `t` is enabled, or the loop goroutine must first queue the call it holds. */
  ghost predicate Runnable(s: Sys, t: Tid) {
    t < |s.ts| && ((exists a :: Enabled(s, ThreadStep(t, a))) ||
                   (s.ts[t].pc.Firing? && s.ts[t].pc.sending && Enabled(s, EnvStep(LoopQueues))))
  }

  // ---------------------------------------------------------------- a step for every thread that is not waiting

  /** One way the environment can answer at each program point. */
  function Answer(g: Globals, th: Thread): Action {
    if th.pc.Script? then Invoke(DoReadyState)
    else if th.pc.Connecting? then
      (if th.pc.c.Resolve? || th.pc.c.Dial? || th.pc.c.Handshake? || (th.pc.c.Arm? && g.core.timeout > 0)
       then Returned(true) else Tau)
    else if th.pc.Reading? then
      (if th.pc.r.ArmRead? && th.pc.r.to > 0 then Returned(true)
       else if th.pc.r.CallRead? then ReadReturned([], NoErr)
       else if th.pc.r.CopyRead? then GotBuffer(|g.mem.bufs|)
       else Tau)
    else if th.pc.SettingTimeout? then (if th.pc.p.ArmTimeout? then Returned(true) else Tau)
    else if th.pc.Writing? && th.role.WriterRole? && th.pc.w.CallWrite? && th.pc.w.done < |th.role.data| then
      WriteReturned(0, true)
    else if th.pc.Firing? && th.pc.sending then (if g.loop.Select? then HandOff else GiveUp)
    else Tau
  }

  ghost predicate Pre(g: Globals, t: Tid, th: Thread) {
    && Exclusion.RolePc(th.role, th.pc) && Connections.Known(|g.net.conns|, th.pc)
    && |g.mem.readBuf| == READ_BUFFER_SIZE && (Payloads.InBuffer(th.pc) ==> |th.pc.r.chunk| <= READ_BUFFER_SIZE)
    && (NeedsWrite(th.pc) || NeedsRead(th.pc) ==> LockFree(g))
    && (th.pc.Destroying? && th.pc.d.EnterOnce? ==> !g.once.Running?)
    && (th.pc.Firing? && th.pc.sending ==> g.loop.Select? || g.vuDone)
    && !th.pc.Finished?
  }

  lemma MovesConnect(g: Globals, t: Tid, th: Thread)
    requires Pre(g, t, th) && th.pc.Connecting?
    ensures ConnectStep(g, t, th, th.pc.c, Answer(g, th)).Moved?
  {
    match th.pc.c
    case Begin(_) => case Resolve(_) => case Dial(_) => case Handshake(_) => case Publish(_) =>
    case Arm(_) => case Fail(_) => case Unlock(_) => case Spawn => case Count =>
  }

  lemma MovesRead(g: Globals, t: Tid, th: Thread)
    requires Pre(g, t, th) && th.pc.Reading?
    ensures ReadStep(g, t, th, th.pc.r, Answer(g, th)).Moved?
  {
    match th.pc.r
    case Head => case Snap => case ArmRead(_, _) => case CallRead(_) => case PushRead(_, _, _) =>
    case AddRead(_, _, _) => case CopyRead(_, _, _) => case Test(_, _) =>
  }

  lemma MovesOther(g: Globals, t: Tid, th: Thread)
    requires Pre(g, t, th) && !th.pc.Connecting? && !th.pc.Reading?
    ensures Local(g, t, th, Answer(g, th)).Moved?
  {
    hide ConnectStep, ReadStep;
    if th.pc.Destroying? {
      match th.pc.d
      case EnterOnce => case Swap => case CloseConn(_) => case PushDuration => case Cancel => case LeaveOnce =>
    } else if th.pc.Writing? {
      match th.pc.w
      case SnapWrite => case CallWrite(_, _) => case AddWrite(_, _, _) => case FailedWrite(_) => case CountWrite(_) =>
    }
  }

  lemma Moves(g: Globals, t: Tid, th: Thread)
    requires Pre(g, t, th)
    ensures Local(g, t, th, Answer(g, th)).Moved?
  {
    hide ConnectStep, LookupStep, SendStep, ReadStep, DestroyStep, WriteStep, ScriptStep, TimeoutStep, ObserveStep,
      ReportStep, Answer, Pre;
    if th.pc.Connecting? { MovesConnect(g, t, th); }
    else if th.pc.Reading? { MovesRead(g, t, th); }
    else { MovesOther(g, t, th); }
  }

  // ---------------------------------------------------------------- for every run

  /** Whoever is waited for ranks below the one who waits: no cyclic wait, and chains of at most three hops. */
  lemma {:induction false} WaitingGoesDown(tr: seq<Step>, t: Tid, u: Tid)
    requires IsRun(tr) && WaitsFor(Exec(tr), t, u)
    ensures Rank(Exec(tr).ts[u].pc) < Rank(Exec(tr).ts[t].pc) <= 3
  {
    hide Local;
    Exclusion.Always(tr);
    var s := Exec(tr);
    assert Exclusion.L(s.g, u, s.ts[u]) && Exclusion.L(s.g, t, s.ts[t]);
  }

  /** A thread that waits for nobody, and for no loop, is ready for its next step. */
  lemma {:induction false} FreeMeansReady(tr: seq<Step>, t: Tid)
    requires IsRun(tr) && t < |Exec(tr).ts| && (forall u :: !WaitsFor(Exec(tr), t, u))
    requires !Exec(tr).ts[t].pc.Finished?
    requires Exec(tr).ts[t].pc.Firing? && Exec(tr).ts[t].pc.sending ==> Exec(tr).g.loop.Select? || Exec(tr).g.vuDone
    ensures Pre(Exec(tr).g, t, Exec(tr).ts[t])
  {
    hide Local;
    var s := Exec(tr);
    Connections.Always(tr);
    Payloads.Always(tr);
    assert Exclusion.L(s.g, t, s.ts[t]) && Connections.L(s.g, t, s.ts[t]) && Payloads.L(s.ts[t]);
    if s.g.lock.holder.Some? { HolderIsNotAtTheGate(s, t); }
    if s.g.once.Running? {
      assert Exclusion.L(s.g, s.g.once.who, s.ts[s.g.once.who]);
      assert !WaitsFor(s, t, s.g.once.who);
    }
  }

  /** A thread that waits for nobody can go on, is finished, or is an orphaned sender. */
  lemma {:induction false} NobodyToWaitFor(tr: seq<Step>, t: Tid)
    requires IsRun(tr) && t < |Exec(tr).ts| && (forall u :: !WaitsFor(Exec(tr), t, u))
    ensures Runnable(Exec(tr), t) || Orphan(Exec(tr), t) || Exec(tr).ts[t].pc.Finished?
  {
    hide Local, WaitsFor, Pre;
    var s := Exec(tr);
    if !Orphan(s, t) && !s.ts[t].pc.Finished? {
      if s.ts[t].pc.Firing? && s.ts[t].pc.sending && s.g.loop.Holding? {
        assert Enabled(s, EnvStep(LoopQueues));
      } else {
        FreeMeansReady(tr, t);
        Moves(s.g, t, s.ts[t]);
        assert Enabled(s, ThreadStep(t, Answer(s.g, s.ts[t])));
      }
    }
  }

  lemma HolderIsNotAtTheGate(s: Sys, t: Tid)
    requires Exclusion.Inv(s) && t < |s.ts| && s.g.lock.holder.Some? && (forall u :: !WaitsFor(s, t, u))
    ensures !NeedsWrite(s.ts[t].pc) && !NeedsRead(s.ts[t].pc)
  {
    var u := s.g.lock.holder.value;
    assert Exclusion.L(s.g, u, s.ts[u]) && Exclusion.L(s.g, t, s.ts[t]);
    assert !WaitsFor(s, t, u);
  }

  /** The chain of waits from a thread. */
  ghost predicate Chain(s: Sys, c: seq<Tid>) {
    c != [] && forall i :: 0 <= i < |c| - 1 ==> WaitsFor(s, c[i], c[i + 1])
  }

  /**
   * No deadlock: from every thread, following at most three waits leads to a thread that can go on, has
   * finished, or is an orphaned sender.
   */
  lemma {:induction false} EveryWaitEnds(tr: seq<Step>, t: Tid) returns (c: seq<Tid>)
    requires IsRun(tr) && t < |Exec(tr).ts|
    ensures Chain(Exec(tr), c) && c[0] == t && |c| <= 1 + Rank(Exec(tr).ts[t].pc)
    ensures var last := c[|c| - 1];
            last < |Exec(tr).ts| &&
            (Runnable(Exec(tr), last) || Orphan(Exec(tr), last) || Exec(tr).ts[last].pc.Finished?)
    decreases Rank(Exec(tr).ts[t].pc)
  {
    hide Local, WaitsFor, Runnable, Orphan, Rank;
    if forall u :: !WaitsFor(Exec(tr), t, u) {
      c := [t];
      NobodyToWaitFor(tr, t);
    } else {
      var u :| WaitsFor(Exec(tr), t, u);
      WaitingGoesDown(tr, t, u);
      InBounds(Exec(tr), t, u);
      var rest := EveryWaitEnds(tr, u);
      c := [t] + rest;
    }
  }

  lemma InBounds(s: Sys, t: Tid, u: Tid)
    requires WaitsFor(s, t, u)
    ensures u < |s.ts|
  {}

  /** The thread inside the teardown body is never orphaned: the loop outlives its `close`. */
  lemma {:induction false} TeardownIsNeverOrphaned(tr: seq<Step>, t: Tid)
    requires IsRun(tr) && Exec(tr).g.once == Running(t)
    ensures !Orphan(Exec(tr), t)
  {
    hide Local;
    CloseEvent.Always(tr);
    var s := Exec(tr);
    if t < |s.ts| { assert Exclusion.L(s.g, t, s.ts[t]) && CloseEvent.L(s.g, s.ts[t]); }
  }

  /** Senders are orphaned only after teardown has cancelled the socket context. */
  lemma {:induction false} OrphansFollowTeardown(tr: seq<Step>, t: Tid)
    requires IsRun(tr) && Orphan(Exec(tr), t)
    ensures Exec(tr).g.cancelled
  {
    hide Local;
    CloseEvent.Always(tr);
  }

  /** The loop never comes back; without it a sender does not move until the VU context ends. */
  lemma StaysOrphan(s: Sys, e: Step, t: Tid)
    requires Orphan(s, t) && Enabled(s, e)
    ensures Apply(s, e).g.vuDone || (Orphan(Apply(s, e), t) && Apply(s, e).ts[t] == s.ts[t])
  {
    hide ConnectStep, LookupStep, ReadStep, DestroyStep, WriteStep, ScriptStep, TimeoutStep, ObserveStep, ReportStep;
    if e.ThreadStep? {
      Footprint.Of(s.g, e.t, s.ts[e.t], e.a);
      if s.ts[e.t].pc.Firing? && !s.ts[e.t].pc.sending { LookupLeavesLoop(s.g, s.ts[e.t], s.ts[e.t].pc.call, e.a); }
    }
  }

  lemma LookupLeavesLoop(g: Globals, th: Thread, k: Call, a: Action)
    requires LookupStep(g, th, k, a).Moved?
    ensures LookupStep(g, th, k, a).g.loop == g.loop && LookupStep(g, th, k, a).g.vuDone == g.vuDone
  {}

  /** An orphaned sender stands still for as long as the VU context lives. */
  lemma {:induction false} OrphansWaitForTheVu(tr: seq<Step>, i: nat, t: Tid)
    requires IsRun(tr) && i <= |tr| && Orphan(At(tr, i), t) && !Exec(tr).g.vuDone
    ensures t < |At(tr, i).ts| && Orphan(Exec(tr), t) && Exec(tr).ts[t] == At(tr, i).ts[t]
    decreases |tr| - i
  {
    hide Local, Orphan;
    OrphanExists(At(tr, i), t);
    if i == |tr| {
      AtEnd(tr);
    } else {
      StepAt(tr, i);
      StaysOrphan(At(tr, i), tr[i], t);
      if At(tr, i + 1).g.vuDone { StaysDone(tr, i + 1); }
      OrphansWaitForTheVu(tr, i + 1, t);
    }
  }

  lemma OrphanExists(s: Sys, t: Tid)
    requires Orphan(s, t)
    ensures t < |s.ts|
  {}

  lemma {:induction false} StaysDone(tr: seq<Step>, i: nat)
    requires IsRun(tr) && i <= |tr| && At(tr, i).g.vuDone
    ensures Exec(tr).g.vuDone
    decreases |tr| - i
  {
    hide Local;
    if i == |tr| {
      AtEnd(tr);
    } else {
      StepAt(tr, i);
      var s, e := At(tr, i), tr[i];
      if e.ThreadStep? { Footprint.Of(s.g, e.t, s.ts[e.t], e.a); }
      StaysDone(tr, i + 1);
    }
  }
}
