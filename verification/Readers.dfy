/**
 * A reader and teardown.  As long as no connect takes the lock on a destroyed socket, a read that fails
 * because teardown closed the connection is silent: no error event, no timeout event, no tcp_errors
 * sample.  After teardown has taken the connection a reader completes at most one more send and is at
 * most a fixed number of its own steps away from its end.
 */
module Readers {
  import opened SocketMachine
  import opened Runs
  import Footprint
  import Exclusion
  import Lifecycle
  import Connections

  /** Closed, if at all, by teardown. */
  ghost predicate Safe(g: Globals, c: ConnId) {
    c < |g.net.conns| && !g.net.conns[c].loc.InFlight? && (g.net.conns[c].closes > 0 ==> g.life.swapped)
  }

  /** The read result a thread is working on came from a closed connection. */
  predicate DeadResult(pc: Pc) {
    || (pc.Reading? && (pc.r.PushRead? || pc.r.AddRead? || pc.r.CopyRead? || pc.r.Test?) && pc.r.dead)
    || (pc.Firing? && pc.call.OnData? && pc.call.dead)
  }

  /** The thread is about to report such a result. */
  predicate DeadReport(pc: Pc) {
    || (pc.Reporting? && pc.kind.FromRead? && pc.kind.dead)
    || (pc.Firing? && DeadCall(pc.call))
  }

  predicate DeadCall(k: Call) {
    || (k.OnTimeout? && k.dead)
    || (k.OnError? && k.kind.FromRead? && k.kind.dead)
  }

  /** A data, timeout or error send may still come before the next look at the state. */
  predicate MaySend(pc: Pc) {
    || (pc.Reading? && !pc.r.Head? && !pc.r.Snap? && !pc.r.Test?)
    || (pc.Reporting? && pc.kind.FromRead?)
    || (pc.Firing? && (pc.call.OnData? || pc.call.OnTimeout? || (pc.call.OnError? && pc.call.kind.FromRead?)))
  }

  ghost predicate G(g: Globals) {
    !g.life.revived ==>
      g.reports.dead == 0 && forall i :: 0 <= i < |g.ev.accepted| ==> !DeadCall(g.ev.accepted[i].call)
  }

  ghost predicate L(g: Globals, th: Thread) {
    && (th.pc.Reading? && (th.pc.r.ArmRead? || th.pc.r.CallRead?) ==> Safe(g, th.pc.r.c))
    && (DeadResult(th.pc) ==> g.life.swapped)
    && (!g.life.revived && th.role.ReaderRole? ==>
          && !DeadReport(th.pc)
          && th.late <= 1
          && (!g.life.swapped || MaySend(th.pc) ==> th.late == 0))
  }

  ghost predicate Inv(s: Sys) {
    Connections.Inv(s) && G(s.g) && forall t :: 0 <= t < |s.ts| ==> L(s.g, s.ts[t])
  }

  ghost predicate Frame(g: Globals, h: Globals) {
    && (g.life.swapped ==> h.life.swapped)
    && (g.life.revived ==> h.life.revived)
    && (forall c :: Safe(g, c) ==> Safe(h, c))
  }

  ghost predicate Pre(g: Globals, n: nat, t: Tid, th: Thread) { Connections.Pre(g, n, t, th) && G(g) && L(g, th) }

  ghost predicate Kept(g: Globals, o: Outcome) { o.Moved? ==> G(o.g) && L(o.g, o.th) && Frame(g, o.g) }

  lemma SafeConnect(g: Globals, n: nat, t: Tid, th: Thread, a: Action, c: ConnId)
    requires Pre(g, n, t, th) && th.pc.Connecting? && Safe(g, c) && ConnectStep(g, t, th, th.pc.c, a).Moved?
    ensures Safe(ConnectStep(g, t, th, th.pc.c, a).g, c)
  {
    LifeConnect(g, t, th, th.pc.c, a);
    match th.pc.c
    case Begin(_) => case Resolve(_) => case Dial(_) => case Handshake(_) => case Publish(_) =>
    case Arm(_) => case Fail(_) => case Unlock(_) => case Spawn => case Count =>
  }

  lemma OwnConnect(g: Globals, n: nat, t: Tid, th: Thread, a: Action)
    requires Pre(g, n, t, th) && th.pc.Connecting?
    ensures Kept(g, ConnectStep(g, t, th, th.pc.c, a))
  {
    hide ConnectStep, Connections.Pre;
    if ConnectStep(g, t, th, th.pc.c, a).Moved? {
      Footprint.Connects(g, t, th, a);
      LifeConnect(g, t, th, th.pc.c, a);
      forall c | Safe(g, c) ensures Safe(ConnectStep(g, t, th, th.pc.c, a).g, c) { SafeConnect(g, n, t, th, a, c); }
      assert th.role.ConnectRole? by { Unfold(g, n, t, th); }
    }
  }

  lemma Unfold(g: Globals, n: nat, t: Tid, th: Thread)
    requires Connections.Pre(g, n, t, th)
    ensures Exclusion.RolePc(th.role, th.pc)
  {}

  lemma SafeDestroy(g: Globals, n: nat, t: Tid, th: Thread, a: Action, c: ConnId)
    requires Pre(g, n, t, th) && th.pc.Destroying? && Safe(g, c)
    requires DestroyStep(g, t, th, th.pc.ret, th.pc.d, a).Moved?
    ensures Safe(DestroyStep(g, t, th, th.pc.ret, th.pc.d, a).g, c)
  {
    match th.pc.d
    case EnterOnce => case Swap => case CloseConn(_) => case PushDuration => case Cancel => case LeaveOnce =>
  }

  lemma OwnDestroy(g: Globals, n: nat, t: Tid, th: Thread, a: Action)
    requires Pre(g, n, t, th) && th.pc.Destroying?
    ensures Kept(g, DestroyStep(g, t, th, th.pc.ret, th.pc.d, a))
  {
    hide DestroyStep, Connections.Pre, Safe;
    if DestroyStep(g, t, th, th.pc.ret, th.pc.d, a).Moved? {
      Footprint.Destroys(g, t, th, a);
      DestroyIs(g, t, th, a);
      LifeOther(g, t, th, a);
      forall c | Safe(g, c) ensures Safe(DestroyStep(g, t, th, th.pc.ret, th.pc.d, a).g, c)
      { SafeDestroy(g, n, t, th, a, c); }
    }
  }

  lemma DestroyIs(g: Globals, t: Tid, th: Thread, a: Action)
    requires th.pc.Destroying?
    ensures Local(g, t, th, a) == DestroyStep(g, t, th, th.pc.ret, th.pc.d, a)
  {}

  lemma OwnLookup(g: Globals, n: nat, t: Tid, th: Thread, a: Action)
    requires Pre(g, n, t, th) && th.pc.Firing?
    ensures Kept(g, LookupStep(g, th, th.pc.call, a))
  {
    hide Connections.Pre, Release;
    match th.pc.call
    case OnConnect => case OnData(_, _, _, _, _) => case OnTimeout(_) => case OnClose(_) => case OnError(_) =>
  }

  lemma OwnSend(g: Globals, n: nat, t: Tid, th: Thread, a: Action)
    requires Pre(g, n, t, th) && th.pc.Firing?
    ensures Kept(g, SendStep(g, t, th, th.pc.call, a))
  {
    hide Connections.Pre, Release, Move;
    assert Exclusion.RolePc(th.role, th.pc) by { Unfold(g, n, t, th); }
    match th.pc.call
    case OnConnect => case OnData(_, _, _, _, _) => case OnTimeout(_) => case OnClose(_) => case OnError(_) =>
  }

  lemma OwnOther(g: Globals, n: nat, t: Tid, th: Thread, a: Action)
    requires Pre(g, n, t, th)
    requires !th.pc.Connecting? && !th.pc.Destroying? && !th.pc.Reading? && !th.pc.Firing? && !th.pc.Reporting?
    ensures Kept(g, Local(g, t, th, a))
  {
    hide Local, Connections.Pre;
    if Local(g, t, th, a).Moved? {
      Footprint.Of(g, t, th, a);
      LifeOther(g, t, th, a);
      assert Exclusion.RolePc(th.role, th.pc) by { Unfold(g, n, t, th); }
      if th.pc.SettingTimeout? { TimeoutIs(g, t, th, a); Connections.PlacesTimeout(g, t, th, th.pc.ms, th.pc.p, a); }
      else if th.pc.Script? { ScriptKeepsAccepted(g, t, th, a); }
    }
  }

  lemma TimeoutIs(g: Globals, t: Tid, th: Thread, a: Action)
    requires th.pc.SettingTimeout?
    ensures Local(g, t, th, a) == TimeoutStep(g, t, th, th.pc.ms, th.pc.p, a)
  {}

  lemma ScriptKeepsAccepted(g: Globals, t: Tid, th: Thread, a: Action)
    requires th.pc.Script? && Local(g, t, th, a).Moved?
    ensures Local(g, t, th, a).g.ev.accepted == g.ev.accepted
  {
    hide ScriptStep;
    Footprint.ScriptEvents(g, th, a.op);
  }

  lemma OwnReport(g: Globals, n: nat, t: Tid, th: Thread, a: Action)
    requires Pre(g, n, t, th) && th.pc.Reporting?
    ensures Kept(g, ReportStep(g, th, th.pc.kind, a))
  {}

  lemma LocalRead(g: Globals, n: nat, t: Tid, th: Thread, a: Action)
    requires Pre(g, n, t, th) && th.pc.Reading? && ReadStep(g, t, th, th.pc.r, a).Moved?
    ensures L(g, ReadStep(g, t, th, th.pc.r, a).th)
  {
    match th.pc.r
    case Head => case ArmRead(_, _) => case PushRead(_, _, _) =>
    case AddRead(_, _, _) => case CopyRead(_, _, _) => case Test(_, _) =>
    case Snap => if g.core.conn.Some? { assert Connections.Located(g, g.core.conn.value); }
    case CallRead(_) =>
  }

  lemma OwnRead(g: Globals, n: nat, t: Tid, th: Thread, a: Action)
    requires Pre(g, n, t, th) && th.pc.Reading?
    ensures Kept(g, ReadStep(g, t, th, th.pc.r, a))
  {
    hide ReadStep, Connections.Pre;
    if ReadStep(g, t, th, th.pc.r, a).Moved? {
      Footprint.Reads(g, t, th, a);
      Connections.PlacesRead(g, t, th, th.pc.r, a);
      LocalRead(g, n, t, th, a);
    }
  }

  lemma Own(g: Globals, n: nat, t: Tid, th: Thread, a: Action)
    requires Pre(g, n, t, th)
    ensures Kept(g, Local(g, t, th, a))
  {
    hide ConnectStep, LookupStep, SendStep, ReadStep, DestroyStep, WriteStep, ScriptStep, TimeoutStep, ObserveStep,
      ReportStep, Kept;
    if th.pc.Connecting? { OwnConnect(g, n, t, th, a); }
    else if th.pc.Destroying? { OwnDestroy(g, n, t, th, a); }
    else if th.pc.Reading? { OwnRead(g, n, t, th, a); }
    else if th.pc.Firing? { if th.pc.sending { OwnSend(g, n, t, th, a); } else { OwnLookup(g, n, t, th, a); } }
    else if th.pc.Reporting? { OwnReport(g, n, t, th, a); }
    else { OwnOther(g, n, t, th, a); }
  }

  lemma Others(g: Globals, h: Globals, th: Thread)
    requires Frame(g, h) && L(g, th)
    ensures L(h, th)
  {}

  lemma Preserved(s: Sys, e: Step)
    requires Inv(s) && Enabled(s, e)
    ensures Inv(Apply(s, e))
  {
    hide Local, L, Connections.L, Lifecycle.L, Exclusion.L;
    var s' := Apply(s, e);
    Connections.Preserved(s, e);
    match e
    case ThreadStep(t, a) =>
      assert Pre(s.g, |s.ts|, t, s.ts[t]);
      Own(s.g, |s.ts|, t, s.ts[t], a);
      Actor(s, t, a);
      forall u | 0 <= u < |s'.ts| ensures L(s'.g, s'.ts[u]) {
        if u < |s.ts| && u != t { Others(s.g, s'.g, s.ts[u]); }
      }
    case EnvStep(_) =>
      forall u | 0 <= u < |s'.ts| ensures L(s'.g, s'.ts[u]) { Others(s.g, s'.g, s.ts[u]); }
  }

  lemma Actor(s: Sys, t: Tid, a: Action)
    requires Inv(s) && t < |s.ts| && Local(s.g, t, s.ts[t], a).Moved? && Kept(s.g, Local(s.g, t, s.ts[t], a))
    ensures var s' := Apply(s, ThreadStep(t, a));
            && G(s'.g) && L(s'.g, s'.ts[t]) && Frame(s.g, s'.g)
            && (|s'.ts| > |s.ts| ==> L(s'.g, s'.ts[|s.ts|]))
  {
    hide Local;
    Footprint.Of(s.g, t, s.ts[t], a);
  }

  lemma {:induction false} Always(tr: seq<Step>)
    requires IsRun(tr)
    ensures Inv(Exec(tr))
  {
    hide Local;
    if tr == [] {
      Connections.Always(tr);
    } else {
      Always(tr[..|tr| - 1]);
      Preserved(Exec(tr[..|tr| - 1]), tr[|tr| - 1]);
    }
  }

  // ---------------------------------------------------------------- silent teardown

  /**
   * In every run in which no connect takes the lock on a destroyed socket, no error or timeout event the
   * loop accepted, and no tcp_errors sample, came from a read on a connection that was already closed.
   */
  lemma {:induction false} TeardownIsSilent(tr: seq<Step>)
    requires IsRun(tr) && !SomeStep(tr, Revives)
    ensures Exec(tr).g.reports.dead == 0
    ensures forall i :: 0 <= i < |Exec(tr).g.ev.accepted| ==> !DeadCall(Exec(tr).g.ev.accepted[i].call)
  {
    hide Local, SomeStep;
    FlagsMean(tr);
    Always(tr);
  }

  // ---------------------------------------------------------------- at most one more send

  /** Step `e` is thread `t` completing a send other than `close` after teardown took the connection. */
  predicate LateSend(s: Sys, e: Step, t: Tid) {
    e.ThreadStep? && e.t == t < |s.ts| && e.a.HandOff? && s.g.life.swapped &&
    s.ts[t].pc.Firing? && !s.ts[t].pc.call.OnClose?
  }

  ghost function LateSends(tr: seq<Step>, t: Tid): nat
    requires IsRun(tr)
  {
    if tr == [] then 0
    else LateSends(tr[..|tr| - 1], t) + if LateSend(Exec(tr[..|tr| - 1]), tr[|tr| - 1], t) then 1 else 0
  }

  lemma LateLocal(g: Globals, t: Tid, th: Thread, a: Action)
    requires Local(g, t, th, a).Moved?
    ensures Local(g, t, th, a).th.late ==
              th.late + if a.HandOff? && g.life.swapped && th.pc.Firing? && !th.pc.call.OnClose? then 1 else 0
  {
    hide ConnectStep, ReadStep, DestroyStep, WriteStep, ScriptStep, TimeoutStep, ObserveStep, ReportStep;
    if !th.pc.Firing? { Footprint.Of(g, t, th, a); }
  }

  lemma {:induction false} LateCounts(tr: seq<Step>, t: Tid)
    requires IsRun(tr)
    ensures LateSends(tr, t) == if t < |Exec(tr).ts| then Exec(tr).ts[t].late else 0
  {
    hide Local;
    if tr != [] {
      var p := tr[..|tr| - 1];
      var e := tr[|tr| - 1];
      LateCounts(p, t);
      var s := Exec(p);
      if e.ThreadStep? {
        Footprint.Of(s.g, e.t, s.ts[e.t], e.a);
        if e.t == t { LateLocal(s.g, t, s.ts[t], e.a); }
      }
    }
  }

  /** After teardown has taken the connection a reader completes at most one data, timeout or error send. */
  lemma {:induction false} OneLateSend(tr: seq<Step>, t: Tid)
    requires IsRun(tr) && !SomeStep(tr, Revives)
    requires t < |Exec(tr).ts| && Exec(tr).ts[t].role.ReaderRole?
    ensures LateSends(tr, t) <= 1
  {
    hide Local, SomeStep;
    FlagsMean(tr);
    Always(tr);
    LateCounts(tr, t);
    assert L(Exec(tr).g, Exec(tr).ts[t]);
  }

  // ---------------------------------------------------------------- the way to the exit

  /** An upper bound on the steps a reader can still take once the connection is gone. */
  function Distance(pc: Pc): nat {
    match pc
    case Reading(r) => (
      match r
      case ArmRead(_, _) => 17
      case CallRead(_) => 16
      case PushRead(_, _, _) => 15
      case AddRead(_, _, _) => 14
      case CopyRead(_, _, _) => 13
      case Head => 10
      case Snap => 10
      case Test(_, _) => 10)
    case Reporting(_) => 12
    case Firing(k, sending) =>
      (if k.OnClose? then 4 else if k.OnError? then 10 else 11) + (if sending then 0 else 1)
    case Destroying(_, d) => (
      match d
      case EnterOnce => 9
      case Swap => 8
      case CloseConn(_) => 7
      case PushDuration => 6
      case Cancel => 3
      case LeaveOnce => 2)
    case _ => 0
  }

  lemma CloserRead(g: Globals, n: nat, t: Tid, th: Thread, a: Action)
    requires Pre(g, n, t, th) && th.pc.Reading? && g.life.swapped && !g.life.revived
    requires ReadStep(g, t, th, th.pc.r, a).Moved?
    ensures Distance(ReadStep(g, t, th, th.pc.r, a).th.pc) < Distance(th.pc)
  {
    match th.pc.r
    case Head => case Snap => case ArmRead(_, _) => case CallRead(_) => case PushRead(_, _, _) =>
    case AddRead(_, _, _) => case CopyRead(_, _, _) => case Test(_, _) =>
  }

  lemma CloserDestroy(g: Globals, n: nat, t: Tid, th: Thread, a: Action)
    requires Pre(g, n, t, th) && th.pc.Destroying? && th.role.ReaderRole?
    requires DestroyStep(g, t, th, th.pc.ret, th.pc.d, a).Moved?
    ensures Distance(DestroyStep(g, t, th, th.pc.ret, th.pc.d, a).th.pc) < Distance(th.pc)
  {
    match th.pc.d
    case EnterOnce => case Swap => case CloseConn(_) => case PushDuration => case Cancel => case LeaveOnce =>
  }

  lemma CloserFire(g: Globals, n: nat, t: Tid, th: Thread, a: Action)
    requires Pre(g, n, t, th) && th.pc.Firing? && th.role.ReaderRole? && Local(g, t, th, a).Moved?
    ensures Distance(Local(g, t, th, a).th.pc) < Distance(th.pc)
  {
    hide Local, Connections.Pre;
    Footprint.Of(g, t, th, a);
    assert Exclusion.RolePc(th.role, th.pc) by { Unfold(g, n, t, th); }
    match th.pc.call
    case OnConnect => case OnData(_, _, _, _, _) => case OnTimeout(_) => case OnClose(_) => case OnError(_) =>
  }

  lemma Closer(s: Sys, t: Tid, a: Action)
    requires Inv(s) && t < |s.ts| && s.ts[t].role.ReaderRole? && s.g.life.swapped && !s.g.life.revived
    requires Enabled(s, ThreadStep(t, a))
    ensures Distance(Apply(s, ThreadStep(t, a)).ts[t].pc) < Distance(s.ts[t].pc)
  {
    hide ConnectStep, LookupStep, SendStep, ReadStep, DestroyStep, WriteStep, ScriptStep, TimeoutStep, ObserveStep,
      ReportStep, Distance;
    var th := s.ts[t];
    assert Exclusion.L(s.g, t, th) && Lifecycle.L(s.g, th) && Connections.L(s.g, t, th) && L(s.g, th);
    if th.pc.Reading? { CloserRead(s.g, |s.ts|, t, th, a); }
    else if th.pc.Destroying? { CloserDestroy(s.g, |s.ts|, t, th, a); }
    else if th.pc.Firing? { CloserFire(s.g, |s.ts|, t, th, a); }
    else { CloserReport(s.g, t, th, a); }
  }

  lemma CloserReport(g: Globals, t: Tid, th: Thread, a: Action)
    requires Exclusion.RolePc(th.role, th.pc) && th.role.ReaderRole?
    requires !th.pc.Reading? && !th.pc.Destroying? && !th.pc.Firing?
    requires Local(g, t, th, a).Moved?
    ensures Distance(Local(g, t, th, a).th.pc) < Distance(th.pc)
  {
    hide Local;
    Footprint.Of(g, t, th, a);
  }

  /** The steps thread `t` takes from position `i` of the run on. */
  function StepsOf(tr: seq<Step>, i: nat, t: Tid): nat
    requires i <= |tr|
    decreases |tr| - i
  {
    if i == |tr| then 0
    else (if tr[i].ThreadStep? && tr[i].t == t then 1 else 0) + StepsOf(tr, i + 1, t)
  }

  /**
   * Once teardown has taken the connection, and if no connect takes the lock on the destroyed socket,
   * every step a reader takes brings it closer to its end: from position `i` on it takes at most as many
   * steps as its distance at `i` exceeds its distance at the end of the run.
   */
  lemma {:induction false} ReaderWindsDown(tr: seq<Step>, i: nat, t: Tid)
    requires IsRun(tr) && i <= |tr| && !SomeStep(tr, Revives)
    requires t < |At(tr, i).ts| && At(tr, i).ts[t].role.ReaderRole? && At(tr, i).g.life.swapped
    ensures t < |Exec(tr).ts| && StepsOf(tr, i, t) + Distance(Exec(tr).ts[t].pc) <= Distance(At(tr, i).ts[t].pc)
    decreases |tr| - i
  {
    hide Local, SomeStep, Distance, LateSend, G;
    if i == |tr| {
      AtEnd(tr);
    } else {
      StepAt(tr, i);
      var s, e := At(tr, i), tr[i];
      PrefixIsRun(tr, i);
      Always(tr[..i]);
      NotRevivedAt(tr, i);
      if e.ThreadStep? {
        Footprint.Of(s.g, e.t, s.ts[e.t], e.a);
        Own(s.g, |s.ts|, e.t, s.ts[e.t], e.a) by {
          assert Exclusion.L(s.g, e.t, s.ts[e.t]) && Lifecycle.L(s.g, s.ts[e.t]);
          assert Connections.L(s.g, e.t, s.ts[e.t]) && L(s.g, s.ts[e.t]);
        }
        if e.t == t { Closer(s, t, e.a); }
      }
      ReaderWindsDown(tr, i + 1, t);
    }
  }

  lemma {:induction false} NotRevivedAt(tr: seq<Step>, i: nat)
    requires IsRun(tr) && i <= |tr| && !SomeStep(tr, Revives)
    ensures !At(tr, i).g.life.revived
  {
    hide Local;
    PrefixIsRun(tr, i);
    FlagsMean(tr[..i]);
    if SomeStep(tr[..i], Revives) {
      var j :| 0 <= j < i && Revives(At(tr[..i], j), tr[..i][j]);
      AtPrefix(tr, i, j);
    }
  }
}
