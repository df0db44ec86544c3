/**
 * Read deadlines and the configured timeout.  As long as SetReadDeadline succeeds, the visible
 * connection has a deadline exactly when the timeout is positive, except after one race: a reader that
 * took its snapshot before `setTimeout` disabled the timeout and armed the deadline after it.
 */
module Deadlines {
  import opened Basics
  import opened SocketMachine
  import opened Runs
  import opened LockMachine
  import Footprint
  import Exclusion
  import Lifecycle
  import Connections
  import Publication

  /** The current connection has a deadline exactly if the timeout is positive or a stale one was armed. */
  ghost predicate Tracks(g: Globals) {
    g.core.conn.Some? && g.core.conn.value < |g.net.conns| ==>
      var k := g.net.conns[g.core.conn.value];
      k.deadline == (g.core.timeout > 0 || k.stale) && (k.stale ==> g.core.timeout <= 0)
  }

  predicate Unarmed(net: Net, c: ConnId) { c < |net.conns| ==> !net.conns[c].deadline && !net.conns[c].stale }

  ghost predicate G(g: Globals) {
    && (LockFree(g) && !g.net.armFailed ==> Tracks(g))
    && (forall c :: 0 <= c < |g.net.conns| && g.net.conns[c].loc.InFlight? ==> Unarmed(g.net, c))
  }

  ghost predicate L(g: Globals, th: Thread) {
    && (th.pc.Connecting? && th.pc.c.Arm? ==> Unarmed(g.net, th.pc.c.c))
    && (th.pc.Connecting? && Exclusion.HoldsLock(th.pc) && !th.pc.c.Arm? && !g.net.armFailed ==> Tracks(g))
    && (th.pc.Connecting? && th.pc.c.Fail? && th.pc.c.pub.Some? ==> g.net.armFailed)
    && (th.pc.SettingTimeout? && th.pc.p.UnlockTimeout? && !g.net.armFailed ==> Tracks(g))
    && (th.pc.SettingTimeout? && th.pc.p.ArmTimeout? ==> g.core.conn == Some(th.pc.p.c))
  }

  ghost predicate Inv(s: Sys) {
    Publication.Inv(s) && G(s.g) && forall t :: 0 <= t < |s.ts| ==> L(s.g, s.ts[t])
  }

  ghost predicate Frame(g: Globals, h: Globals, t: Tid) {
    g.lock.holder.Some? && g.lock.holder.value != t ==>
      && h.core == g.core
      && (Tracks(g) ==> Tracks(h))
      && (g.net.armFailed ==> h.net.armFailed)
      && (forall c :: 0 <= c < |g.net.conns| && !g.net.conns[c].shown && Unarmed(g.net, c) ==> Unarmed(h.net, c))
  }

  ghost predicate Pre(g: Globals, n: nat, t: Tid, th: Thread) { Publication.Pre(g, n, t, th) && G(g) && L(g, th) }

  ghost predicate Kept(g: Globals, t: Tid, o: Outcome) { o.Moved? ==> G(o.g) && L(o.g, o.th) && Frame(g, o.g, t) }

  lemma OwnBegin(g: Globals, n: nat, t: Tid, th: Thread, a: Action)
    requires Pre(g, n, t, th) && th.pc.Connecting?
    requires (th.pc.c.Begin? || th.pc.c.Resolve? || th.pc.c.Spawn? || th.pc.c.Count? || th.pc.c == Fail(None))
    ensures Kept(g, t, ConnectStep(g, t, th, th.pc.c, a))
  {
    hide Connections.Pre;
    assert Exclusion.L(g, t, th) by { Unfold(g, n, t, th); }
    match th.pc.c case Begin(_) => case Resolve(_) => case Spawn => case Count => case Fail(_) => case _ =>
  }

  lemma Unfold(g: Globals, n: nat, t: Tid, th: Thread)
    requires Connections.Pre(g, n, t, th)
    ensures Exclusion.L(g, t, th)
  {}

  lemma OwnDial(g: Globals, n: nat, t: Tid, th: Thread, a: Action)
    requires Pre(g, n, t, th) && th.pc.Connecting? && (th.pc.c.Dial? || th.pc.c.Handshake?)
    ensures Kept(g, t, ConnectStep(g, t, th, th.pc.c, a))
  {
    if th.pc.c.Handshake? {
      assert Connections.Located(g, th.pc.c.c);
      if g.core.conn.Some? { assert Connections.Located(g, g.core.conn.value); }
    }
  }

  lemma OwnPublish(g: Globals, n: nat, t: Tid, th: Thread, a: Action)
    requires Pre(g, n, t, th) && th.pc.Connecting? && th.pc.c.Publish?
    ensures Kept(g, t, ConnectStep(g, t, th, th.pc.c, a))
  {
    assert Connections.Located(g, th.pc.c.c);
  }

  lemma OwnArm(g: Globals, n: nat, t: Tid, th: Thread, a: Action)
    requires Pre(g, n, t, th) && th.pc.Connecting? && th.pc.c.Arm?
    ensures Kept(g, t, ConnectStep(g, t, th, th.pc.c, a))
  {
    hide Exclusion.RolePc, Lifecycle.G;
    assert Connections.Known(|g.net.conns|, th.pc);
    assert Connections.Located(g, th.pc.c.c);
  }

  lemma OwnPublished(g: Globals, n: nat, t: Tid, th: Thread, a: Action)
    requires Pre(g, n, t, th) && Publication.JustPublished(th.pc) && !th.pc.c.Arm?
    ensures Kept(g, t, ConnectStep(g, t, th, th.pc.c, a))
  {
    hide Exclusion.RolePc, Lifecycle.G;
    assert Connections.Known(|g.net.conns|, th.pc);
    assert Connections.Located(g, Publication.Own(th.pc));
    match th.pc.c case Fail(_) => case Unlock(_) => case _ =>
  }

  lemma OwnDestroy(g: Globals, n: nat, t: Tid, th: Thread, a: Action)
    requires Pre(g, n, t, th) && th.pc.Destroying? && !th.pc.d.CloseConn?
    ensures Kept(g, t, DestroyStep(g, t, th, th.pc.ret, th.pc.d, a))
  {
    hide Publication.Pre;
    match th.pc.d
    case EnterOnce => case Swap => case PushDuration => case Cancel => case LeaveOnce => case _ =>
  }

  lemma OwnClose(g: Globals, n: nat, t: Tid, th: Thread, a: Action)
    requires Pre(g, n, t, th) && th.pc.Destroying? && th.pc.d.CloseConn?
    ensures Kept(g, t, DestroyStep(g, t, th, th.pc.ret, th.pc.d, a))
  {
    assert Connections.Located(g, th.pc.d.c);
  }

  lemma OwnTimeout(g: Globals, n: nat, t: Tid, th: Thread, a: Action)
    requires Pre(g, n, t, th) && th.pc.SettingTimeout?
    ensures Kept(g, t, TimeoutStep(g, t, th, th.pc.ms, th.pc.p, a))
  {
    match th.pc.p
    case LockTimeout => case UnlockTimeout =>
    case ArmTimeout(c) => assert Connections.Located(g, c);
  }

  lemma OwnArmRead(g: Globals, n: nat, t: Tid, th: Thread, a: Action)
    requires Pre(g, n, t, th) && th.pc.Reading? && th.pc.r.ArmRead?
    ensures Kept(g, t, ReadStep(g, t, th, th.pc.r, a))
  {
    assert Publication.IsShown(g.net, th.pc.r.c);
  }

  lemma OwnRead(g: Globals, n: nat, t: Tid, th: Thread, a: Action)
    requires Pre(g, n, t, th) && th.pc.Reading? && !th.pc.r.ArmRead?
    ensures Kept(g, t, ReadStep(g, t, th, th.pc.r, a))
  {
    hide ReadStep, Publication.Pre;
    if ReadStep(g, t, th, th.pc.r, a).Moved? {
      Footprint.Reads(g, t, th, a);
      NetKept(g, t, th, th.pc.r, a);
    }
  }

  lemma NetKept(g: Globals, t: Tid, th: Thread, pc: ReadPc, a: Action)
    requires ReadStep(g, t, th, pc, a).Moved? && !pc.ArmRead?
    ensures ReadStep(g, t, th, pc, a).g.net == g.net
  {
    match pc
    case Head => case Snap => case ArmRead(_, _) => case CallRead(_) => case PushRead(_, _, _) =>
    case AddRead(_, _, _) => case CopyRead(_, _, _) => case Test(_, _) =>
  }

  lemma OwnOther(g: Globals, n: nat, t: Tid, th: Thread, a: Action)
    requires Pre(g, n, t, th)
    requires !th.pc.Connecting? && !th.pc.Destroying? && !th.pc.Reading? && !th.pc.SettingTimeout?
    ensures Kept(g, t, Local(g, t, th, a))
  {
    hide Local, Publication.Pre;
    Footprint.Of(g, t, th, a);
    if th.pc.Firing? {
      match th.pc.call
      case OnConnect => case OnData(_, _, _, _, _) => case OnTimeout(_) => case OnClose(_) => case OnError(_) =>
    }
  }

  lemma Keeps(g: Globals, n: nat, t: Tid, th: Thread, a: Action)
    requires Pre(g, n, t, th)
    ensures Kept(g, t, Local(g, t, th, a))
  {
    hide ConnectStep, LookupStep, SendStep, ReadStep, DestroyStep, WriteStep, ScriptStep, TimeoutStep, ObserveStep,
      ReportStep, Kept;
    if th.pc.Connecting? {
      if th.pc.c.Arm? { OwnArm(g, n, t, th, a); }
      else if Publication.JustPublished(th.pc) { OwnPublished(g, n, t, th, a); }
      else if th.pc.c.Publish? { OwnPublish(g, n, t, th, a); }
      else if th.pc.c.Dial? || th.pc.c.Handshake? { OwnDial(g, n, t, th, a); }
      else { OwnBegin(g, n, t, th, a); }
    }
    else if th.pc.Destroying? {
      if th.pc.d.CloseConn? { OwnClose(g, n, t, th, a); } else { OwnDestroy(g, n, t, th, a); } }
    else if th.pc.Reading? { if th.pc.r.ArmRead? { OwnArmRead(g, n, t, th, a); } else { OwnRead(g, n, t, th, a); } }
    else if th.pc.SettingTimeout? { OwnTimeout(g, n, t, th, a); }
    else { OwnOther(g, n, t, th, a); }
  }

  lemma Others(g: Globals, h: Globals, t: Tid, u: Tid, th: Thread)
    requires Frame(g, h, t) && u != t
    requires Exclusion.L(g, u, th) && L(g, th) && Publication.L(g, th) && Connections.L(g, u, th)
    ensures L(h, th)
  {}

  lemma Preserved(s: Sys, e: Step)
    requires Inv(s) && Enabled(s, e)
    ensures Inv(Apply(s, e))
  {
    hide Local, L, Publication.L, Connections.L, Lifecycle.L, Exclusion.L;
    var s' := Apply(s, e);
    Publication.Preserved(s, e);
    match e
    case ThreadStep(t, a) =>
      assert Pre(s.g, |s.ts|, t, s.ts[t]);
      Keeps(s.g, |s.ts|, t, s.ts[t], a);
      Footprint.Of(s.g, t, s.ts[t], a);
      NewcomersAndActor(s, t, a);
      forall u | 0 <= u < |s'.ts| ensures L(s'.g, s'.ts[u]) {
        if u < |s.ts| && u != t { Others(s.g, s'.g, t, u, s.ts[u]); }
      }
    case EnvStep(_) =>
      EnvKeeps(s, e);
  }

  lemma NewcomersAndActor(s: Sys, t: Tid, a: Action)
    requires Inv(s) && t < |s.ts| && Local(s.g, t, s.ts[t], a).Moved? && Kept(s.g, t, Local(s.g, t, s.ts[t], a))
    ensures var s' := Apply(s, ThreadStep(t, a));
            && G(s'.g) && L(s'.g, s'.ts[t]) && Frame(s.g, s'.g, t)
            && (|s'.ts| > |s.ts| ==> L(s'.g, s'.ts[|s.ts|]))
  {
    hide Local;
    Footprint.Of(s.g, t, s.ts[t], a);
  }

  lemma EnvKeeps(s: Sys, e: Step)
    requires Inv(s) && Enabled(s, e) && e.EnvStep?
    ensures G(Apply(s, e).g)
    ensures forall u :: 0 <= u < |s.ts| ==> L(Apply(s, e).g, s.ts[u])
  {
    hide Local, Env, Publication.Inv;
    Footprint.OfEnv(s.g, e.e);
    forall u | 0 <= u < |s.ts| ensures L(Apply(s, e).g, s.ts[u]) { assert L(s.g, s.ts[u]); }
  }

  lemma {:induction false} Always(tr: seq<Step>)
    requires IsRun(tr)
    ensures Inv(Exec(tr))
  {
    hide Local;
    if tr == [] {
      Publication.Always(tr);
    } else {
      Always(tr[..|tr| - 1]);
      Preserved(Exec(tr[..|tr| - 1]), tr[|tr| - 1]);
    }
  }

  // ---------------------------------------------------------------- the exact condition

  /** The successful SetReadDeadline that step `e` makes on `c`, if any: is it a stale arming? */
  function Update(s: Sys, e: Step, c: ConnId): Option<bool> {
    if e.ThreadStep? && e.t < |s.ts| && e.a == Returned(true) then
      var pc := s.ts[e.t].pc;
      if pc.Connecting? && pc.c.Arm? && pc.c.c == c && s.g.core.timeout > 0 then Some(false)
      else if pc.SettingTimeout? && pc.p.ArmTimeout? && pc.p.c == c then Some(false)
      else if pc.Reading? && pc.r.ArmRead? && pc.r.c == c && pc.r.to > 0 then Some(s.g.core.timeout <= 0)
      else None
    else None
  }

  /** The last successful update of the deadline of `c` was a reader arming it, from a positive snapshot,
      when the timeout was already disabled. */
  ghost predicate StaleArming(tr: seq<Step>, c: ConnId)
    requires IsRun(tr)
  {
    if tr == [] then false
    else
      match Update(Exec(tr[..|tr| - 1]), tr[|tr| - 1], c)
      case Some(stale) => stale
      case None => StaleArming(tr[..|tr| - 1], c)
  }

  lemma StaleConnect(g: Globals, t: Tid, th: Thread, pc: ConnectPc, a: Action, c: ConnId)
    requires ConnectStep(g, t, th, pc, a).Moved? && c < |g.net.conns|
    ensures c < |ConnectStep(g, t, th, pc, a).g.net.conns|
    ensures ConnectStep(g, t, th, pc, a).g.net.conns[c].stale ==
              (g.net.conns[c].stale && !(pc.Arm? && pc.c == c && g.core.timeout > 0 && a == Returned(true)))
  {
    match pc
    case Begin(_) => case Resolve(_) => case Dial(_) => case Handshake(_) => case Publish(_) =>
    case Arm(_) => case Fail(_) => case Unlock(_) => case Spawn => case Count =>
  }

  lemma NewConn(g: Globals, t: Tid, th: Thread, pc: ConnectPc, a: Action)
    requires ConnectStep(g, t, th, pc, a).Moved?
    ensures forall c :: |g.net.conns| <= c < |ConnectStep(g, t, th, pc, a).g.net.conns| ==>
              !ConnectStep(g, t, th, pc, a).g.net.conns[c].stale
    ensures pc.Arm? && g.core.timeout > 0 ==> pc.c < |g.net.conns|
  {
    match pc
    case Begin(_) => case Resolve(_) => case Dial(_) => case Handshake(_) => case Publish(_) =>
    case Arm(_) => case Fail(_) => case Unlock(_) => case Spawn => case Count =>
  }

  lemma StaleOther(g: Globals, t: Tid, th: Thread, a: Action, c: ConnId)
    requires Local(g, t, th, a).Moved? && !th.pc.Connecting?
    ensures |Local(g, t, th, a).g.net.conns| == |g.net.conns|
    ensures c < |g.net.conns| ==>
              Local(g, t, th, a).g.net.conns[c].stale ==
                if th.pc.SettingTimeout? && th.pc.p.ArmTimeout? && th.pc.p.c == c && a == Returned(true) then false
                else if th.pc.Reading? && th.pc.r.ArmRead? && th.pc.r.c == c && th.pc.r.to > 0 && a == Returned(true)
                then g.core.timeout <= 0
                else g.net.conns[c].stale
    ensures th.pc.SettingTimeout? && th.pc.p.ArmTimeout? ==> th.pc.p.c < |g.net.conns|
    ensures th.pc.Reading? && th.pc.r.ArmRead? && th.pc.r.to > 0 ==> th.pc.r.c < |g.net.conns|
  {
    hide ConnectStep, LookupStep, SendStep, ReadStep, WriteStep, ScriptStep, ObserveStep, ReportStep;
    if th.pc.Reading? {
      if th.pc.r.ArmRead? { StaleArm(g, t, th, a, c); } else { NetKept(g, t, th, th.pc.r, a); }
    }
    else if !th.pc.Destroying? && !th.pc.SettingTimeout? { Footprint.Of(g, t, th, a); }
  }

  lemma StaleArm(g: Globals, t: Tid, th: Thread, a: Action, c: ConnId)
    requires th.pc.Reading? && th.pc.r.ArmRead? && ReadStep(g, t, th, th.pc.r, a).Moved?
    ensures var net := ReadStep(g, t, th, th.pc.r, a).g.net;
            |net.conns| == |g.net.conns| &&
            (c < |g.net.conns| ==>
               net.conns[c].stale ==
               (if th.pc.r.c == c && th.pc.r.to > 0 && a == Returned(true) then g.core.timeout <= 0
                else g.net.conns[c].stale))
    ensures th.pc.r.to > 0 ==> th.pc.r.c < |g.net.conns|
  {}

  lemma StaleStep(s: Sys, e: Step, c: ConnId)
    requires Enabled(s, e)
    ensures var net := Apply(s, e).g.net;
            (c < |net.conns| && net.conns[c].stale) ==
              match Update(s, e, c) case Some(b) => b case None => c < |s.g.net.conns| && s.g.net.conns[c].stale
  {
    hide ConnectStep, LookupStep, SendStep, ReadStep, DestroyStep, WriteStep, ScriptStep, TimeoutStep, ObserveStep,
      ReportStep;
    if e.ThreadStep? {
      var th := s.ts[e.t];
      if th.pc.Connecting? {
        NewConn(s.g, e.t, th, th.pc.c, e.a);
        if c < |s.g.net.conns| { StaleConnect(s.g, e.t, th, th.pc.c, e.a, c); }
      } else { StaleOther(s.g, e.t, th, e.a, c); }
    }
  }

  lemma {:induction false} StaleMeans(tr: seq<Step>, c: ConnId)
    requires IsRun(tr)
    ensures (c < |Exec(tr).g.net.conns| && Exec(tr).g.net.conns[c].stale) == StaleArming(tr, c)
  {
    hide Local, Update;
    if tr != [] {
      StaleMeans(tr[..|tr| - 1], c);
      StaleStep(Exec(tr[..|tr| - 1]), tr[|tr| - 1], c);
    }
  }

  /**
   * Whenever the lock is free and no SetReadDeadline has failed, the current connection has a deadline
   * exactly when the timeout is positive, if and only if its last deadline update was not a stale arming.
   */
  lemma {:induction false} DeadlineFollowsTimeout(tr: seq<Step>, c: ConnId)
    requires IsRun(tr) && LockFree(Exec(tr).g) && !SomeStep(tr, FailsToArm) && Exec(tr).g.core.conn == Some(c)
    ensures c < |Exec(tr).g.net.conns|
    ensures Exec(tr).g.net.conns[c].deadline == (Exec(tr).g.core.timeout > 0) <==> !StaleArming(tr, c)
  {
    hide Local, SomeStep;
    Always(tr);
    FlagsMean(tr);
    StaleMeans(tr, c);
  }

  // ---------------------------------------------------------------- without any hypothesis on failures

  /** What a successful SetReadDeadline made on `c` by step `e`, if any, sets its deadline to. */
  function Sets(s: Sys, e: Step, c: ConnId): Option<bool> {
    if e.ThreadStep? && e.t < |s.ts| && e.a == Returned(true) then
      var pc := s.ts[e.t].pc;
      if pc.Connecting? && pc.c.Arm? && pc.c.c == c && s.g.core.timeout > 0 then Some(true)
      else if pc.SettingTimeout? && pc.p.ArmTimeout? && pc.p.c == c then Some(TimeoutFor(pc.ms) > 0)
      else if pc.Reading? && pc.r.ArmRead? && pc.r.c == c && pc.r.to > 0 then Some(true)
      else None
    else None
  }

  /** The last successful SetReadDeadline on `c` set a deadline. */
  ghost predicate Armed(tr: seq<Step>, c: ConnId)
    requires IsRun(tr)
  {
    if tr == [] then false
    else
      match Sets(Exec(tr[..|tr| - 1]), tr[|tr| - 1], c)
      case Some(on) => on
      case None => Armed(tr[..|tr| - 1], c)
  }

  lemma DeadlineConnect(g: Globals, t: Tid, th: Thread, pc: ConnectPc, a: Action, c: ConnId)
    requires ConnectStep(g, t, th, pc, a).Moved?
    ensures var h := ConnectStep(g, t, th, pc, a).g;
            (c < |h.net.conns| && h.net.conns[c].deadline) ==
              ((c < |g.net.conns| && g.net.conns[c].deadline) ||
               (pc.Arm? && pc.c == c && g.core.timeout > 0 && a == Returned(true)))
  {
    match pc
    case Begin(_) => case Resolve(_) => case Dial(_) => case Handshake(_) => case Publish(_) =>
    case Arm(_) => case Fail(_) => case Unlock(_) => case Spawn => case Count =>
  }

  lemma DeadlineRead(g: Globals, t: Tid, th: Thread, pc: ReadPc, a: Action, c: ConnId)
    requires ReadStep(g, t, th, pc, a).Moved?
    ensures var h := ReadStep(g, t, th, pc, a).g;
            (c < |h.net.conns| && h.net.conns[c].deadline) ==
              ((c < |g.net.conns| && g.net.conns[c].deadline) ||
               (pc.ArmRead? && pc.c == c && pc.to > 0 && a == Returned(true)))
  {
    match pc
    case Head => case Snap => case ArmRead(_, _) => case CallRead(_) => case PushRead(_, _, _) =>
    case AddRead(_, _, _) => case CopyRead(_, _, _) => case Test(_, _) =>
  }

  lemma DeadlineSection(g: Globals, t: Tid, th: Thread, a: Action, c: ConnId)
    requires (th.pc.Destroying? || th.pc.SettingTimeout?) && Local(g, t, th, a).Moved?
    ensures var h := Local(g, t, th, a).g;
            (c < |h.net.conns| && h.net.conns[c].deadline) ==
              if th.pc.SettingTimeout? && th.pc.p.ArmTimeout? && th.pc.p.c == c && a == Returned(true)
              then g.core.timeout > 0
              else c < |g.net.conns| && g.net.conns[c].deadline
  {
    hide ConnectStep, LookupStep, SendStep, ReadStep, WriteStep, ScriptStep, ObserveStep, ReportStep;
  }

  lemma DeadlineStep(s: Sys, e: Step, c: ConnId)
    requires Lifecycle.Inv(s) && Enabled(s, e)
    ensures var net := Apply(s, e).g.net;
            (c < |net.conns| && net.conns[c].deadline) ==
              match Sets(s, e, c) case Some(on) => on case None => c < |s.g.net.conns| && s.g.net.conns[c].deadline
  {
    hide ConnectStep, LookupStep, SendStep, ReadStep, DestroyStep, WriteStep, ScriptStep, TimeoutStep, ObserveStep,
      ReportStep, TimeoutFor;
    if e.ThreadStep? {
      var th := s.ts[e.t];
      assert Exclusion.L(s.g, e.t, th) && Lifecycle.L(s.g, th);
      if th.pc.Connecting? { DeadlineConnect(s.g, e.t, th, th.pc.c, e.a, c); }
      else if th.pc.Reading? { DeadlineRead(s.g, e.t, th, th.pc.r, e.a, c); }
      else if th.pc.Destroying? || th.pc.SettingTimeout? { DeadlineSection(s.g, e.t, th, e.a, c); }
      else { Footprint.Of(s.g, e.t, th, e.a); }
    }
  }

  /** In every run a connection has a deadline exactly when its last successful SetReadDeadline set one. */
  lemma {:induction false} DeadlineIsLastSet(tr: seq<Step>, c: ConnId)
    requires IsRun(tr)
    ensures (c < |Exec(tr).g.net.conns| && Exec(tr).g.net.conns[c].deadline) == Armed(tr, c)
  {
    hide Local, Sets;
    if tr != [] {
      DeadlineIsLastSet(tr[..|tr| - 1], c);
      Lifecycle.Always(tr[..|tr| - 1]);
      DeadlineStep(Exec(tr[..|tr| - 1]), tr[|tr| - 1], c);
    }
  }

  /**
   * In every run, whatever has failed, with the lock free: a connection has a deadline exactly when the
   * timeout is positive, if and only if its last successful SetReadDeadline set one exactly when the last
   * setTimeout asked for one.
   */
  lemma {:induction false} DeadlineFollowsTimeoutIff(tr: seq<Step>, c: ConnId)
    requires IsRun(tr) && LockFree(Exec(tr).g) && c < |Exec(tr).g.net.conns|
    ensures Exec(tr).g.net.conns[c].deadline == (Exec(tr).g.core.timeout > 0) <==>
            Armed(tr, c) == (LastTimeout(Lifecycle.Ops(tr)) > 0)
  {
    hide Local, Exec, Armed, DoAll;
    DeadlineIsLastSet(tr, c);
    Lifecycle.FreeIsAtomic(tr);
    TimeoutIsLast(Lifecycle.Ops(tr));
  }

  // ---------------------------------------------------------------- no timeout without setTimeout

  predicate TimesOut(pc: Pc) {
    || (pc.Reading? && pc.r.ArmRead? && pc.r.to > 0)
    || (pc.Reading? && (pc.r.PushRead? || pc.r.AddRead? || pc.r.CopyRead? || pc.r.Test?) && pc.r.err.TimedOut?)
    || (pc.Firing? && (pc.call.OnTimeout? || (pc.call.OnData? && pc.call.err.TimedOut?)))
  }

  ghost predicate Untimed(g: Globals) {
    && g.core.timeout <= 0
    && (forall c :: 0 <= c < |g.net.conns| ==> !g.net.conns[c].deadline)
    && (forall i :: 0 <= i < |g.ev.accepted| ==> !g.ev.accepted[i].call.OnTimeout?)
  }

  lemma UntimedConnect(g: Globals, t: Tid, th: Thread, pc: ConnectPc, a: Action)
    requires Untimed(g) && ConnectStep(g, t, th, pc, a).Moved?
    ensures Untimed(ConnectStep(g, t, th, pc, a).g)
  {
    match pc
    case Begin(_) => case Resolve(_) => case Dial(_) => case Handshake(_) => case Publish(_) =>
    case Arm(_) => case Fail(_) => case Unlock(_) => case Spawn => case Count =>
  }

  lemma UntimedRead(g: Globals, t: Tid, th: Thread, pc: ReadPc, a: Action)
    requires Untimed(g) && ReadStep(g, t, th, pc, a).Moved? && !TimesOut(Reading(pc))
    ensures Untimed(ReadStep(g, t, th, pc, a).g) && !TimesOut(ReadStep(g, t, th, pc, a).th.pc)
  {
    match pc
    case Head => case Snap => case ArmRead(_, _) => case CallRead(_) => case PushRead(_, _, _) =>
    case AddRead(_, _, _) => case CopyRead(_, _, _) => case Test(_, _) =>
  }

  lemma UntimedFire(g: Globals, t: Tid, th: Thread, a: Action)
    requires Untimed(g) && !TimesOut(th.pc) && Local(g, t, th, a).Moved? && th.pc.Firing?
    ensures Untimed(Local(g, t, th, a).g) && !TimesOut(Local(g, t, th, a).th.pc)
  {
    hide ConnectStep, ReadStep, WriteStep, ScriptStep, ObserveStep, ReportStep, DestroyStep, TimeoutStep;
    match th.pc.call
    case OnConnect => case OnData(_, _, _, _, _) => case OnTimeout(_) => case OnClose(_) => case OnError(_) =>
  }

  lemma UntimedOther(g: Globals, t: Tid, th: Thread, a: Action)
    requires Untimed(g) && !TimesOut(th.pc) && Local(g, t, th, a).Moved?
    requires !th.pc.Connecting? && !th.pc.Reading? && !th.pc.Firing?
    requires !Local(g, t, th, a).g.life.positive
    ensures Untimed(Local(g, t, th, a).g) && !TimesOut(Local(g, t, th, a).th.pc)
  {
    hide ConnectStep, ReadStep, WriteStep, ScriptStep, ObserveStep, ReportStep, LookupStep, SendStep;
    Footprint.Of(g, t, th, a);
    if th.pc.Script? { Footprint.ScriptEvents(g, th, a.op); }
    else if th.pc.SettingTimeout? { match th.pc.p case LockTimeout => case ArmTimeout(_) => case UnlockTimeout => }
    else if th.pc.Destroying? {
      match th.pc.d
      case EnterOnce => case Swap => case CloseConn(_) => case PushDuration => case Cancel => case LeaveOnce =>
    }
  }

  lemma {:induction false} Untroubled(tr: seq<Step>)
    requires IsRun(tr) && !Exec(tr).g.life.positive
    ensures Untimed(Exec(tr).g)
    ensures forall t :: 0 <= t < |Exec(tr).ts| ==> !TimesOut(Exec(tr).ts[t].pc)
  {
    hide ConnectStep, LookupStep, SendStep, ReadStep, DestroyStep, WriteStep, ScriptStep, TimeoutStep, ObserveStep,
      ReportStep;
    if tr != [] {
      var s, e := Exec(tr[..|tr| - 1]), tr[|tr| - 1];
      FlagsStep(s, e);
      Untroubled(tr[..|tr| - 1]);
      if e.ThreadStep? {
        var th := s.ts[e.t];
        Footprint.Of(s.g, e.t, th, e.a);
        if th.pc.Connecting? { UntimedConnect(s.g, e.t, th, th.pc.c, e.a); }
        else if th.pc.Reading? { UntimedRead(s.g, e.t, th, th.pc.r, e.a); }
        else if th.pc.Firing? { UntimedFire(s.g, e.t, th, e.a); }
        else { UntimedOther(s.g, e.t, th, e.a); }
      }
    }
  }

  /** In a run in which no setTimeout stores a positive timeout, no timeout event is ever accepted. */
  lemma {:induction false} NoTimeoutEvents(tr: seq<Step>)
    requires IsRun(tr) && !SomeStep(tr, SetsPositive)
    ensures forall i :: 0 <= i < |Exec(tr).g.ev.accepted| ==> !Exec(tr).g.ev.accepted[i].call.OnTimeout?
  {
    hide Local, SomeStep;
    FlagsMean(tr);
    Untroubled(tr);
  }
}
