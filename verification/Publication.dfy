/**
 * When a connection becomes visible to other threads: a connect goroutine keeps a new connection to
 * itself until it releases the lock, and readers only ever hold connections released that way.
 */
module Publication {
  import opened Basics
  import opened SocketMachine
  import Footprint
  import Exclusion
  import Lifecycle
  import Connections

  /** Published by this thread, lock not yet released. */
  predicate JustPublished(pc: Pc) {
    pc.Connecting? && (pc.c.Arm? || pc.c.Unlock? || (pc.c.Fail? && pc.c.pub.Some?))
  }

  function Own(pc: Pc): ConnId
    requires JustPublished(pc)
  {
    if pc.c.Fail? then pc.c.pub.value else pc.c.c
  }

  predicate IsShown(net: Net, c: ConnId) { c < |net.conns| && net.conns[c].shown }

  predicate CurrentShown(g: Globals) { g.core.conn.Some? ==> IsShown(g.net, g.core.conn.value) }

  ghost predicate G(g: Globals) {
    && (LockFree(g) ==> CurrentShown(g))
    && (forall c :: 0 <= c < |g.net.conns| && g.net.conns[c].loc.InFlight? ==> !g.net.conns[c].shown)
  }

  ghost predicate L(g: Globals, th: Thread) {
    && (JustPublished(th.pc) ==> !IsShown(g.net, Own(th.pc)))
    && (Exclusion.HoldsLock(th.pc) && !JustPublished(th.pc) ==> CurrentShown(g))
    && (th.pc.Reading? && (th.pc.r.ArmRead? || th.pc.r.CallRead?) ==> IsShown(g.net, th.pc.r.c))
  }

  ghost predicate Inv(s: Sys) {
    Connections.Inv(s) && G(s.g) && forall t :: 0 <= t < |s.ts| ==> L(s.g, s.ts[t])
  }

  /** Visibility is given only by the lock holder, and never taken back. */
  ghost predicate Frame(g: Globals, h: Globals, t: Tid) {
    && |g.net.conns| <= |h.net.conns|
    && (forall c :: 0 <= c < |g.net.conns| && g.net.conns[c].shown ==> h.net.conns[c].shown)
    && (g.lock.holder != Some(t) ==>
          forall c :: 0 <= c < |g.net.conns| ==> h.net.conns[c].shown == g.net.conns[c].shown)
  }

  ghost predicate Kept(g: Globals, t: Tid, o: Outcome) { o.Moved? ==> G(o.g) && L(o.g, o.th) && Frame(g, o.g, t) }

  ghost predicate Pre(g: Globals, n: nat, t: Tid, th: Thread) { Connections.Pre(g, n, t, th) && G(g) && L(g, th) }

  lemma Unfold(g: Globals, n: nat, t: Tid, th: Thread)
    requires Connections.Pre(g, n, t, th)
    ensures Exclusion.L(g, t, th)
  {}

  lemma OwnBegin(g: Globals, n: nat, t: Tid, th: Thread, a: Action)
    requires Pre(g, n, t, th) && th.pc.Connecting?
    requires th.pc.c.Begin? || th.pc.c.Resolve? || th.pc.c.Spawn? || th.pc.c.Count? || th.pc.c == Fail(None)
    ensures Kept(g, t, ConnectStep(g, t, th, th.pc.c, a))
  {
    hide Connections.Pre;
    assert Exclusion.L(g, t, th) by { Unfold(g, n, t, th); }
    match th.pc.c case Begin(_) => case Resolve(_) => case Spawn => case Count => case Fail(_) => case _ =>
  }

  lemma OwnDial(g: Globals, n: nat, t: Tid, th: Thread, a: Action)
    requires Pre(g, n, t, th) && th.pc.Connecting? && th.pc.c.Dial?
    ensures Kept(g, t, ConnectStep(g, t, th, th.pc.c, a))
  {
    hide Connections.Pre;
    assert Exclusion.L(g, t, th) by { Unfold(g, n, t, th); }
  }

  lemma OwnHandshake(g: Globals, n: nat, t: Tid, th: Thread, a: Action)
    requires Pre(g, n, t, th) && th.pc.Connecting? && th.pc.c.Handshake?
    ensures Kept(g, t, ConnectStep(g, t, th, th.pc.c, a))
  {
    hide Exclusion.RolePc, Lifecycle.G, Lifecycle.L;
    assert Connections.Located(g, th.pc.c.c);
  }

  lemma OwnPublish(g: Globals, n: nat, t: Tid, th: Thread, a: Action)
    requires Pre(g, n, t, th) && th.pc.Connecting? && th.pc.c.Publish?
    ensures Kept(g, t, ConnectStep(g, t, th, th.pc.c, a))
  {
    hide Exclusion.RolePc, Lifecycle.G, Lifecycle.L;
    assert Connections.Located(g, th.pc.c.c);
  }

  lemma OwnArm(g: Globals, n: nat, t: Tid, th: Thread, a: Action)
    requires Pre(g, n, t, th) && th.pc.Connecting? && th.pc.c.Arm?
    ensures Kept(g, t, ConnectStep(g, t, th, th.pc.c, a))
  {
    assert Connections.Located(g, th.pc.c.c);
  }

  lemma OwnRelease(g: Globals, n: nat, t: Tid, th: Thread, a: Action)
    requires Pre(g, n, t, th) && JustPublished(th.pc) && !th.pc.c.Arm?
    ensures Kept(g, t, ConnectStep(g, t, th, th.pc.c, a))
  {
    assert Connections.Known(|g.net.conns|, th.pc);
    assert Connections.Located(g, Own(th.pc));
    match th.pc.c case Fail(_) => case Unlock(_) => case _ =>
  }

  lemma OwnDestroy(g: Globals, n: nat, t: Tid, th: Thread, a: Action)
    requires Pre(g, n, t, th) && th.pc.Destroying?
    ensures Kept(g, t, DestroyStep(g, t, th, th.pc.ret, th.pc.d, a))
  {
    hide Connections.Pre;
    match th.pc.d
    case EnterOnce => case Swap => case CloseConn(_) => case PushDuration => case Cancel => case LeaveOnce =>
  }

  lemma OwnTimeout(g: Globals, n: nat, t: Tid, th: Thread, a: Action)
    requires Pre(g, n, t, th) && th.pc.SettingTimeout?
    ensures Kept(g, t, TimeoutStep(g, t, th, th.pc.ms, th.pc.p, a))
  {
    match th.pc.p case LockTimeout => case ArmTimeout(_) => case UnlockTimeout =>
  }

  lemma ShownRead(g: Globals, t: Tid, th: Thread, pc: ReadPc, a: Action)
    requires ReadStep(g, t, th, pc, a).Moved?
    ensures |ReadStep(g, t, th, pc, a).g.net.conns| == |g.net.conns|
    ensures forall c :: 0 <= c < |g.net.conns| ==>
              && ReadStep(g, t, th, pc, a).g.net.conns[c].shown == g.net.conns[c].shown
              && ReadStep(g, t, th, pc, a).g.net.conns[c].loc == g.net.conns[c].loc
  {
    match pc
    case Head => case Snap => case ArmRead(_, _) => case CallRead(_) => case PushRead(_, _, _) =>
    case AddRead(_, _, _) => case CopyRead(_, _, _) => case Test(_, _) =>
  }

  lemma HeldRead(g: Globals, t: Tid, th: Thread, pc: ReadPc, a: Action)
    requires ReadStep(g, t, th, pc, a).Moved? && G(g)
    requires pc.ArmRead? || pc.CallRead? ==> IsShown(g.net, pc.c)
    ensures var pc' := ReadStep(g, t, th, pc, a).th.pc;
            pc'.Reading? && (pc'.r.ArmRead? || pc'.r.CallRead?) ==> IsShown(g.net, pc'.r.c)
  {
    match pc
    case Head => case Snap => case ArmRead(_, _) => case CallRead(_) => case PushRead(_, _, _) =>
    case AddRead(_, _, _) => case CopyRead(_, _, _) => case Test(_, _) =>
  }

  lemma OwnRead(g: Globals, n: nat, t: Tid, th: Thread, a: Action)
    requires Pre(g, n, t, th) && th.pc.Reading?
    ensures Kept(g, t, ReadStep(g, t, th, th.pc.r, a))
  {
    hide ReadStep, Connections.Pre;
    if ReadStep(g, t, th, th.pc.r, a).Moved? {
      Footprint.Reads(g, t, th, a);
      ShownRead(g, t, th, th.pc.r, a);
      HeldRead(g, t, th, th.pc.r, a);
    }
  }

  lemma OwnOther(g: Globals, n: nat, t: Tid, th: Thread, a: Action)
    requires Pre(g, n, t, th)
    requires !th.pc.Connecting? && !th.pc.Destroying? && !th.pc.Reading? && !th.pc.SettingTimeout?
    ensures Kept(g, t, Local(g, t, th, a))
  {
    hide Local, Connections.Pre;
    Footprint.Of(g, t, th, a);
  }

  lemma Keeps(g: Globals, n: nat, t: Tid, th: Thread, a: Action)
    requires Pre(g, n, t, th)
    ensures Kept(g, t, Local(g, t, th, a))
  {
    hide ConnectStep, LookupStep, SendStep, ReadStep, DestroyStep, WriteStep, ScriptStep, TimeoutStep, ObserveStep,
      ReportStep, Kept;
    if th.pc.Connecting? {
      if th.pc.c.Arm? { OwnArm(g, n, t, th, a); }
      else if JustPublished(th.pc) { OwnRelease(g, n, t, th, a); }
      else if th.pc.c.Dial? { OwnDial(g, n, t, th, a); }
      else if th.pc.c.Handshake? { OwnHandshake(g, n, t, th, a); }
      else if th.pc.c.Publish? { OwnPublish(g, n, t, th, a); }
      else { OwnBegin(g, n, t, th, a); }
    }
    else if th.pc.Destroying? { OwnDestroy(g, n, t, th, a); }
    else if th.pc.Reading? { OwnRead(g, n, t, th, a); }
    else if th.pc.SettingTimeout? { OwnTimeout(g, n, t, th, a); }
    else { OwnOther(g, n, t, th, a); }
  }

  lemma Others(g: Globals, h: Globals, t: Tid, u: Tid, th: Thread)
    requires Frame(g, h, t) && Lifecycle.Frame(g, h, t) && u != t
    requires Exclusion.L(g, u, th) && L(g, th) && Connections.L(g, u, th)
    ensures L(h, th)
  {}

  lemma Preserved(s: Sys, e: Step)
    requires Inv(s) && Enabled(s, e)
    ensures Inv(Apply(s, e))
  {
    hide Local, L, Connections.L, Lifecycle.L, Exclusion.L;
    var s' := Apply(s, e);
    Connections.Preserved(s, e);
    match e
    case ThreadStep(t, a) =>
      assert Pre(s.g, |s.ts|, t, s.ts[t]);
      Keeps(s.g, |s.ts|, t, s.ts[t], a);
      Lifecycle.Own(s.g, |s.ts|, t, s.ts[t], a);
      Footprint.Of(s.g, t, s.ts[t], a);
      NewcomersAndActor(s, t, a);
      forall u | 0 <= u < |s'.ts| ensures L(s'.g, s'.ts[u]) {
        if u < |s.ts| && u != t { Others(s.g, s'.g, t, u, s.ts[u]); }
      }
    case EnvStep(_) =>
      EnvKeeps(s, e);
  }

  lemma NewcomersAndActor(s: Sys, t: Tid, a: Action)
    requires Inv(s) && t < |s.ts| && Local(s.g, t, s.ts[t], a).Moved? && Kept(s.g, t, Local(s.g, t, s.ts[t], a))
    ensures var s' := Apply(s, ThreadStep(t, a));
            && G(s'.g) && L(s'.g, s'.ts[t]) && Frame(s.g, s'.g, t)
            && (|s'.ts| > |s.ts| ==> L(s'.g, s'.ts[|s.ts|]))
  {
    hide Local;
    Footprint.Of(s.g, t, s.ts[t], a);
  }

  lemma EnvKeeps(s: Sys, e: Step)
    requires Inv(s) && Enabled(s, e) && e.EnvStep?
    ensures G(Apply(s, e).g)
    ensures forall u :: 0 <= u < |s.ts| ==> L(Apply(s, e).g, s.ts[u])
  {
    forall u | 0 <= u < |s.ts| ensures L(Apply(s, e).g, s.ts[u]) { assert L(s.g, s.ts[u]); }
  }

  lemma {:induction false} Always(tr: seq<Step>)
    requires IsRun(tr)
    ensures Inv(Exec(tr))
  {
    hide Local;
    if tr == [] {
      Connections.Always(tr);
    } else {
      Always(tr[..|tr| - 1]);
      Preserved(Exec(tr[..|tr| - 1]), tr[|tr| - 1]);
    }
  }
}
