/**
 * Every dialled connection is accounted for: it is in flight in one connect goroutine, current, taken
 * by teardown, closed, or lost.  No connection is ever closed twice, and after teardown all of them are
 * closed exactly once unless one was published over another or after teardown had taken its own.
 */
module Connections {
  import opened Basics
  import opened SocketMachine
  import opened Runs
  import Footprint
  import Exclusion
  import Lifecycle

  /** The connection a connect goroutine has dialled and not yet published. */
  predicate Carries(pc: Pc, c: ConnId) {
    pc.Connecting? && ((pc.c.Handshake? && pc.c.c == c) || (pc.c.Publish? && pc.c.c == c))
  }

  /** The connection teardown has taken and not yet closed. */
  predicate Closing(pc: Pc, c: ConnId) { pc.Destroying? && pc.d.CloseConn? && pc.d.c == c }

  /** The connection a thread refers to, if any, has been dialled. */
  predicate Known(n: nat, pc: Pc) {
    && (pc.Connecting? ==>
          && (pc.c.Handshake? || pc.c.Publish? || pc.c.Arm? || pc.c.Unlock? ==> pc.c.c < n)
          && (pc.c.Fail? && pc.c.pub.Some? ==> pc.c.pub.value < n))
    && (pc.Reading? && (pc.r.ArmRead? || pc.r.CallRead?) ==> pc.r.c < n)
    && (pc.Destroying? && pc.d.CloseConn? ==> pc.d.c < n)
    && (pc.SettingTimeout? && pc.p.ArmTimeout? ==> pc.p.c < n)
  }

  ghost predicate Leaked(g: Globals, c: ConnId) {
    c < |g.net.conns| && (g.net.conns[c].loc.Lost? || (g.life.swapped && g.net.conns[c].loc.Current?))
  }

  ghost predicate Located(g: Globals, c: ConnId)
    requires c < |g.net.conns|
  {
    var k := g.net.conns[c];
    && k.closes == (if k.loc.Closed? then 1 else 0)
    && (k.loc.Current? <==> g.core.conn == Some(c))
    && (k.loc.InFlight? ==> g.lock.holder == Some(k.loc.t))
    && (k.loc.Teardown? ==> g.once == Running(k.loc.who))
    && (k.loc.Lost? ==> g.life.leaks)
  }

  ghost predicate G(g: Globals) {
    && (forall c :: 0 <= c < |g.net.conns| ==> Located(g, c))
    && (g.core.conn.Some? ==> g.core.conn.value < |g.net.conns|)
    && (g.life.swapped && !g.life.leaks ==> g.core.conn.None?)
    && (g.life.leaks ==> exists c :: Leaked(g, c))
  }

  ghost predicate L(g: Globals, t: Tid, th: Thread) {
    && Known(|g.net.conns|, th.pc)
    && (forall c :: 0 <= c < |g.net.conns| ==> (g.net.conns[c].loc == InFlight(t) <==> Carries(th.pc, c)))
    && (forall c :: 0 <= c < |g.net.conns| ==> (g.net.conns[c].loc == Teardown(t) <==> Closing(th.pc, c)))
  }

  ghost predicate Inv(s: Sys) {
    Lifecycle.Inv(s) && G(s.g) && forall t :: 0 <= t < |s.ts| ==> L(s.g, t, s.ts[t])
  }

  /** A step moves connections only into and out of the acting thread's hands. */
  ghost predicate Frame(g: Globals, h: Globals, t: Tid) {
    && |g.net.conns| <= |h.net.conns|
    && (forall c :: 0 <= c < |h.net.conns| ==>
          if c < |g.net.conns| then Passes(g.net.conns[c].loc, h.net.conns[c].loc, t)
          else h.net.conns[c].loc == InFlight(t))
  }

  predicate Passes(a: ConnLoc, b: ConnLoc, t: Tid) {
    || a == b
    || (a == InFlight(t) && (b == Current || b == Closed))
    || (a == Current && (b == Teardown(t) || b == Lost))
    || (a == Teardown(t) && b == Closed)
  }

  ghost predicate Kept(g: Globals, t: Tid, o: Outcome) {
    o.Moved? ==> G(o.g) && L(o.g, t, o.th) && Frame(g, o.g, t)
  }

  ghost predicate Pre(g: Globals, n: nat, t: Tid, th: Thread) {
    Lifecycle.Pre(g, n, t, th) && G(g) && L(g, t, th)
  }

  /** Only deadlines differ. */
  ghost predicate SamePlaces(a: Net, b: Net) {
    |a.conns| == |b.conns| &&
    forall c :: 0 <= c < |a.conns| ==> a.conns[c].loc == b.conns[c].loc && a.conns[c].closes == b.conns[c].closes
  }

  lemma SamePlacesKept(g: Globals, h: Globals)
    requires G(g) && SamePlaces(g.net, h.net)
    requires h.core.conn == g.core.conn && h.life.swapped == g.life.swapped && h.life.leaks == g.life.leaks
    requires forall c :: 0 <= c < |g.net.conns| ==>
               && (g.net.conns[c].loc.InFlight? ==> h.lock.holder == g.lock.holder)
               && (g.net.conns[c].loc.Teardown? ==> h.once == g.once)
    ensures G(h)
  {
    forall c | 0 <= c < |h.net.conns| ensures Located(h, c) { assert Located(g, c); }
    if h.life.leaks {
      var c :| Leaked(g, c);
      assert Leaked(h, c);
    }
  }

  lemma PlacesRead(g: Globals, t: Tid, th: Thread, pc: ReadPc, a: Action)
    requires ReadStep(g, t, th, pc, a).Moved?
    ensures SamePlaces(g.net, ReadStep(g, t, th, pc, a).g.net)
  {
    match pc
    case Head => case Snap => case ArmRead(_, _) => case CallRead(_) => case PushRead(_, _, _) =>
    case AddRead(_, _, _) => case CopyRead(_, _, _) => case Test(_, _) =>
  }

  lemma PlacesTimeout(g: Globals, t: Tid, th: Thread, ms: int, pc: TimeoutPc, a: Action)
    requires TimeoutStep(g, t, th, ms, pc, a).Moved?
    ensures SamePlaces(g.net, TimeoutStep(g, t, th, ms, pc, a).g.net)
  {
    match pc case LockTimeout => case ArmTimeout(_) => case UnlockTimeout =>
  }

  /** The connect steps that leave every connection where it is. */
  predicate Settles(pc: ConnectPc) {
    pc.Begin? || pc.Resolve? || pc.Arm? || pc.Fail? || pc.Unlock? || pc.Spawn? || pc.Count?
  }

  lemma PlacesConnect(g: Globals, t: Tid, th: Thread, pc: ConnectPc, a: Action)
    requires ConnectStep(g, t, th, pc, a).Moved? && Settles(pc)
    ensures SamePlaces(g.net, ConnectStep(g, t, th, pc, a).g.net)
    ensures ConnectStep(g, t, th, pc, a).g.core.conn == g.core.conn
    ensures ConnectStep(g, t, th, pc, a).g.life.leaks == g.life.leaks
  {
    match pc
    case Begin(_) => case Resolve(_) => case Dial(_) => case Handshake(_) => case Publish(_) =>
    case Arm(_) => case Fail(_) => case Unlock(_) => case Spawn => case Count =>
  }

  lemma AfterConnect(g: Globals, t: Tid, th: Thread, pc: ConnectPc, a: Action)
    requires ConnectStep(g, t, th, pc, a).Moved? && Settles(pc) && Known(|g.net.conns|, Connecting(pc))
    ensures var pc' := ConnectStep(g, t, th, pc, a).th.pc;
            Known(|g.net.conns|, pc') && forall c :: !Carries(pc', c) && !Closing(pc', c)
  {
    match pc
    case Begin(_) => case Resolve(_) => case Dial(_) => case Handshake(_) => case Publish(_) =>
    case Arm(_) => case Fail(_) => case Unlock(_) => case Spawn => case Count =>
  }

  lemma OwnSettles(g: Globals, n: nat, t: Tid, th: Thread, a: Action)
    requires Pre(g, n, t, th) && th.pc.Connecting? && Settles(th.pc.c)
    ensures Kept(g, t, ConnectStep(g, t, th, th.pc.c, a))
  {
    hide ConnectStep;
    var o := ConnectStep(g, t, th, th.pc.c, a);
    if o.Moved? {
      PlacesConnect(g, t, th, th.pc.c, a);
      AfterConnect(g, t, th, th.pc.c, a);
      LifeConnect(g, t, th, th.pc.c, a);
      Footprint.Connects(g, t, th, a);
      if LockFree(g) || th.pc.c.Spawn? || th.pc.c.Count? || th.pc.c.Begin? { HolderMoves(g, t, th, a); }
      forall c | 0 <= c < |g.net.conns|
        ensures g.net.conns[c].loc.InFlight? ==> o.g.lock.holder == g.lock.holder
      {
        assert Located(g, c);
        if g.net.conns[c].loc.InFlight? { assert !Carries(th.pc, c); HolderMoves(g, t, th, a); }
      }
      SamePlacesKept(g, o.g);
    }
  }

  /** Only the holder gives the lock back, and only a free lock is taken. */
  lemma HolderMoves(g: Globals, t: Tid, th: Thread, a: Action)
    requires th.pc.Connecting? && ConnectStep(g, t, th, th.pc.c, a).Moved?
    requires Exclusion.HoldsLock(th.pc) <==> g.lock.holder == Some(t)
    ensures var h := ConnectStep(g, t, th, th.pc.c, a).g;
            h.lock.holder == g.lock.holder || g.lock.holder.None? || g.lock.holder == Some(t)
  {
    match th.pc.c
    case Begin(_) => case Resolve(_) => case Dial(_) => case Handshake(_) => case Publish(_) =>
    case Arm(_) => case Fail(_) => case Unlock(_) => case Spawn => case Count =>
  }

  lemma Holds(g: Globals, n: nat, t: Tid, th: Thread)
    requires Lifecycle.Pre(g, n, t, th)
    ensures Exclusion.HoldsLock(th.pc) ==> g.lock.holder == Some(t)
  {}

  lemma OwnDial(g: Globals, n: nat, t: Tid, th: Thread, a: Action)
    requires Pre(g, n, t, th) && th.pc.Connecting? && th.pc.c.Dial?
    ensures Kept(g, t, ConnectStep(g, t, th, th.pc.c, a))
  {
    hide Lifecycle.Pre;
    Holds(g, n, t, th);
    var o := ConnectStep(g, t, th, th.pc.c, a);
    if o.Moved? {
      forall c | 0 <= c < |o.g.net.conns| ensures Located(o.g, c) {
        if c < |g.net.conns| { assert Located(g, c); }
      }
      if g.life.leaks { var c :| Leaked(g, c); assert Leaked(o.g, c); }
    }
  }

  /** A thread closes the connection in its hands. */
  lemma ShutKeeps(g: Globals, h: Globals, c: ConnId, t: Tid)
    requires G(g) && c < |g.net.conns| && (g.net.conns[c].loc == InFlight(t) || g.net.conns[c].loc == Teardown(t))
    requires h.net == Shut(g.net, c) && h.core == g.core && h.lock == g.lock && h.once == g.once && h.life == g.life
    ensures G(h) && Frame(g, h, t)
  {
    assert Located(g, c);
    forall d | 0 <= d < |h.net.conns| ensures Located(h, d) { assert Located(g, d); }
    if g.life.leaks { var d :| Leaked(g, d); assert Leaked(h, d); }
  }

  lemma OwnHandshake(g: Globals, n: nat, t: Tid, th: Thread, a: Action)
    requires Pre(g, n, t, th) && th.pc.Connecting? && th.pc.c.Handshake?
    ensures Kept(g, t, ConnectStep(g, t, th, th.pc.c, a))
  {
    hide Lifecycle.Pre, G, Frame;
    var o := ConnectStep(g, t, th, th.pc.c, a);
    if o.Moved? {
      if a.ok { SameFrame(g, t); } else { ShutKeeps(g, o.g, th.pc.c.c, t); }
    }
  }

  lemma SameFrame(g: Globals, t: Tid)
    ensures Frame(g, g, t)
  {}

  lemma OwnPublish(g: Globals, n: nat, t: Tid, th: Thread, a: Action)
    requires Pre(g, n, t, th) && th.pc.Connecting? && th.pc.c.Publish?
    ensures Kept(g, t, ConnectStep(g, t, th, th.pc.c, a))
  {
    var o := ConnectStep(g, t, th, th.pc.c, a);
    if o.Moved? {
      assert Located(g, th.pc.c.c);
      forall c | 0 <= c < |o.g.net.conns| ensures Located(o.g, c) { assert Located(g, c); }
      if g.core.conn.Some? { assert Located(g, g.core.conn.value); assert Leaked(o.g, g.core.conn.value); }
      else if g.life.swapped { assert Leaked(o.g, th.pc.c.c); }
      else if g.life.leaks { var c :| Leaked(g, c); assert Leaked(o.g, c); }
    }
  }

  lemma OwnSwap(g: Globals, n: nat, t: Tid, th: Thread, a: Action)
    requires Pre(g, n, t, th) && th.pc.Destroying? && th.pc.d.Swap?
    ensures Kept(g, t, DestroyStep(g, t, th, th.pc.ret, th.pc.d, a))
  {
    var o := DestroyStep(g, t, th, th.pc.ret, th.pc.d, a);
    if o.Moved? {
      forall c | 0 <= c < |o.g.net.conns| ensures Located(o.g, c) { assert Located(g, c); }
      if g.core.conn.Some? { assert Located(g, g.core.conn.value); }
      if g.life.leaks { var c :| Leaked(g, c); assert Located(g, c); assert Leaked(o.g, c); }
      assert G(o.g);
      assert Frame(g, o.g, t);
      assert L(o.g, t, o.th);
    }
  }

  lemma OwnClose(g: Globals, n: nat, t: Tid, th: Thread, a: Action)
    requires Pre(g, n, t, th) && th.pc.Destroying? && th.pc.d.CloseConn?
    ensures Kept(g, t, DestroyStep(g, t, th, th.pc.ret, th.pc.d, a))
  {
    hide Lifecycle.Pre, G, Frame;
    var o := DestroyStep(g, t, th, th.pc.ret, th.pc.d, a);
    if o.Moved? { ShutKeeps(g, o.g, th.pc.d.c, t); }
  }

  lemma OwnOnce(g: Globals, n: nat, t: Tid, th: Thread, a: Action)
    requires Pre(g, n, t, th) && th.pc.Destroying? && !th.pc.d.Swap? && !th.pc.d.CloseConn?
    ensures Kept(g, t, DestroyStep(g, t, th, th.pc.ret, th.pc.d, a))
  {
    hide Exclusion.RolePc, Lifecycle.G, Lifecycle.L;
    var o := DestroyStep(g, t, th, th.pc.ret, th.pc.d, a);
    if o.Moved? {
      forall c | 0 <= c < |g.net.conns| ensures g.net.conns[c].loc.Teardown? ==> o.g.once == g.once {
        assert Located(g, c);
      }
      SamePlacesKept(g, o.g);
    }
  }

  lemma OwnRead(g: Globals, n: nat, t: Tid, th: Thread, a: Action)
    requires Pre(g, n, t, th) && th.pc.Reading?
    ensures Kept(g, t, ReadStep(g, t, th, th.pc.r, a))
  {
    hide ReadStep, Lifecycle.Pre;
    var o := ReadStep(g, t, th, th.pc.r, a);
    if o.Moved? {
      Footprint.Reads(g, t, th, a);
      PlacesRead(g, t, th, th.pc.r, a);
      ReadKnown(g, t, th, th.pc.r, a);
      SamePlacesKept(g, o.g);
    }
  }

  lemma OwnTimeout(g: Globals, n: nat, t: Tid, th: Thread, a: Action)
    requires Pre(g, n, t, th) && th.pc.SettingTimeout?
    ensures Kept(g, t, TimeoutStep(g, t, th, th.pc.ms, th.pc.p, a))
  {
    var o := TimeoutStep(g, t, th, th.pc.ms, th.pc.p, a);
    if o.Moved? {
      PlacesTimeout(g, t, th, th.pc.ms, th.pc.p, a);
      forall c | 0 <= c < |g.net.conns| ensures g.net.conns[c].loc.InFlight? ==> o.g.lock.holder == g.lock.holder {
        assert Located(g, c);
      }
      SamePlacesKept(g, o.g);
    }
  }

  lemma OwnOther(g: Globals, n: nat, t: Tid, th: Thread, a: Action)
    requires Pre(g, n, t, th)
    requires !th.pc.Connecting? && !th.pc.Destroying? && !th.pc.Reading? && !th.pc.SettingTimeout?
    ensures Kept(g, t, Local(g, t, th, a))
  {
    hide Local, Lifecycle.Pre;
    var o := Local(g, t, th, a);
    if o.Moved? {
      Footprint.Of(g, t, th, a);
      SamePlacesKept(g, o.g);
    }
  }

  lemma ReadKnown(g: Globals, t: Tid, th: Thread, pc: ReadPc, a: Action)
    requires ReadStep(g, t, th, pc, a).Moved? && Known(|g.net.conns|, Reading(pc)) && G(g)
    ensures Known(|g.net.conns|, ReadStep(g, t, th, pc, a).th.pc)
  {
    match pc
    case Head => case Snap => case ArmRead(_, _) => case CallRead(_) => case PushRead(_, _, _) =>
    case AddRead(_, _, _) => case CopyRead(_, _, _) => case Test(_, _) =>
  }

  lemma Own(g: Globals, n: nat, t: Tid, th: Thread, a: Action)
    requires Pre(g, n, t, th)
    ensures Kept(g, t, Local(g, t, th, a))
  {
    hide ConnectStep, LookupStep, SendStep, ReadStep, DestroyStep, WriteStep, ScriptStep, TimeoutStep, ObserveStep,
      ReportStep, Kept;
    if th.pc.Connecting? {
      if th.pc.c.Dial? { OwnDial(g, n, t, th, a); }
      else if th.pc.c.Handshake? { OwnHandshake(g, n, t, th, a); }
      else if th.pc.c.Publish? { OwnPublish(g, n, t, th, a); }
      else { OwnSettles(g, n, t, th, a); }
    } else if th.pc.Destroying? {
      if th.pc.d.Swap? { OwnSwap(g, n, t, th, a); }
      else if th.pc.d.CloseConn? { OwnClose(g, n, t, th, a); }
      else { OwnOnce(g, n, t, th, a); }
    } else if th.pc.Reading? { OwnRead(g, n, t, th, a); }
    else if th.pc.SettingTimeout? { OwnTimeout(g, n, t, th, a); }
    else { OwnOther(g, n, t, th, a); }
  }

  lemma Others(g: Globals, h: Globals, t: Tid, u: Tid, th: Thread)
    requires Frame(g, h, t) && u != t && L(g, u, th)
    ensures L(h, u, th)
  {}

  lemma Preserved(s: Sys, e: Step)
    requires Inv(s) && Enabled(s, e)
    ensures Inv(Apply(s, e))
  {
    hide Local, L, Lifecycle.L, Exclusion.L;
    var s' := Apply(s, e);
    Lifecycle.Preserved(s, e);
    match e
    case ThreadStep(t, a) =>
      Own(s.g, |s.ts|, t, s.ts[t], a);
      Footprint.Of(s.g, t, s.ts[t], a);
      RecordKeeps(s, t, a);
      forall u | 0 <= u < |s'.ts| ensures L(s'.g, u, s'.ts[u]) {
        if u < |s.ts| && u != t { Others(s.g, s'.g, t, u, s.ts[u]); }
      }
    case EnvStep(_) =>
      EnvKeeps(s, e);
  }

  lemma RecordKeeps(s: Sys, t: Tid, a: Action)
    requires Inv(s) && t < |s.ts| && Local(s.g, t, s.ts[t], a).Moved? && Kept(s.g, t, Local(s.g, t, s.ts[t], a))
    ensures var s' := Apply(s, ThreadStep(t, a));
            && G(s'.g) && L(s'.g, t, s'.ts[t]) && Frame(s.g, s'.g, t)
            && (|s'.ts| > |s.ts| ==> L(s'.g, |s.ts|, s'.ts[|s.ts|]))
  {
    hide Local, Exclusion.L, Lifecycle.L, Lifecycle.G;
    var o := Local(s.g, t, s.ts[t], a);
    var h := Record(o.g, t, o.spawn);
    Footprint.Of(s.g, t, s.ts[t], a);
    SamePlacesKept(o.g, h);
    if o.spawn.Some? {
      forall c | 0 <= c < |h.net.conns|
        ensures h.net.conns[c].loc != InFlight(|s.ts|) && h.net.conns[c].loc != Teardown(|s.ts|)
      {
        assert Located(h, c) && Exclusion.G(s.g, |s.ts|);
        if c < |s.g.net.conns| { assert Located(s.g, c); }
      }
    }
  }

  lemma EnvKeeps(s: Sys, e: Step)
    requires Inv(s) && Enabled(s, e) && e.EnvStep?
    ensures G(Apply(s, e).g)
    ensures forall u :: 0 <= u < |s.ts| ==> L(Apply(s, e).g, u, s.ts[u])
  {
    var h := Apply(s, e).g;
    SamePlacesKept(s.g, h);
    forall u | 0 <= u < |s.ts| ensures L(h, u, s.ts[u]) { assert L(s.g, u, s.ts[u]); }
  }

  lemma {:induction false} Always(tr: seq<Step>)
    requires IsRun(tr)
    ensures Inv(Exec(tr))
  {
    hide Local;
    if tr == [] {
      Lifecycle.Always(tr);
    } else {
      Always(tr[..|tr| - 1]);
      Preserved(Exec(tr[..|tr| - 1]), tr[|tr| - 1]);
    }
  }

  // ---------------------------------------------------------------- what follows for every run

  /** No connection is ever closed twice by this code. */
  lemma {:induction false} NeverClosedTwice(tr: seq<Step>, c: ConnId)
    requires IsRun(tr) && c < |Exec(tr).g.net.conns|
    ensures Exec(tr).g.net.conns[c].closes <= 1
  {
    hide Local;
    Always(tr);
    assert Located(Exec(tr).g, c);
  }

  /**
   * Once teardown is over and no connect is part-way, every connection ever dialled (including those
   * whose handshake failed) has been closed exactly once if and only if no connection was published
   * while another was set or after teardown had taken its own.
   */
  lemma {:induction false} AllClosedOnce(tr: seq<Step>)
    requires IsRun(tr) && Exec(tr).g.once.Done? && LockFree(Exec(tr).g)
    ensures (forall c :: 0 <= c < |Exec(tr).g.net.conns| ==> Exec(tr).g.net.conns[c].closes == 1)
            <==> !Exec(tr).g.life.leaks
  {
    hide Local;
    Always(tr);
    var g := Exec(tr).g;
    if g.life.leaks {
      var c :| Leaked(g, c);
      assert Located(g, c);
    } else {
      forall c | 0 <= c < |g.net.conns| ensures g.net.conns[c].closes == 1 { assert Located(g, c); }
    }
  }

  /** Once teardown is over, a connection that is current or lost is out of this code's reach. */
  ghost predicate Abandoned(g: Globals, c: ConnId) {
    g.once.Done? && c < |g.net.conns| && (g.net.conns[c].loc.Current? || g.net.conns[c].loc.Lost?)
  }

  lemma StaysAbandoned(s: Sys, e: Step, c: ConnId)
    requires Inv(s) && Enabled(s, e) && Abandoned(s.g, c)
    ensures Abandoned(Apply(s, e).g, c)
  {
    hide Local, L, Lifecycle.L;
    if e.ThreadStep? {
      var th := s.ts[e.t];
      assert L(s.g, e.t, th) && Exclusion.L(s.g, e.t, th) && Lifecycle.L(s.g, th);
      Own(s.g, |s.ts|, e.t, th, e.a);
      Exclusion.Own(s.g, |s.ts|, e.t, th, e.a);
      Footprint.Of(s.g, e.t, th, e.a);
      assert Located(Local(s.g, e.t, th, e.a).g, c);
    }
  }

  /** A connection current or lost when teardown is over is never closed, in any continuation of the run. */
  lemma {:induction false} AbandonedForever(tr: seq<Step>, i: nat, c: ConnId)
    requires IsRun(tr) && i <= |tr| && Abandoned(At(tr, i).g, c)
    ensures Abandoned(Exec(tr).g, c) && Exec(tr).g.net.conns[c].closes == 0
    decreases |tr| - i
  {
    hide Local, Abandoned;
    if i == |tr| {
      AtEnd(tr);
      Always(tr);
      Unclosed(Exec(tr).g, c);
    } else {
      StepAt(tr, i);
      PrefixIsRun(tr, i);
      Always(tr[..i]);
      StaysAbandoned(At(tr, i), tr[i], c);
      AbandonedForever(tr, i + 1, c);
    }
  }

  lemma Unclosed(g: Globals, c: ConnId)
    requires G(g)
    ensures Abandoned(g, c) ==> c < |g.net.conns| && g.net.conns[c].closes == 0
  {
    if c < |g.net.conns| { assert Located(g, c); }
  }

  /** Step `e` publishes a connection over another one, or after teardown has taken its own. */
  predicate Leaks(s: Sys, e: Step) {
    e.ThreadStep? && e.t < |s.ts| && s.ts[e.t].pc.Connecting? && s.ts[e.t].pc.c.Publish? &&
    (s.g.core.conn.Some? || s.g.life.swapped)
  }

  lemma LeaksLocal(g: Globals, t: Tid, th: Thread, a: Action)
    requires Local(g, t, th, a).Moved?
    ensures Local(g, t, th, a).g.life.leaks ==
              (g.life.leaks || (th.pc.Connecting? && th.pc.c.Publish? && (g.core.conn.Some? || g.life.swapped)))
  {
    hide LookupStep, SendStep, ReadStep, WriteStep, ScriptStep, ObserveStep, ReportStep;
    if th.pc.Connecting? && Settles(th.pc.c) { PlacesConnect(g, t, th, th.pc.c, a); }
    else if !th.pc.Connecting? && !th.pc.Destroying? && !th.pc.SettingTimeout? { Footprint.Of(g, t, th, a); }
  }

  /** The leak flag says exactly whether the run contains such a publication. */
  lemma {:induction false} LeaksMean(tr: seq<Step>)
    requires IsRun(tr)
    ensures Exec(tr).g.life.leaks <==> SomeStep(tr, Leaks)
  {
    hide Local, SomeStep;
    if tr == [] {
      NoSteps();
    } else {
      var p := tr[..|tr| - 1];
      var e := tr[|tr| - 1];
      LeaksMean(p);
      SomeStepGrows(tr, Leaks);
      if e.ThreadStep? { LeaksLocal(Exec(p).g, e.t, Exec(p).ts[e.t], e.a); }
    }
  }

  /** A caller who never lets a connect start on a set connection or a destroyed socket leaks nothing. */
  lemma {:induction false} NoLeakIfConnectsAreApart(tr: seq<Step>)
    requires IsRun(tr) && !SomeStep(tr, Revives) && !SomeStep(tr, Overlaps)
    ensures !Exec(tr).g.life.leaks
    ensures Exec(tr).g.once.Done? && LockFree(Exec(tr).g) ==>
              forall c :: 0 <= c < |Exec(tr).g.net.conns| ==> Exec(tr).g.net.conns[c].closes == 1
  {
    hide Local, SomeStep;
    FlagsMean(tr);
    Apart(tr);
    if Exec(tr).g.once.Done? && LockFree(Exec(tr).g) { AllClosedOnce(tr); }
  }

  predicate BeforePublish(pc: Pc) {
    pc.Connecting? && (pc.c.Resolve? || pc.c.Dial? || pc.c.Handshake? || pc.c.Publish? || pc.c == Fail(None))
  }

  /** A connect about to publish found no connection, as long as connects are kept apart. */
  ghost predicate Clear(s: Sys) {
    && (!s.g.life.revived && !s.g.life.overlapped ==> !s.g.life.leaks)
    && (!s.g.life.overlapped ==>
          forall t :: 0 <= t < |s.ts| ==> (BeforePublish(s.ts[t].pc) ==> s.g.core.conn.None?))
  }

  lemma ClearConnect(g: Globals, t: Tid, th: Thread, pc: ConnectPc, a: Action)
    requires ConnectStep(g, t, th, pc, a).Moved? && !ConnectStep(g, t, th, pc, a).g.life.overlapped
    requires BeforePublish(Connecting(pc)) ==> g.core.conn.None?
    ensures BeforePublish(ConnectStep(g, t, th, pc, a).th.pc) ==> ConnectStep(g, t, th, pc, a).g.core.conn.None?
  {
    match pc
    case Begin(_) => case Resolve(_) => case Dial(_) => case Handshake(_) => case Publish(_) =>
    case Arm(_) => case Fail(_) => case Unlock(_) => case Spawn => case Count =>
  }

  lemma ClearStep(s: Sys, e: Step)
    requires Lifecycle.Inv(s) && Clear(s) && Enabled(s, e)
    ensures Clear(Apply(s, e))
  {
    hide ConnectStep, LookupStep, SendStep, ReadStep, DestroyStep, WriteStep, ScriptStep, TimeoutStep, ObserveStep,
      ReportStep;
    if e.ThreadStep? {
      var t, a := e.t, e.a;
      var th := s.ts[t];
      var s' := Apply(s, e);
      assert Exclusion.L(s.g, t, th) && Lifecycle.L(s.g, th);
      LeaksLocal(s.g, t, th, a);
      FlagsStep(s, e);
      Lifecycle.Own(s.g, |s.ts|, t, th, a);
      Footprint.Of(s.g, t, th, a);
      if !s'.g.life.overlapped {
        forall u | 0 <= u < |s'.ts| ensures BeforePublish(s'.ts[u].pc) ==> s'.g.core.conn.None? {
          if u == t {
            if th.pc.Connecting? { ClearConnect(s.g, t, th, th.pc.c, a); }
          } else if u < |s.ts| {
            assert Exclusion.L(s.g, u, s.ts[u]);
          }
        }
      }
    }
  }

  lemma {:induction false} Apart(tr: seq<Step>)
    requires IsRun(tr)
    ensures Clear(Exec(tr))
  {
    hide Local, Clear;
    if tr == [] {
      ClearAtStart();
    } else {
      Apart(tr[..|tr| - 1]);
      Lifecycle.Always(tr[..|tr| - 1]);
      ClearStep(Exec(tr[..|tr| - 1]), tr[|tr| - 1]);
    }
  }

  lemma ClearAtStart()
    ensures Clear(Init())
  {}
}
