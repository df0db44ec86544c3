/**
 * What ends a socket.  Teardown is asked for exactly by a `destroy()` call, by a reader's verdict on a
 * read that ended the stream, or by a reader that finds the socket not open because a connect has failed
 * while a connection was set.  Idle timeouts are none of these: any number of them leaves it open.
 */
module IdleTimeouts {
  import opened Basics
  import opened SocketMachine
  import opened Runs
  import opened LockMachine
  import Footprint
  import Exclusion
  import Lifecycle
  import Connections

  predicate Ending(err: ReadErr) { err.Eof? || err.Fatal? }

  /** On the way to `destroy`, at the latest once a read error has been reported. */
  predicate Asks(pc: Pc) {
    || pc.Destroying?
    || (pc.Reporting? && pc.kind.FromRead?)
    || (pc.Firing? && pc.call.OnError? && pc.call.kind.FromRead?)
  }

  /** Teardown has begun, or some thread is on its way to it. */
  ghost predicate Asked(s: Sys) { !s.g.once.Fresh? || exists t :: 0 <= t < |s.ts| && Asks(s.ts[t].pc) }

  /** The script calls `destroy()`. */
  predicate Calls(s: Sys, e: Step) { CallsDestroy(e) }

  /** A reader judges a read that ended the stream. */
  predicate JudgesEnd(s: Sys, e: Step) {
    e.ThreadStep? && e.t < |s.ts| && s.ts[e.t].pc.Reading? && s.ts[e.t].pc.r.Test? && Ending(s.ts[e.t].pc.r.err)
  }

  /** A reader looks whether the socket is open. */
  predicate Looks(s: Sys, e: Step) {
    e.ThreadStep? && e.t < |s.ts| && s.ts[e.t].pc.Reading? && (s.ts[e.t].pc.r.Head? || s.ts[e.t].pc.r.Test?)
  }

  /** A reader looks at step `i`, when the last connect has failed while a connection was set. */
  ghost predicate FindsStranded(tr: seq<Step>, i: nat)
    requires IsRun(tr)
  {
    i < |tr| && Looks(At(tr, i), tr[i]) && IsRun(tr[..i]) && Strands(Lifecycle.Ops(tr[..i]))
  }

  // ---------------------------------------------------------------- a reader has a connection

  /** A connect that has succeeded, or the reader it started. */
  predicate Relies(th: Thread) {
    th.role.ReaderRole? || (th.pc.Firing? && th.pc.call.OnConnect?) || (th.pc.Connecting? && th.pc.c.Spawn?)
  }

  predicate Shown(g: Globals) { Lifecycle.Visible(g).conn.Some? }

  ghost predicate L(g: Globals, th: Thread) { Relies(th) && !g.life.swapped ==> Shown(g) }

  ghost predicate Inv(s: Sys) { Lifecycle.Inv(s) && forall t :: 0 <= t < |s.ts| ==> L(s.g, s.ts[t]) }

  ghost predicate Pre(g: Globals, n: nat, t: Tid, th: Thread) { Lifecycle.Pre(g, n, t, th) && L(g, th) }

  /** A visible connection stays until teardown. */
  ghost predicate Frame(g: Globals, h: Globals) {
    (g.life.swapped ==> h.life.swapped) && (Shown(g) && !h.life.swapped ==> Shown(h))
  }

  ghost predicate Kept(g: Globals, o: Outcome) { o.Moved? ==> L(o.g, o.th) && Frame(g, o.g) }

  lemma ConnectRelies(g: Globals, t: Tid, th: Thread, pc: ConnectPc, a: Action)
    requires ConnectStep(g, t, th, pc, a).Moved? && th.pc == Connecting(pc) && Relies(ConnectStep(g, t, th, pc, a).th)
    ensures pc.Unlock? || Relies(th)
  {
    match pc
    case Begin(_) => case Resolve(_) => case Dial(_) => case Handshake(_) => case Publish(_) =>
    case Arm(_) => case Fail(_) => case Unlock(_) => case Spawn => case Count =>
  }

  lemma OwnConnect(g: Globals, n: nat, t: Tid, th: Thread, a: Action)
    requires Pre(g, n, t, th) && th.pc.Connecting?
    ensures Kept(g, ConnectStep(g, t, th, th.pc.c, a))
  {
    hide ConnectStep, Lifecycle.Pre, Lifecycle.Visible;
    var o := ConnectStep(g, t, th, th.pc.c, a);
    if o.Moved? {
      Lifecycle.CompletesConnect(g, n, t, th, a);
      LifeConnect(g, t, th, th.pc.c, a);
      if Relies(o.th) { ConnectRelies(g, t, th, th.pc.c, a); }
    }
  }

  lemma OwnSection(g: Globals, n: nat, t: Tid, th: Thread, a: Action)
    requires Pre(g, n, t, th) && (th.pc.Destroying? || th.pc.SettingTimeout?)
    ensures Kept(g, Local(g, t, th, a))
  {
    hide ConnectStep, LookupStep, SendStep, ReadStep, DestroyStep, WriteStep, ScriptStep, TimeoutStep, ObserveStep,
      ReportStep, Lifecycle.Pre, Lifecycle.Visible;
    if Local(g, t, th, a).Moved? {
      Lifecycle.CompletesOther(g, n, t, th, a);
      LifeOther(g, t, th, a);
      Footprint.Of(g, t, th, a);
    }
  }

  lemma OwnOther(g: Globals, n: nat, t: Tid, th: Thread, a: Action)
    requires Pre(g, n, t, th) && !th.pc.Connecting? && !th.pc.Destroying? && !th.pc.SettingTimeout?
    ensures Kept(g, Local(g, t, th, a))
  {
    hide Local, Lifecycle.Pre;
    Footprint.Of(g, t, th, a);
    if th.pc.Firing? {
      match th.pc.call
      case OnConnect => case OnData(_, _, _, _, _) => case OnTimeout(_) => case OnClose(_) => case OnError(_) =>
    }
  }

  lemma Own(g: Globals, n: nat, t: Tid, th: Thread, a: Action)
    requires Pre(g, n, t, th)
    ensures Kept(g, Local(g, t, th, a))
  {
    hide ConnectStep, LookupStep, SendStep, ReadStep, DestroyStep, WriteStep, ScriptStep, TimeoutStep, ObserveStep,
      ReportStep, Kept, Pre;
    if th.pc.Connecting? { OwnConnect(g, n, t, th, a); }
    else if th.pc.Destroying? || th.pc.SettingTimeout? { OwnSection(g, n, t, th, a); }
    else { OwnOther(g, n, t, th, a); }
  }

  lemma Preserved(s: Sys, e: Step)
    requires Inv(s) && Enabled(s, e)
    ensures Inv(Apply(s, e))
  {
    hide Local, Lifecycle.L, Exclusion.L;
    var s' := Apply(s, e);
    Lifecycle.Preserved(s, e);
    match e
    case ThreadStep(t, a) =>
      assert L(s.g, s.ts[t]) && Lifecycle.L(s.g, s.ts[t]) && Exclusion.L(s.g, t, s.ts[t]);
      Own(s.g, |s.ts|, t, s.ts[t], a);
      Footprint.Of(s.g, t, s.ts[t], a);
      forall u | 0 <= u < |s'.ts| ensures L(s'.g, s'.ts[u]) {
        if u < |s.ts| && u != t { assert L(s.g, s.ts[u]); }
      }
    case EnvStep(_) =>
      forall u | 0 <= u < |s'.ts| ensures L(s'.g, s'.ts[u]) { assert L(s.g, s.ts[u]); }
  }

  lemma {:induction false} Always(tr: seq<Step>)
    requires IsRun(tr)
    ensures Inv(Exec(tr))
  {
    hide Local;
    if tr == [] {
      Lifecycle.Always(tr);
    } else {
      Always(tr[..|tr| - 1]);
      Preserved(Exec(tr[..|tr| - 1]), tr[|tr| - 1]);
    }
  }

  // ---------------------------------------------------------------- how teardown comes to be asked for

  lemma ReadAsks(g: Globals, t: Tid, th: Thread, pc: ReadPc, a: Action)
    requires ReadStep(g, t, th, pc, a).Moved?
    ensures Asks(ReadStep(g, t, th, pc, a).th.pc) <==>
            || (pc.Head? && !g.core.st.Open?)
            || (pc.Snap? && g.core.conn.None?)
            || (pc.Test? && (!g.core.st.Open? || Ending(pc.err)))
    ensures pc.Head? || pc.Snap? || pc.Test? ==> LockFree(g)
  {
    match pc
    case Head => case Snap => case ArmRead(_, _) => case CallRead(_) => case PushRead(_, _, _) =>
    case AddRead(_, _, _) => case CopyRead(_, _, _) => case Test(_, _) =>
  }

  lemma ScriptAsks(g: Globals, th: Thread, op: ScriptOp)
    requires ScriptStep(g, th, op).Moved? && th.pc.Script?
    ensures Asks(ScriptStep(g, th, op).th.pc) <==> op.DoDestroy?
  {
    match op
    case DoConnect(_) => case DoBadConnect => case DoWrite(_) => case DoBadWrite => case DoDestroy =>
    case DoSetTimeout(_) => case DoOn(_) => case DoReadyState => case DoRunTask => case DoEndTask =>
  }

  /** A thread that asks goes on asking until teardown has begun; the others come to it in these ways only. */
  lemma OwnAsks(g: Globals, n: nat, t: Tid, th: Thread, a: Action)
    requires Exclusion.Pre(g, n, t, th) && g.once.Fresh? && Local(g, t, th, a).Moved?
    ensures var o := Local(g, t, th, a);
            Asks(o.th.pc) || !o.g.once.Fresh? <==>
            || Asks(th.pc)
            || (th.pc.Script? && a.Invoke? && a.op.DoDestroy?)
            || (th.pc.Reading? && th.pc.r.Head? && !g.core.st.Open?)
            || (th.pc.Reading? && th.pc.r.Snap? && g.core.conn.None?)
            || (th.pc.Reading? && th.pc.r.Test? && (!g.core.st.Open? || Ending(th.pc.r.err)))
  {
    hide ConnectStep, LookupStep, SendStep, ReadStep, WriteStep, ScriptStep, TimeoutStep, ObserveStep, ReportStep,
      Exclusion.RolePc;
    Footprint.Of(g, t, th, a);
    if th.pc.Reading? { ReadAsks(g, t, th, th.pc.r, a); }
    else if th.pc.Script? { ScriptAsks(g, th, a.op); }
    else if th.pc.Firing? { ResumeAsks(th.pc.call); }
  }

  lemma ResumeAsks(k: Call)
    ensures Asks(Resume(k)) <==> k.OnClose? || (k.OnError? && k.kind.FromRead?)
  {
    match k
    case OnConnect => case OnData(_, _, _, _, _) => case OnTimeout(_) => case OnClose(_) =>
    case OnError(kind) => match kind case FromConnect => case FromPrepare => case FromRead(_) =>
  }

  lemma StaysAsked(s: Sys, e: Step)
    requires Exclusion.Inv(s) && Enabled(s, e) && Asked(s)
    ensures Asked(Apply(s, e))
  {
    hide Local, Exclusion.L, Asks;
    var s' := Apply(s, e);
    if e.ThreadStep? {
      assert Exclusion.L(s.g, e.t, s.ts[e.t]);
      Exclusion.Own(s.g, |s.ts|, e.t, s.ts[e.t], e.a);
      if s.g.once.Fresh? {
        var t :| 0 <= t < |s.ts| && Asks(s.ts[t].pc);
        if t == e.t { OwnAsks(s.g, |s.ts|, t, s.ts[t], e.a); }
        assert s'.ts[t] == if t == e.t then Local(s.g, t, s.ts[t], e.a).th else s.ts[t];
      }
    } else if s.g.once.Fresh? {
      var t :| 0 <= t < |s.ts| && Asks(s.ts[t].pc);
      assert Asks(s'.ts[t].pc);
    }
  }

  /** Before teardown has been asked for, the lock free, a reader's connection is set and the socket not destroyed. */
  lemma NotAskedYet(s: Sys, t: Tid)
    requires Inv(s) && !Asked(s) && t < |s.ts| && s.ts[t].pc.Reading? && LockFree(s.g)
    ensures s.g.core.conn.Some? && (s.g.core.st.Open? || s.g.core.st.Disconnected?)
  {
    assert L(s.g, s.ts[t]) && Exclusion.L(s.g, t, s.ts[t]);
  }

  /** The step by which teardown comes to be asked for. */
  lemma BecomesAsked(s: Sys, e: Step)
    requires Inv(s) && Enabled(s, e) && !Asked(s)
    ensures Asked(Apply(s, e)) <==>
            Calls(s, e) || JudgesEnd(s, e) || (Looks(s, e) && s.g.core.st.Disconnected? && s.g.core.conn.Some?)
    ensures Looks(s, e) ==> LockFree(s.g)
  {
    hide Local, Lifecycle.L, Exclusion.L, Lifecycle.G;
    var s' := Apply(s, e);
    if e.ThreadStep? {
      var t, th := e.t, s.ts[e.t];
      assert Exclusion.L(s.g, t, th);
      Footprint.Of(s.g, t, th, e.a);
      OwnAsks(s.g, |s.ts|, t, th, e.a);
      OnlyScriptInvokes(s.g, t, th, e.a);
      if th.pc.Reading? { LooksAreLocked(s.g, t, th, e.a); }
      if th.pc.Reading? && LockFree(s.g) { NotAskedYet(s, t); }
      assert s'.ts[t] == Local(s.g, t, th, e.a).th;
      forall u | 0 <= u < |s'.ts| && u != t ensures !Asks(s'.ts[u].pc) {}
    }
  }

  lemma LooksAreLocked(g: Globals, t: Tid, th: Thread, a: Action)
    requires Local(g, t, th, a).Moved? && th.pc.Reading?
    ensures th.pc.r.Head? || th.pc.r.Snap? || th.pc.r.Test? ==> LockFree(g)
  {
    hide ConnectStep, LookupStep, SendStep, DestroyStep, WriteStep, ScriptStep, TimeoutStep, ObserveStep, ReportStep;
    hide ReadStep;
    ReadAsks(g, t, th, th.pc.r, a);
  }

  /** Step `i` asks for teardown. */
  ghost predicate AsksAt(tr: seq<Step>, i: nat)
    requires IsRun(tr)
  {
    i < |tr| && (Calls(At(tr, i), tr[i]) || JudgesEnd(At(tr, i), tr[i]) || FindsStranded(tr, i))
  }

  lemma {:induction false} AsksAtPrefix(tr: seq<Step>, n: nat, i: nat)
    requires IsRun(tr) && i < n <= |tr|
    ensures IsRun(tr[..n]) && (AsksAt(tr[..n], i) <==> AsksAt(tr, i))
  {
    hide Enabled, Apply, Calls, JudgesEnd, Looks, Strands;
    AtPrefix(tr, n, i);
    assert tr[..n][..i] == tr[..i] && tr[..n][i] == tr[i];
  }

  /** At a look, before teardown has been asked for: disconnected with a connection is stranded. */
  lemma {:induction false} LastStep(tr: seq<Step>)
    requires IsRun(tr) && tr != [] && !Asked(Exec(tr[..|tr| - 1]))
    ensures Asked(Exec(tr)) <==> AsksAt(tr, |tr| - 1)
  {
    hide Local, Asked, Calls, JudgesEnd, Looks, Strands;
    var p, e := tr[..|tr| - 1], tr[|tr| - 1];
    var s := Exec(p);
    AtPrefix(tr, |p|, |p|);
    AtEnd(p);
    assert At(tr, |p|) == s;
    Always(p);
    BecomesAsked(s, e);
    if Looks(s, e) { Lifecycle.DisconnectedWithConnectionIff(p); }
  }

  /**
   * For every run: teardown has been asked for if and only if the script called `destroy()`, a reader
   * judged a read that ended the stream, or a reader looked when the last connect had failed while a
   * connection was set.
   */
  lemma {:induction false} TeardownIsAskedIff(tr: seq<Step>)
    requires IsRun(tr)
    ensures Asked(Exec(tr)) <==> exists i: nat :: AsksAt(tr, i)
  {
    hide Local, Asked, AsksAt;
    if tr == [] {
      NothingAsked();
    } else {
      var p := tr[..|tr| - 1];
      TeardownIsAskedIff(p);
      if Asked(Exec(p)) {
        Exclusion.Always(p);
        StaysAsked(Exec(p), tr[|tr| - 1]);
        var i: nat :| AsksAt(p, i);
        InRange(p, i);
        AsksAtPrefix(tr, |p|, i);
      } else {
        LastStep(tr);
        if i: nat :| AsksAt(tr, i) {
          InRange(tr, i);
          if i < |p| { AsksAtPrefix(tr, |p|, i); }
        }
      }
    }
  }

  lemma InRange(tr: seq<Step>, i: nat)
    requires IsRun(tr) && AsksAt(tr, i)
    ensures i < |tr|
  {}

  lemma NothingAsked()
    ensures !Asked(Init()) && forall i: nat :: !AsksAt([], i)
  {}

  // ---------------------------------------------------------------- timeouts

  /** A read result that ended the stream. */
  predicate Ended(pc: Pc) {
    || (pc.Reading? && (pc.r.PushRead? || pc.r.AddRead? || pc.r.CopyRead? || pc.r.Test?) && Ending(pc.r.err))
    || (pc.Firing? && pc.call.OnData? && Ending(pc.call.err))
  }

  lemma EndedRead(g: Globals, t: Tid, th: Thread, pc: ReadPc, a: Action)
    requires ReadStep(g, t, th, pc, a).Moved? && !Ended(Reading(pc)) && Ended(ReadStep(g, t, th, pc, a).th.pc)
    ensures a.ReadReturned? && Ending(a.err)
  {
    match pc
    case Head => case Snap => case ArmRead(_, _) => case CallRead(_) => case PushRead(_, _, _) =>
    case AddRead(_, _, _) => case CopyRead(_, _, _) => case Test(_, _) =>
  }

  lemma EndedStep(s: Sys, e: Step)
    requires Enabled(s, e) && !EndsStream(e) && forall t :: 0 <= t < |s.ts| ==> !Ended(s.ts[t].pc)
    ensures forall t :: 0 <= t < |Apply(s, e).ts| ==> !Ended(Apply(s, e).ts[t].pc)
  {
    hide ConnectStep, LookupStep, SendStep, ReadStep, DestroyStep, WriteStep, ScriptStep, TimeoutStep, ObserveStep,
      ReportStep;
    if e.ThreadStep? {
      var th := s.ts[e.t];
      Footprint.Of(s.g, e.t, th, e.a);
      if th.pc.Reading? {
        if Ended(Apply(s, e).ts[e.t].pc) { EndedRead(s.g, e.t, th, th.pc.r, e.a); }
      } else if th.pc.Firing? {
        match th.pc.call
        case OnConnect => case OnData(_, _, _, _, _) => case OnTimeout(_) => case OnClose(_) =>
        case OnError(kind) => match kind case FromConnect => case FromPrepare => case FromRead(_) =>
      }
    }
  }

  lemma {:induction false} NothingEnded(tr: seq<Step>)
    requires IsRun(tr) && !SomeStep(tr, (_, e) => EndsStream(e))
    ensures forall t :: 0 <= t < |Exec(tr).ts| ==> !Ended(Exec(tr).ts[t].pc)
  {
    hide Local, SomeStep, Ended;
    if tr == [] {
      StartsFresh();
    } else {
      SomeStepGrows(tr, (_, e) => EndsStream(e));
      NothingEnded(tr[..|tr| - 1]);
      EndedStep(Exec(tr[..|tr| - 1]), tr[|tr| - 1]);
    }
  }

  lemma StartsFresh()
    ensures !Ended(Init().ts[0].pc)
  {}

  /** A connect gives up while a connection is set: an earlier one, or its own that it could not arm. */
  predicate FailsOver(s: Sys, e: Step) {
    e.ThreadStep? && e.t < |s.ts| && s.ts[e.t].pc.Connecting? && s.ts[e.t].pc.c.Fail? && s.g.core.conn.Some?
  }

  lemma NotStrandedBy(ops: seq<AtomicOp>, op: AtomicOp)
    requires !Strands(ops) && !op.ArmingFailed? && (op.ConnectFailed? ==> Published(ops).None?)
    ensures !Strands(ops + [op])
  {
    assert (ops + [op])[..|ops|] == ops;
  }

  lemma {:induction false} NeverStranded(tr: seq<Step>)
    requires IsRun(tr) && !SomeStep(tr, FailsOver)
    ensures !Strands(Lifecycle.Ops(tr))
  {
    hide Local, SomeStep, FailsOver, Strands, Published, DoAll, Lifecycle.Completes, Lifecycle.Visible;
    if tr == [] {
      NothingStrands();
    } else {
      var p, e := tr[..|tr| - 1], tr[|tr| - 1];
      SomeStepGrows(tr, FailsOver);
      NeverStranded(p);
      match Lifecycle.Completes(Exec(p), e)
      case None => assert Lifecycle.Ops(tr) == Lifecycle.Ops(p);
      case Some(op) =>
        assert Lifecycle.Ops(tr) == Lifecycle.Ops(p) + [op];
        OpFindsNothing(tr, op);
        NotStrandedBy(Lifecycle.Ops(p), op);
    }
  }

  lemma NothingStrands()
    ensures !Strands([])
  {}

  /** A connect that does not give up over a set connection found none. */
  lemma {:induction false} OpFindsNothing(tr: seq<Step>, op: AtomicOp)
    requires IsRun(tr) && tr != [] && !FailsOver(Exec(tr[..|tr| - 1]), tr[|tr| - 1])
    requires Lifecycle.Completes(Exec(tr[..|tr| - 1]), tr[|tr| - 1]) == Some(op)
    ensures !op.ArmingFailed? && (op.ConnectFailed? ==> Published(Lifecycle.Ops(tr[..|tr| - 1])).None?)
  {
    hide Local, DoAll, Published, Lifecycle.Visible;
    var p, e := tr[..|tr| - 1], tr[|tr| - 1];
    Lifecycle.Always(p);
    Lifecycle.Refines(p);
    ConnIsPublished(Lifecycle.Ops(p));
    if op.ConnectFailed? || op.ArmingFailed? { FailsWithLock(Exec(p), e); }
  }

  /** A failing connect holds the lock, and until it publishes the connection is the one it found. */
  lemma FailsWithLock(s: Sys, e: Step)
    requires Lifecycle.Inv(s) && Enabled(s, e) && e.ThreadStep?
    requires s.ts[e.t].pc.Connecting? && s.ts[e.t].pc.c.Fail?
    ensures s.ts[e.t].pc.c.pub.None? ==> s.g.core.conn == Lifecycle.Visible(s.g).conn
    ensures s.ts[e.t].pc.c.pub.Some? ==> s.g.core.conn.Some?
  {
    assert Exclusion.L(s.g, e.t, s.ts[e.t]) && Lifecycle.L(s.g, s.ts[e.t]);
  }

  /**
   * In a run with no destroy() call, no read that ends the stream and no connect that gives up while a
   * connection is set, however many timeouts it contains: teardown is never asked for, and as long as the
   * socket has a reader it shows itself open; if moreover no connect starts over a set connection, the
   * state never leaves open either.
   */
  lemma {:induction false} TimeoutsKeepItOpen(tr: seq<Step>)
    requires IsRun(tr) && !SomeStep(tr, FailsOver)
    requires !SomeStep(tr, (_, e) => CallsDestroy(e)) && !SomeStep(tr, (_, e) => EndsStream(e))
    ensures !Asked(Exec(tr)) && !Exec(tr).g.core.st.Destroyed?
    ensures forall t :: 0 <= t < |Exec(tr).ts| && Exec(tr).ts[t].role.ReaderRole? ==>
              Lifecycle.Visible(Exec(tr).g).st.Open? && (!SomeStep(tr, Overlaps) ==> Exec(tr).g.core.st.Open?)
  {
    hide Local, SomeStep, Asked, Ended, Strands;
    NeverAsked(tr);
    Always(tr);
    var s := Exec(tr);
    NotDestroyed(s);
    forall t | 0 <= t < |s.ts| && s.ts[t].role.ReaderRole?
      ensures Lifecycle.Visible(s.g).st.Open? && (!SomeStep(tr, Overlaps) ==> s.g.core.st.Open?)
    {
      OpenWithReader(tr, t);
    }
  }

  lemma NotDestroyed(s: Sys)
    requires Inv(s) && !Asked(s)
    ensures !s.g.life.swapped && !s.g.core.st.Destroyed?
  {}

  lemma {:induction false} OpenWithReader(tr: seq<Step>, t: Tid)
    requires IsRun(tr) && !SomeStep(tr, FailsOver) && !Asked(Exec(tr))
    requires t < |Exec(tr).ts| && Exec(tr).ts[t].role.ReaderRole?
    ensures Lifecycle.Visible(Exec(tr).g).st.Open?
    ensures !SomeStep(tr, Overlaps) ==> Exec(tr).g.core.st.Open?
  {
    hide Local, SomeStep, Asked, FailsOver;
    Always(tr);
    NeverStranded(tr);
    Lifecycle.Refines(tr);
    StrandedIff(Lifecycle.Ops(tr));
    var s := Exec(tr);
    NotDestroyed(s);
    assert L(s.g, s.ts[t]);
    if !SomeStep(tr, Overlaps) {
      FlagsMean(tr);
      Connections.Apart(tr);
      OpenUnderLock(s);
    }
  }

  lemma OpenUnderLock(s: Sys)
    requires Inv(s) && Connections.Clear(s) && !s.g.life.overlapped && Shown(s.g)
    requires Lifecycle.Visible(s.g).st.Open?
    ensures s.g.core.st.Open?
  {
    if !LockFree(s.g) {
      var u := s.g.lock.holder.value;
      assert Exclusion.L(s.g, u, s.ts[u]) && Lifecycle.L(s.g, s.ts[u]);
    }
  }

  lemma {:induction false} NeverAsked(tr: seq<Step>)
    requires IsRun(tr) && !SomeStep(tr, FailsOver)
    requires !SomeStep(tr, (_, e) => CallsDestroy(e)) && !SomeStep(tr, (_, e) => EndsStream(e))
    ensures !Asked(Exec(tr))
  {
    hide Local, SomeStep, Asked, Ended, Strands, FailsOver;
    if tr == [] {
      NothingAsked();
    } else {
      var p, e := tr[..|tr| - 1], tr[|tr| - 1];
      SomeStepGrows(tr, FailsOver);
      SomeStepGrows(tr, (_, e) => CallsDestroy(e));
      SomeStepGrows(tr, (_, e) => EndsStream(e));
      NeverAsked(p);
      LastStep(tr);
      NeverStranded(p);
      NothingEnded(p);
      NothingAsksHere(tr);
    }
  }

  lemma NothingAsksHere(tr: seq<Step>)
    requires IsRun(tr) && tr != [] && !CallsDestroy(tr[|tr| - 1]) && !Strands(Lifecycle.Ops(tr[..|tr| - 1]))
    requires var s := Exec(tr[..|tr| - 1]); forall t :: 0 <= t < |s.ts| ==> !Ended(s.ts[t].pc)
    ensures !AsksAt(tr, |tr| - 1)
  {
    hide Local, Strands;
    var p := tr[..|tr| - 1];
    AtPrefix(tr, |p|, |p|);
    AtEnd(p);
    assert At(tr, |p|) == Exec(p);
  }
}
