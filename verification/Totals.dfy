/**
 * The shared byte counters.  For any number of readers and writers and any interleaving, totalRead and
 * totalWritten are the sums of the threads' own shares, and the fragments a writer put on the wire
 * successfully are, in order, exactly a prefix of its data of the length it counted.
 */
module Totals {
  import opened Basics
  import opened SocketMachine
  import Footprint
  import Exclusion

  /** The sum of `f` over all threads. */
  ghost function Sum(ts: seq<Thread>, f: Thread -> nat): nat {
    if ts == [] then 0 else Sum(ts[..|ts| - 1], f) + f(ts[|ts| - 1])
  }

  lemma {:induction false} SumUpdate(ts: seq<Thread>, t: Tid, th: Thread, f: Thread -> nat)
    requires t < |ts|
    ensures Sum(ts[t := th], f) + f(ts[t]) == Sum(ts, f) + f(th)
  {
    if t < |ts| - 1 {
      SumUpdate(ts[..|ts| - 1], t, th, f);
      assert ts[t := th][..|ts| - 1] == ts[..|ts| - 1][t := th];
    } else {
      assert ts[t := th][..|ts| - 1] == ts[..|ts| - 1];
    }
  }

  lemma SumAppend(ts: seq<Thread>, th: Thread, f: Thread -> nat)
    ensures Sum(ts + [th], f) == Sum(ts, f) + f(th)
  {
    assert (ts + [th])[..|ts|] == ts;
  }

  /** How a sum changes when thread `t` takes a step. */
  lemma {:induction false} SumStep(s: Sys, t: Tid, a: Action, f: Thread -> nat)
    requires t < |s.ts| && Enabled(s, ThreadStep(t, a))
    ensures var o := Local(s.g, t, s.ts[t], a);
            Sum(Apply(s, ThreadStep(t, a)).ts, f) + f(s.ts[t]) ==
              Sum(s.ts, f) + f(o.th) + if o.spawn.Some? then f(o.spawn.value) else 0
  {
    hide Local;
    var o := Local(s.g, t, s.ts[t], a);
    SumUpdate(s.ts, t, o.th, f);
    if o.spawn.Some? { SumAppend(s.ts[t := o.th], o.spawn.value, f); }
    else { assert s.ts[t := o.th] + [] == s.ts[t := o.th]; }
  }

  lemma {:induction false} SumZero(ts: seq<Thread>, f: Thread -> nat)
    requires forall t :: 0 <= t < |ts| ==> f(ts[t]) == 0
    ensures Sum(ts, f) == 0
  {
    if ts != [] { SumZero(ts[..|ts| - 1], f); }
  }

  // ---------------------------------------------------------------- totalRead and totalWritten

  function ReadShare(th: Thread): nat { if th.role.ReaderRole? then th.added else 0 }

  function WriteShare(th: Thread): nat { if th.role.WriterRole? then th.added else 0 }

  lemma ShareRead(g: Globals, t: Tid, th: Thread, pc: ReadPc, a: Action)
    requires ReadStep(g, t, th, pc, a).Moved?
    ensures ReadStep(g, t, th, pc, a).g.rx.total + th.added == g.rx.total + ReadStep(g, t, th, pc, a).th.added
  {
    match pc
    case Head => case Snap => case ArmRead(_, _) => case CallRead(_) => case PushRead(_, _, _) =>
    case AddRead(_, _, _) => case CopyRead(_, _, _) => case Test(_, _) =>
  }

  lemma ShareWrite(g: Globals, t: Tid, th: Thread, data: seq<byte>, pc: WritePc, a: Action)
    requires WriteStep(g, t, th, data, pc, a).Moved?
    ensures WriteStep(g, t, th, data, pc, a).g.tx.total + th.added ==
              g.tx.total + WriteStep(g, t, th, data, pc, a).th.added
  {
    match pc
    case SnapWrite => case CallWrite(_, _) => case AddWrite(_, _, _) => case FailedWrite(_) => case CountWrite(_) =>
  }

  lemma SharesMove(g: Globals, t: Tid, th: Thread, a: Action)
    requires Local(g, t, th, a).Moved? && Exclusion.RolePc(th.role, th.pc)
    ensures var o := Local(g, t, th, a);
            && o.g.rx.total + ReadShare(th) == g.rx.total + ReadShare(o.th)
            && o.g.tx.total + WriteShare(th) == g.tx.total + WriteShare(o.th)
            && (o.spawn.Some? ==> ReadShare(o.spawn.value) == 0 && WriteShare(o.spawn.value) == 0)
  {
    hide ConnectStep, LookupStep, SendStep, ReadStep, DestroyStep, WriteStep, ScriptStep, TimeoutStep, ObserveStep,
      ReportStep;
    Footprint.Of(g, t, th, a);
    if th.pc.Reading? { ShareRead(g, t, th, th.pc.r, a); }
    else if th.pc.Writing? { ShareWrite(g, t, th, th.role.data, th.pc.w, a); }
  }

  /** Both shared counters are the sums of what the threads added, after every run. */
  lemma {:induction false} CountersAreSums(tr: seq<Step>)
    requires IsRun(tr)
    ensures Exec(tr).g.rx.total == Sum(Exec(tr).ts, ReadShare)
    ensures Exec(tr).g.tx.total == Sum(Exec(tr).ts, WriteShare)
  {
    hide Local;
    if tr == [] {
      SumsStart();
    } else {
      var s, e := Exec(tr[..|tr| - 1]), tr[|tr| - 1];
      CountersAreSums(tr[..|tr| - 1]);
      Exclusion.Always(tr[..|tr| - 1]);
      if e.ThreadStep? {
        assert Exclusion.L(s.g, e.t, s.ts[e.t]);
        SharesMove(s.g, e.t, s.ts[e.t], e.a);
        SumStep(s, e.t, e.a, ReadShare);
        SumStep(s, e.t, e.a, WriteShare);
      }
    }
  }

  lemma SumsStart()
    ensures Sum(Init().ts, ReadShare) == 0 && Sum(Init().ts, WriteShare) == 0
  {
    SumZero(Init().ts, ReadShare);
    SumZero(Init().ts, WriteShare);
  }

  // ---------------------------------------------------------------- what each writer put on the wire

  /** Everything thread `t` put on the wire, in order. */
  function Sent(wire: seq<Frag>, t: Tid): seq<byte> {
    if wire == [] then []
    else Sent(wire[..|wire| - 1], t) + if wire[|wire| - 1].who == t then wire[|wire| - 1].bytes else []
  }

  /** What it sent successfully. */
  function Counted(wire: seq<Frag>, t: Tid): seq<byte> {
    if wire == [] then []
    else
      Counted(wire[..|wire| - 1], t) +
      if wire[|wire| - 1].who == t && wire[|wire| - 1].counted then wire[|wire| - 1].bytes else []
  }

  lemma WireAppend(wire: seq<Frag>, f: Frag, t: Tid)
    ensures Sent(wire + [f], t) == if f.who == t then Sent(wire, t) + f.bytes else Sent(wire, t)
    ensures Counted(wire + [f], t) == if f.who == t && f.counted then Counted(wire, t) + f.bytes else Counted(wire, t)
  {
    assert (wire + [f])[..|wire|] == wire;
  }

  lemma {:induction false} NothingSent(wire: seq<Frag>, t: Tid)
    requires forall i :: 0 <= i < |wire| ==> wire[i].who != t
    ensures Sent(wire, t) == [] && Counted(wire, t) == []
  {
    if wire != [] { NothingSent(wire[..|wire| - 1], t); }
  }

  /** The bytes a writer has seen written at this point of `writeExecute`. */
  function Progress(pc: WritePc): nat {
    match pc
    case SnapWrite => 0
    case CallWrite(_, done) => done
    case AddWrite(_, done, _) => done
    case FailedWrite(done) => done
    case CountWrite(done) => done
  }

  /** Written but not yet added to the shared counter. */
  function ToAdd(pc: Pc): nat { if pc.Writing? && pc.w.AddWrite? then pc.w.n else 0 }

  ghost predicate L(g: Globals, t: Tid, th: Thread) {
    th.role.WriterRole? ==>
      var done, sent := |Counted(g.tx.wire, t)|, Sent(g.tx.wire, t);
      && done <= |th.role.data| && Counted(g.tx.wire, t) == th.role.data[..done]
      && th.added + ToAdd(th.pc) == done
      && done <= |sent| <= |th.role.data| && sent == th.role.data[..|sent|]
      && (th.pc.Writing? ==> Progress(th.pc.w) == done)
      && (th.pc.Writing? && !th.pc.w.FailedWrite? && !th.pc.w.CountWrite? ==> |sent| == done)
      && (|sent| > done ==> done < |th.role.data|)
  }

  ghost predicate G(g: Globals, n: nat) { forall i :: 0 <= i < |g.tx.wire| ==> g.tx.wire[i].who < n }

  ghost predicate Inv(s: Sys) {
    Exclusion.Inv(s) && G(s.g, |s.ts|) && forall t :: 0 <= t < |s.ts| ==> L(s.g, t, s.ts[t])
  }

  lemma LastOf(wire: seq<Frag>, f: Frag)
    ensures var w := wire + [f]; w[..|w| - 1] == wire && w[|w| - 1] == f
  {}

  /** A writer with `done` bytes sent and counted puts its next `n` bytes on the wire. */
  lemma Advances(wire: seq<Frag>, f: Frag, t: Tid, data: seq<byte>, done: nat, n: nat)
    requires done + n <= |data| && f.who == t && f.bytes == data[done..done + n]
    requires Sent(wire, t) == data[..done] && Counted(wire, t) == data[..done]
    ensures Sent(wire + [f], t) == data[..done + n]
    ensures Counted(wire + [f], t) == if f.counted then data[..done + n] else data[..done]
  {
    hide Sent, Counted;
    WireAppend(wire, f, t);
    assert data[..done] + data[done..done + n] == data[..done + n];
  }

  /** What `writeExecute` does to the wire and to the writer's own record. */
  ghost predicate Wrote(g: Globals, t: Tid, o: Outcome) {
    o.Moved? ==>
      && L(o.g, t, o.th)
      && (o.g.tx.wire == g.tx.wire ||
          (o.g.tx.wire != [] && o.g.tx.wire[..|o.g.tx.wire| - 1] == g.tx.wire &&
           o.g.tx.wire[|o.g.tx.wire| - 1].who == t))
  }

  lemma OwnCall(g: Globals, t: Tid, th: Thread, a: Action)
    requires L(g, t, th) && th.pc.Writing? && th.role.WriterRole? && th.pc.w.CallWrite?
    ensures Wrote(g, t, WriteStep(g, t, th, th.role.data, th.pc.w, a))
  {
    hide Sent, Counted;
    var data, c, done := th.role.data, th.pc.w.c, th.pc.w.done;
    if done < |data| && a.WriteReturned? && a.n <= |data| - done {
      var f := Frag(t, c, data[done..done + a.n], a.ok && a.n > 0);
      LastOf(g.tx.wire, f);
      Advances(g.tx.wire, f, t, data, done, a.n);
    }
  }

  lemma OwnQuiet(g: Globals, t: Tid, th: Thread, a: Action)
    requires L(g, t, th) && th.pc.Writing? && th.role.WriterRole? && !th.pc.w.CallWrite?
    ensures Wrote(g, t, WriteStep(g, t, th, th.role.data, th.pc.w, a))
  {
    hide Sent, Counted;
    match th.pc.w
    case SnapWrite => case CallWrite(_, _) => case AddWrite(_, _, _) => case FailedWrite(_) => case CountWrite(_) =>
  }

  lemma OwnWrite(g: Globals, t: Tid, th: Thread, a: Action)
    requires L(g, t, th) && th.pc.Writing? && th.role.WriterRole?
    ensures Wrote(g, t, WriteStep(g, t, th, th.role.data, th.pc.w, a))
  {
    hide WriteStep, Wrote, L;
    if th.pc.w.CallWrite? { OwnCall(g, t, th, a); } else { OwnQuiet(g, t, th, a); }
  }

  lemma Others(g: Globals, h: Globals, t: Tid, u: Tid, th: Thread)
    requires h.tx.wire == g.tx.wire ||
             (h.tx.wire != [] && h.tx.wire[..|h.tx.wire| - 1] == g.tx.wire && h.tx.wire[|h.tx.wire| - 1].who == t)
    requires u != t && L(g, u, th)
    ensures L(h, u, th)
  {
    hide Sent, Counted;
    if h.tx.wire != g.tx.wire {
      WireAppend(g.tx.wire, h.tx.wire[|h.tx.wire| - 1], u);
      assert h.tx.wire == g.tx.wire + [h.tx.wire[|h.tx.wire| - 1]];
    }
  }

  lemma Preserved(s: Sys, e: Step)
    requires Inv(s) && Enabled(s, e)
    ensures Inv(Apply(s, e))
  {
    hide ConnectStep, LookupStep, SendStep, ReadStep, DestroyStep, WriteStep, ScriptStep, TimeoutStep, ObserveStep,
      ReportStep, L, Exclusion.L, Exclusion.RolePc;
    var s' := Apply(s, e);
    Exclusion.Preserved(s, e);
    match e
    case ThreadStep(t, a) =>
      var th := s.ts[t];
      assert Exclusion.L(s.g, t, th) && L(s.g, t, th);
      WriterCode(s.g, t, th);
      Footprint.Of(s.g, t, th, a);
      Actor(s, t, a);
      forall u | 0 <= u < |s'.ts| ensures L(s'.g, u, s'.ts[u]) {
        if u < |s.ts| && u != t { Others(s.g, s'.g, t, u, s.ts[u]); }
      }
    case EnvStep(_) =>
      forall u | 0 <= u < |s'.ts| ensures L(s'.g, u, s'.ts[u]) { Others(s.g, s'.g, u + 1, u, s.ts[u]); }
  }

  lemma WriterCode(g: Globals, t: Tid, th: Thread)
    requires Exclusion.L(g, t, th)
    ensures th.pc.Writing? ==> th.role.WriterRole?
    ensures th.role.WriterRole? ==> th.pc.Writing? || th.pc.Finished?
  {}

  lemma Actor(s: Sys, t: Tid, a: Action)
    requires Inv(s) && t < |s.ts| && Enabled(s, ThreadStep(t, a))
    ensures var s' := Apply(s, ThreadStep(t, a));
            && G(s'.g, |s'.ts|) && L(s'.g, t, s'.ts[t])
            && (|s'.ts| > |s.ts| ==> L(s'.g, |s.ts|, s'.ts[|s.ts|]))
            && (s'.g.tx.wire == s.g.tx.wire ||
                (s'.g.tx.wire != [] && s'.g.tx.wire[..|s'.g.tx.wire| - 1] == s.g.tx.wire &&
                 s'.g.tx.wire[|s'.g.tx.wire| - 1].who == t))
  {
    hide ConnectStep, LookupStep, SendStep, ReadStep, DestroyStep, WriteStep, ScriptStep, TimeoutStep, ObserveStep,
      ReportStep, Exclusion.L, L;
    var th := s.ts[t];
    assert Exclusion.L(s.g, t, th) && L(s.g, t, th);
    WriterCode(s.g, t, th);
    Footprint.Of(s.g, t, th, a);
    if th.pc.Writing? { OwnWrite(s.g, t, th, a); }
    else {
      var o := Local(s.g, t, th, a);
      NotAWriter(Record(o.g, t, o.spawn), t, o.th);
      if o.spawn.Some? { Newborn(Record(o.g, t, o.spawn), |s.ts|, o.spawn.value); }
    }
  }

  lemma NotAWriter(g: Globals, t: Tid, th: Thread)
    requires !th.role.WriterRole?
    ensures L(g, t, th)
  {}

  lemma Newborn(g: Globals, n: nat, th: Thread)
    requires G(g, n) && th.added == 0 && (th.role.WriterRole? ==> th.pc.Writing? && th.pc.w.SnapWrite?)
    ensures L(g, n, th)
  {
    NothingSent(g.tx.wire, n);
  }

  lemma {:induction false} Always(tr: seq<Step>)
    requires IsRun(tr)
    ensures Inv(Exec(tr))
  {
    hide Local;
    if tr == [] {
      Exclusion.Always(tr);
    } else {
      Always(tr[..|tr| - 1]);
      Preserved(Exec(tr[..|tr| - 1]), tr[|tr| - 1]);
    }
  }

  /**
   * For any number of concurrent writers: the successful fragments of writer `t` are, in wire order,
   * exactly the first bytes of its own data, as many as it counted, and all it put on the wire is a
   * prefix of its data that goes beyond those only by the bytes of a failing call.
   */
  lemma {:induction false} WriterProjection(tr: seq<Step>, t: Tid)
    requires IsRun(tr) && t < |Exec(tr).ts| && Exec(tr).ts[t].role.WriterRole?
    ensures var th, wire := Exec(tr).ts[t], Exec(tr).g.tx.wire;
            && |Counted(wire, t)| == th.added + ToAdd(th.pc) <= |th.role.data|
            && Counted(wire, t) == th.role.data[..|Counted(wire, t)|]
            && |Counted(wire, t)| <= |Sent(wire, t)| <= |th.role.data|
            && Sent(wire, t) == th.role.data[..|Sent(wire, t)|]
  {
    hide Local;
    Always(tr);
    assert L(Exec(tr).g, t, Exec(tr).ts[t]);
  }
}
