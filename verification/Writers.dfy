/**
 * Concurrent writers run the same fragment loop as the method does: in every interleaving the answers a
 * writer got are admissible for its data, decide what it has counted and sent, and when it is done they
 * are those of a finished loop.
 */
module Writers {
  import opened SocketMachine
  import opened Runs
  import Footprint
  import Fragments
  import Exclusion
  import Totals

  /** The answers thread `t` got; an accepted call without bytes counts as a failed one. */
  function Answers(wire: seq<Frag>, t: Tid): seq<Fragments.Answer> {
    if wire == [] then []
    else
      var f := wire[|wire| - 1];
      Answers(wire[..|wire| - 1], t) + if f.who == t then [Fragments.Answer(|f.bytes|, f.counted)] else []
  }

  lemma AnswersAppend(wire: seq<Frag>, f: Frag, t: Tid)
    ensures Answers(wire + [f], t) ==
              if f.who == t then Answers(wire, t) + [Fragments.Answer(|f.bytes|, f.counted)] else Answers(wire, t)
  {
    assert (wire + [f])[..|wire|] == wire;
  }

  lemma {:induction false} NoAnswers(wire: seq<Frag>, t: Tid)
    requires forall i :: 0 <= i < |wire| ==> wire[i].who != t
    ensures Answers(wire, t) == []
  {
    if wire != [] { NoAnswers(wire[..|wire| - 1], t); }
  }

  /** Where in `writeExecute` a thread with these answers can be. */
  ghost predicate At(len: nat, answers: seq<Fragments.Answer>, pc: Pc) {
    if !pc.Writing? then Fragments.Ended(len, answers) || answers == []
    else
      match pc.w
      case SnapWrite => answers == []
      case CallWrite(_, done) => !Fragments.Stopped(answers) && done == Fragments.Counted(answers)
      case AddWrite(_, done, n) => !Fragments.Stopped(answers) && done == Fragments.Counted(answers)
      case FailedWrite(done) => Fragments.Stopped(answers) && done == Fragments.Counted(answers)
      case CountWrite(done) => Fragments.Ended(len, answers) && done == Fragments.Counted(answers)
  }

  ghost predicate L(g: Globals, t: Tid, th: Thread) {
    th.role.WriterRole? ==>
      var answers := Answers(g.tx.wire, t);
      Fragments.Admissible(|th.role.data|, answers) && At(|th.role.data|, answers, th.pc)
  }

  ghost predicate Inv(s: Sys) { Totals.Inv(s) && forall t :: 0 <= t < |s.ts| ==> L(s.g, t, s.ts[t]) }

  lemma OwnWrite(g: Globals, t: Tid, th: Thread, a: Action)
    requires L(g, t, th) && th.pc.Writing? && th.role.WriterRole?
    requires WriteStep(g, t, th, th.role.data, th.pc.w, a).Moved?
    ensures L(WriteStep(g, t, th, th.role.data, th.pc.w, a).g, t, WriteStep(g, t, th, th.role.data, th.pc.w, a).th)
  {
    hide Fragments.Counted, Fragments.Carried, Fragments.Admissible, Fragments.Stopped, Answers;
    match th.pc.w
    case AddWrite(_, _, _) => case FailedWrite(_) => case CountWrite(_) =>
    case SnapWrite => Fragments.NoneYet(|th.role.data|);
    case CallWrite(c, done) =>
      if done < |th.role.data| {
        var f := Frag(t, c, th.role.data[done..done + a.n], a.ok && a.n > 0);
        AnswersAppend(g.tx.wire, f, t);
        Fragments.OneMore(|th.role.data|, Answers(g.tx.wire, t), Fragments.Answer(a.n, f.counted));
      } else {
        Fragments.ShortOnlyByLast(|th.role.data|, Answers(g.tx.wire, t));
      }
  }

  lemma Others(g: Globals, h: Globals, t: Tid, u: Tid, th: Thread)
    requires h.tx.wire == g.tx.wire ||
             (h.tx.wire != [] && h.tx.wire[..|h.tx.wire| - 1] == g.tx.wire && h.tx.wire[|h.tx.wire| - 1].who == t)
    requires u != t && L(g, u, th)
    ensures L(h, u, th)
  {
    hide Answers;
    if h.tx.wire != g.tx.wire {
      AnswersAppend(g.tx.wire, h.tx.wire[|h.tx.wire| - 1], u);
      assert h.tx.wire == g.tx.wire + [h.tx.wire[|h.tx.wire| - 1]];
    }
  }

  lemma Preserved(s: Sys, e: Step)
    requires Inv(s) && Enabled(s, e)
    ensures Inv(Apply(s, e))
  {
    hide ConnectStep, LookupStep, SendStep, ReadStep, DestroyStep, WriteStep, ScriptStep, TimeoutStep, ObserveStep,
      ReportStep, L, Exclusion.L, Totals.L;
    var s' := Apply(s, e);
    Totals.Preserved(s, e);
    match e
    case ThreadStep(t, a) =>
      var th := s.ts[t];
      assert Exclusion.L(s.g, t, th);
      Totals.Actor(s, t, a);
      Actor(s, t, a);
      forall u | 0 <= u < |s'.ts| ensures L(s'.g, u, s'.ts[u]) {
        if u < |s.ts| && u != t { Others(s.g, s'.g, t, u, s.ts[u]); }
      }
    case EnvStep(_) =>
      forall u | 0 <= u < |s'.ts| ensures L(s'.g, u, s'.ts[u]) { Others(s.g, s'.g, u + 1, u, s.ts[u]); }
  }

  lemma Actor(s: Sys, t: Tid, a: Action)
    requires Inv(s) && t < |s.ts| && Enabled(s, ThreadStep(t, a))
    ensures var s' := Apply(s, ThreadStep(t, a));
            L(s'.g, t, s'.ts[t]) && (|s'.ts| > |s.ts| ==> L(s'.g, |s.ts|, s'.ts[|s.ts|]))
  {
    hide ConnectStep, LookupStep, SendStep, ReadStep, DestroyStep, WriteStep, ScriptStep, TimeoutStep, ObserveStep,
      ReportStep, Exclusion.L, Totals.L, L;
    var th := s.ts[t];
    assert Exclusion.L(s.g, t, th) && L(s.g, t, th);
    Totals.WriterCode(s.g, t, th);
    Footprint.Of(s.g, t, th, a);
    var o := Local(s.g, t, th, a);
    var h := Record(o.g, t, o.spawn);
    if th.pc.Writing? { OwnWrite(s.g, t, th, a); }
    else {
      Stands(s.g, h, t, th, o.th);
      if o.spawn.Some? { Newborn(h, |s.ts|, o.spawn.value); }
    }
  }

  /** Other code of a thread concerns no writer. */
  lemma Stands(g: Globals, h: Globals, t: Tid, th: Thread, th': Thread)
    requires th.role.WriterRole? ==> th' == th && h.tx == g.tx && L(g, t, th)
    requires th'.role == th.role
    ensures L(h, t, th')
  {}

  lemma Newborn(g: Globals, n: nat, th: Thread)
    requires Totals.G(g, n) && (th.role.WriterRole? ==> th.pc.Writing? && th.pc.w.SnapWrite?)
    ensures L(g, n, th)
  {
    NoAnswers(g.tx.wire, n);
  }

  lemma {:induction false} Always(tr: seq<Step>)
    requires IsRun(tr)
    ensures Inv(Exec(tr))
  {
    hide Local;
    if tr == [] {
      Totals.Always(tr);
    } else {
      Always(tr[..|tr| - 1]);
      Preserved(Exec(tr[..|tr| - 1]), tr[|tr| - 1]);
    }
  }

  /** A counted fragment has bytes. */
  ghost predicate NoEmptyCounted(wire: seq<Frag>) {
    forall i :: 0 <= i < |wire| && wire[i].counted ==> wire[i].bytes != [] }

  lemma {:induction false} AnswersSize(wire: seq<Frag>, t: Tid)
    requires NoEmptyCounted(wire)
    ensures Fragments.Counted(Answers(wire, t)) == |Totals.Counted(wire, t)|
    ensures Fragments.Carried(Answers(wire, t)) == |Totals.Sent(wire, t)|
  {
    if wire != [] {
      var p, f := wire[..|wire| - 1], wire[|wire| - 1];
      AnswersSize(p, t);
      assert wire == p + [f];
      AnswersAppend(p, f, t);
      Totals.WireAppend(p, f, t);
      Fragments.OneMore(0, Answers(p, t), Fragments.Answer(|f.bytes|, f.counted));
    }
  }

  lemma WireStep(s: Sys, e: Step)
    requires Enabled(s, e) && NoEmptyCounted(s.g.tx.wire)
    ensures NoEmptyCounted(Apply(s, e).g.tx.wire)
  {
    hide ConnectStep, LookupStep, SendStep, ReadStep, DestroyStep, ScriptStep, TimeoutStep, ObserveStep, ReportStep;
    if e.ThreadStep? && !s.ts[e.t].pc.Writing? { Footprint.Of(s.g, e.t, s.ts[e.t], e.a); }
  }

  lemma {:induction false} CountedHasBytes(tr: seq<Step>)
    requires IsRun(tr)
    ensures NoEmptyCounted(Exec(tr).g.tx.wire)
  {
    hide Local;
    if tr != [] {
      CountedHasBytes(tr[..|tr| - 1]);
      WireStep(Exec(tr[..|tr| - 1]), tr[|tr| - 1]);
    }
  }

  /**
   * Every writer of every run is a fragment loop: its answers are admissible, what it sent is as much of
   * its data as they carried, and once it has ended with the connection it found, all its data was
   * counted if and only if no answer stopped it.
   */
  lemma {:induction false} EveryWriterIsTheLoop(tr: seq<Step>, t: Tid)
    requires IsRun(tr) && t < |Exec(tr).ts| && Exec(tr).ts[t].role.WriterRole?
    ensures var data, wire := Exec(tr).ts[t].role.data, Exec(tr).g.tx.wire;
            var answers := Answers(wire, t);
            && Fragments.Admissible(|data|, answers)
            && Fragments.Carried(answers) <= |data| && Totals.Sent(wire, t) == data[..Fragments.Carried(answers)]
            && Totals.Counted(wire, t) == data[..Fragments.Counted(answers)]
            && (Exec(tr).ts[t].pc.Finished? && answers != [] ==>
                (Totals.Counted(wire, t) == data <==> !Fragments.Stopped(answers)))
  {
    hide Local;
    Always(tr);
    Totals.WriterProjection(tr, t);
    CountedHasBytes(tr);
    var th := Exec(tr).ts[t];
    assert L(Exec(tr).g, t, th);
    AnswersSize(Exec(tr).g.tx.wire, t);
    Fragments.ShortOnlyByLast(|th.role.data|, Answers(Exec(tr).g.tx.wire, t));
  }

  // ---------------------------------------------------------------- partial writes

  /** A Write answers by the io.Writer contract: all bytes, or an error. */
  predicate Obeys(s: Sys, e: Step) {
    (e.ThreadStep? && e.t < |s.ts| && s.ts[e.t].pc.Writing? && s.ts[e.t].pc.w.CallWrite? &&
     s.ts[e.t].role.WriterRole? &&
     e.a.WriteReturned? && e.a.ok) ==> e.a.n == |s.ts[e.t].role.data| - s.ts[e.t].pc.w.done
  }

  predicate AllOrNothing(th: Thread) {
    th.pc.Writing? && th.role.WriterRole? ==>
      Totals.Progress(th.pc.w) == 0 || Totals.Progress(th.pc.w) == |th.role.data|
  }

  lemma WholeStep(s: Sys, e: Step)
    requires Exclusion.Inv(s) && Enabled(s, e) && Obeys(s, e)
    requires s.g.tx.partials == 0 && forall t :: 0 <= t < |s.ts| ==> AllOrNothing(s.ts[t])
    ensures Apply(s, e).g.tx.partials == 0
    ensures forall t :: 0 <= t < |Apply(s, e).ts| ==> AllOrNothing(Apply(s, e).ts[t])
  {
    hide ConnectStep, LookupStep, SendStep, ReadStep, DestroyStep, WriteStep, ScriptStep, TimeoutStep, ObserveStep,
      ReportStep;
    if e.ThreadStep? {
      var th := s.ts[e.t];
      assert Exclusion.L(s.g, e.t, th);
      Footprint.Of(s.g, e.t, th, e.a);
      Totals.WriterCode(s.g, e.t, th);
      if th.pc.Writing? { WholeWrite(s.g, e.t, th, th.pc.w, e.a); }
    }
  }

  lemma WholeWrite(g: Globals, t: Tid, th: Thread, w: WritePc, a: Action)
    requires th.role.WriterRole? && WriteStep(g, t, th, th.role.data, w, a).Moved?
    requires Totals.Progress(w) == 0 || Totals.Progress(w) == |th.role.data|
    requires w.CallWrite? && a.WriteReturned? && a.ok ==> a.n == |th.role.data| - w.done
    ensures var o := WriteStep(g, t, th, th.role.data, w, a); o.g.tx.partials == g.tx.partials && AllOrNothing(o.th)
  {
    match w
    case SnapWrite => case CallWrite(_, _) => case AddWrite(_, _, _) => case FailedWrite(_) => case CountWrite(_) =>
  }

  /** If every Write obeys the io.Writer contract, the partial-write counter stays at zero in every run. */
  lemma {:induction false} NoPartialWrites(tr: seq<Step>)
    requires IsRun(tr) && forall i :: 0 <= i < |tr| ==> Obeys(Runs.At(tr, i), tr[i])
    ensures Exec(tr).g.tx.partials == 0
    ensures forall t :: 0 <= t < |Exec(tr).ts| ==> AllOrNothing(Exec(tr).ts[t])
  {
    hide Local, Obeys;
    if tr != [] {
      var p := tr[..|tr| - 1];
      forall i | 0 <= i < |p| ensures Obeys(Runs.At(p, i), p[i]) {
        AtPrefix(tr, |p|, i);
        assert p[i] == tr[i];
      }
      NoPartialWrites(p);
      Exclusion.Always(p);
      WholeStep(Exec(p), tr[|tr| - 1]);
    }
  }

  // ---------------------------------------------------------------- one connection for each writer

  /** All fragments of `t` went to connection `c`. */
  ghost predicate AllTo(wire: seq<Frag>, t: Tid, c: ConnId) {
    forall i :: 0 <= i < |wire| && wire[i].who == t ==> wire[i].conn == c }

  ghost predicate Unmixed(wire: seq<Frag>) {
    forall i, j :: 0 <= i < j < |wire| && wire[i].who == wire[j].who ==> wire[i].conn == wire[j].conn
  }

  ghost predicate Sticks(wire: seq<Frag>, t: Tid, th: Thread) {
    && (th.pc.Writing? && th.pc.w.CallWrite? ==> AllTo(wire, t, th.pc.w.c))
    && (th.pc.Writing? && th.pc.w.AddWrite? ==> AllTo(wire, t, th.pc.w.c))
    && (th.pc.Writing? && th.pc.w.SnapWrite? ==> forall i :: 0 <= i < |wire| ==> wire[i].who != t)
  }

  ghost predicate Apart(s: Sys) {
    Unmixed(s.g.tx.wire) && forall t :: 0 <= t < |s.ts| ==> Sticks(s.g.tx.wire, t, s.ts[t]) }

  lemma SticksWrite(g: Globals, t: Tid, th: Thread, w: WritePc, a: Action)
    requires th.pc == Writing(w) && th.role.WriterRole? && WriteStep(g, t, th, th.role.data, w, a).Moved?
    requires Unmixed(g.tx.wire) && Sticks(g.tx.wire, t, th)
    ensures var o := WriteStep(g, t, th, th.role.data, w, a);
            && Unmixed(o.g.tx.wire) && Sticks(o.g.tx.wire, t, o.th)
            && (o.g.tx.wire == g.tx.wire || (exists f: Frag :: f.who == t && o.g.tx.wire == g.tx.wire + [f]))
  {
    match w
    case SnapWrite => case AddWrite(_, _, _) => case FailedWrite(_) => case CountWrite(_) =>
    case CallWrite(c, done) =>
      if done < |th.role.data| {
        var f := Frag(t, c, th.role.data[done..done + a.n], a.ok && a.n > 0);
        assert WriteStep(g, t, th, th.role.data, w, a).g.tx.wire == g.tx.wire + [f];
      }
  }

  lemma ApartStep(s: Sys, e: Step)
    requires Totals.Inv(s) && Apart(s) && Enabled(s, e)
    ensures Apart(Apply(s, e))
  {
    hide ConnectStep, LookupStep, SendStep, ReadStep, DestroyStep, WriteStep, ScriptStep, TimeoutStep, ObserveStep,
      ReportStep, Exclusion.L, Totals.L;
    var s' := Apply(s, e);
    match e
    case ThreadStep(t, a) =>
      var th := s.ts[t];
      assert Exclusion.L(s.g, t, th);
      Totals.WriterCode(s.g, t, th);
      Footprint.Of(s.g, t, th, a);
      if th.pc.Writing? { SticksWrite(s.g, t, th, th.pc.w, a); }
      forall u | 0 <= u < |s'.ts| ensures Sticks(s'.g.tx.wire, u, s'.ts[u]) {
        if u < |s.ts| && u != t { assert Sticks(s.g.tx.wire, u, s.ts[u]); }
      }
    case EnvStep(_) =>
      forall u | 0 <= u < |s'.ts| ensures Sticks(s'.g.tx.wire, u, s'.ts[u]) { assert Sticks(s.g.tx.wire, u, s.ts[u]); }
  }

  /** A writer keeps to the connection it took at its start: its fragments never spread over two connections. */
  lemma {:induction false} NeverTwoConnections(tr: seq<Step>)
    requires IsRun(tr)
    ensures Apart(Exec(tr))
  {
    hide Local;
    if tr != [] {
      NeverTwoConnections(tr[..|tr| - 1]);
      Totals.Always(tr[..|tr| - 1]);
      ApartStep(Exec(tr[..|tr| - 1]), tr[|tr| - 1]);
    }
  }
}
