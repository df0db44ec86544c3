/**
 * Every reader of every run is the read loop: the passes it has made follow one another as the loop's do,
 * and the events it has fired and the chunks it has read are exactly those of its passes, plus what the
 * pass under way has contributed so far.
 */
module ReaderLoops {
  import opened Basics
  import opened SocketMachine
  import opened Runs
  import opened ReadPasses
  import Footprint
  import Exclusion

  // ---------------------------------------------------------------- the history of one thread

  /** The pass a re-check completes. */
  function Completed(g: Globals, th: Thread, last: seq<byte>): seq<Pass> {
    if th.pc.Reading? && th.pc.r.Test? then [Pass(ReadResult(last, th.pc.r.err), g.core.st.Open?)] else []
  }

  /** The event a step starts to fire; `close` belongs to destroy. */
  function Fires(th: Thread, th': Thread): seq<Event> {
    if !th.pc.Firing? && th'.pc.Firing? && !th'.pc.call.OnClose? then [EventOf(th'.pc.call)] else []
  }

  /** The chunk of the last Read of thread `t`. */
  function LastChunk(steps: seq<Step>, t: Tid): seq<byte> {
    if steps == [] then []
    else
      var e := steps[|steps| - 1];
      if e.ThreadStep? && e.t == t && e.a.ReadReturned? then e.a.chunk else LastChunk(steps[..|steps| - 1], t)
  }

  ghost function Passes(tr: seq<Step>, t: Tid): seq<Pass>
    requires IsRun(tr)
  {
    if tr == [] then []
    else
      var p, e := tr[..|tr| - 1], tr[|tr| - 1];
      Passes(p, t) +
      if e.ThreadStep? && e.t == t then Completed(Exec(p).g, Exec(p).ts[t], LastChunk(p, t)) else []
  }

  ghost function Fired(tr: seq<Step>, t: Tid): seq<Event>
    requires IsRun(tr)
  {
    if tr == [] then []
    else
      var p, e := tr[..|tr| - 1], tr[|tr| - 1];
      Fired(p, t) + if e.ThreadStep? && e.t == t then Fires(Exec(p).ts[t], Exec(tr).ts[t]) else []
  }

  // ---------------------------------------------------------------- where the reader stands

  /** The pass under way has delivered nothing, or only its bytes, or nothing is left of it but its report. */
  predicate Stands(th: Thread, passes: seq<Pass>, fired: seq<Event>, last: seq<byte>) {
    OneLoop(passes) &&
    match th.pc
    case Reading(r) =>
      && Going(passes)
      && (match r
          case PushRead(chunk, _, _) => last == chunk != [] && fired == AllEvents(passes)
          case AddRead(chunk, _, _) => last == chunk != [] && fired == AllEvents(passes)
          case CopyRead(chunk, _, _) => last == chunk != [] && fired == AllEvents(passes)
          case Test(_, _) => fired == AllEvents(passes) + if last != [] then [Data] else []
          case _ => fired == AllEvents(passes))
      && th.chunks == Chunks(passes) + if !BeforeRead(r) && last != [] then [last] else []
    case Firing(k, _) =>
      if k.OnData? then
        && Going(passes) && last == k.chunk != [] && fired == AllEvents(passes) + [Data]
        && th.chunks == Chunks(passes) + [last]
      else
        && (k.OnTimeout? ==> Going(passes))
        && fired == AllEvents(passes) && th.chunks == Chunks(passes)
    case Reporting(_) => fired + [Error] == AllEvents(passes) && th.chunks == Chunks(passes)
    case _ => fired == AllEvents(passes) && th.chunks == Chunks(passes)
  }

  predicate BeforeRead(r: ReadPc) { r.Head? || r.Snap? || r.ArmRead? || r.CallRead? }

  function NextChunk(a: Action, last: seq<byte>): seq<byte> { if a.ReadReturned? then a.chunk else last }

  lemma OwnTest(g: Globals, t: Tid, th: Thread, a: Action, passes: seq<Pass>, fired: seq<Event>, last: seq<byte>)
    requires th.pc.Reading? && th.pc.r.Test? && ReadStep(g, t, th, th.pc.r, a).Moved? && Stands(th, passes, fired, last)
    ensures var th' := ReadStep(g, t, th, th.pc.r, a).th;
            Stands(th', passes + Completed(g, th, last), fired + Fires(th, th'), NextChunk(a, last))
  {
    hide AllEvents, Chunks, Going, OneLoop;
    var p := Pass(ReadResult(last, th.pc.r.err), g.core.st.Open?);
    OnePassMore(passes, p);
    assert fired + [] == fired;
  }

  lemma OwnCall(g: Globals, t: Tid, th: Thread, a: Action, passes: seq<Pass>, fired: seq<Event>, last: seq<byte>)
    requires th.pc.Reading? && !th.pc.r.Test?
    requires ReadStep(g, t, th, th.pc.r, a).Moved? && Stands(th, passes, fired, last)
    ensures var th' := ReadStep(g, t, th, th.pc.r, a).th;
            Stands(th', passes + Completed(g, th, last), fired + Fires(th, th'), NextChunk(a, last))
  {
    hide AllEvents, Chunks, Going, OneLoop;
    assert passes + [] == passes && fired + [] == fired;
    assert AllEvents(passes) + [] == AllEvents(passes) && Chunks(passes) + [] == Chunks(passes);
    match th.pc.r
    case Head => case Snap => case ArmRead(_, _) => case CallRead(_) => case PushRead(_, _, _) =>
    case AddRead(_, _, _) => case CopyRead(_, _, _) => case Test(_, _) =>
  }

  lemma OwnFire(g: Globals, t: Tid, th: Thread, a: Action, passes: seq<Pass>, fired: seq<Event>, last: seq<byte>)
    requires th.pc.Firing? && th.role.ReaderRole? && Exclusion.RolePc(th.role, th.pc)
    requires Local(g, t, th, a).Moved? && Stands(th, passes, fired, last)
    ensures Stands(Local(g, t, th, a).th, passes, fired, last) && !a.ReadReturned?
  {
    hide ConnectStep, ReadStep, DestroyStep, WriteStep, ScriptStep, TimeoutStep, ObserveStep, ReportStep;
    hide AllEvents, Chunks, Going, OneLoop, Release, Move;
    assert Chunks(passes) + [] == Chunks(passes);
    match th.pc.call
    case OnConnect => case OnData(_, _, _, _, _) => case OnTimeout(_) => case OnClose(_) =>
    case OnError(kind) => match kind case FromConnect => case FromPrepare => case FromRead(_) =>
  }

  lemma OwnRest(g: Globals, t: Tid, th: Thread, a: Action, passes: seq<Pass>, fired: seq<Event>, last: seq<byte>)
    requires !th.pc.Firing? && !th.pc.Reading? && th.role.ReaderRole? && Exclusion.RolePc(th.role, th.pc)
    requires Local(g, t, th, a).Moved? && Stands(th, passes, fired, last)
    ensures var th' := Local(g, t, th, a).th; Stands(th', passes, fired + Fires(th, th'), last) && !a.ReadReturned?
  {
    hide ConnectStep, LookupStep, SendStep, ReadStep, DestroyStep, WriteStep, ScriptStep, TimeoutStep, ObserveStep,
      ReportStep, AllEvents, Chunks, Going, OneLoop;
    Footprint.Of(g, t, th, a);
    OnlyScriptInvokes(g, t, th, a);
    assert fired + [] == fired;
  }

  lemma Own(g: Globals, t: Tid, th: Thread, a: Action, passes: seq<Pass>, fired: seq<Event>, last: seq<byte>)
    requires th.role.ReaderRole? && Exclusion.RolePc(th.role, th.pc)
    requires Local(g, t, th, a).Moved? && Stands(th, passes, fired, last)
    ensures var th' := Local(g, t, th, a).th;
            Stands(th', passes + Completed(g, th, last), fired + Fires(th, th'), NextChunk(a, last))
  {
    hide ConnectStep, LookupStep, SendStep, ReadStep, DestroyStep, WriteStep, ScriptStep, TimeoutStep, ObserveStep,
      ReportStep, Stands;
    assert passes + [] == passes && fired + [] == fired;
    if th.pc.Reading? {
      if th.pc.r.Test? { OwnTest(g, t, th, a, passes, fired, last); }
      else { OwnCall(g, t, th, a, passes, fired, last); }
    } else if th.pc.Firing? {
      OwnFire(g, t, th, a, passes, fired, last);
    } else {
      OwnRest(g, t, th, a, passes, fired, last);
    }
  }

  lemma Newborn(s: Sys, e: Step)
    requires Enabled(s, e) && |Apply(s, e).ts| > |s.ts| && Apply(s, e).ts[|s.ts|].role.ReaderRole?
    ensures forall last :: Stands(Apply(s, e).ts[|s.ts|], [], [], last)
  {
    hide Local;
    Footprint.Of(s.g, e.t, s.ts[e.t], e.a);
  }

  /** A thread that does not exist yet has no history. */
  lemma {:induction false} NoHistory(tr: seq<Step>, t: Tid)
    requires IsRun(tr) && t >= |Exec(tr).ts|
    ensures Passes(tr, t) == [] && Fired(tr, t) == []
  {
    hide Local;
    if tr != [] { NoHistory(tr[..|tr| - 1], t); }
  }

  /** How the history of a reader grows with a step of its own. */
  lemma OwnHistory(tr: seq<Step>, t: Tid)
    requires IsRun(tr) && tr != [] && tr[|tr| - 1].ThreadStep? && tr[|tr| - 1].t == t
    ensures var p, a := tr[..|tr| - 1], tr[|tr| - 1].a;
            var s := Exec(p);
            && t < |s.ts| && Local(s.g, t, s.ts[t], a).Moved? && Exec(tr).ts[t] == Local(s.g, t, s.ts[t], a).th
            && Passes(tr, t) == Passes(p, t) + Completed(s.g, s.ts[t], LastChunk(p, t))
            && Fired(tr, t) == Fired(p, t) + Fires(s.ts[t], Exec(tr).ts[t])
            && LastChunk(tr, t) == NextChunk(a, LastChunk(p, t))
  {
    hide Local;
  }

  lemma OtherHistory(tr: seq<Step>, t: Tid)
    requires IsRun(tr) && tr != [] && !(tr[|tr| - 1].ThreadStep? && tr[|tr| - 1].t == t)
    ensures var p := tr[..|tr| - 1];
            && Passes(tr, t) == Passes(p, t) && Fired(tr, t) == Fired(p, t) && LastChunk(tr, t) == LastChunk(p, t)
            && |Exec(p).ts| <= |Exec(tr).ts| <= |Exec(p).ts| + 1
            && (t < |Exec(p).ts| ==> Exec(tr).ts[t] == Exec(p).ts[t])
  {
    hide Local;
    assert Passes(tr[..|tr| - 1], t) + [] == Passes(tr[..|tr| - 1], t);
    assert Fired(tr[..|tr| - 1], t) + [] == Fired(tr[..|tr| - 1], t);
  }

  /** In every run every reader stands where its passes, its events and its chunks say. */
  lemma {:induction false} EveryReaderIsTheLoop(tr: seq<Step>, t: Tid)
    requires IsRun(tr) && t < |Exec(tr).ts| && Exec(tr).ts[t].role.ReaderRole?
    ensures Stands(Exec(tr).ts[t], Passes(tr, t), Fired(tr, t), LastChunk(tr, t))
  {
    hide Local, Stands, Completed, Fires, LastChunk, Passes, Fired;
    if tr != [] {
      var p, e := tr[..|tr| - 1], tr[|tr| - 1];
      var s := Exec(p);
      if e.ThreadStep? && e.t == t {
        OwnHistory(tr, t);
        Footprint.Of(s.g, t, s.ts[t], e.a);
        EveryReaderIsTheLoop(p, t);
        Exclusion.Always(p);
        assert Exclusion.L(s.g, t, s.ts[t]);
        Own(s.g, t, s.ts[t], e.a, Passes(p, t), Fired(p, t), LastChunk(p, t));
      } else {
        OtherHistory(tr, t);
        if t < |s.ts| {
          EveryReaderIsTheLoop(p, t);
        } else {
          NoHistory(p, t);
          Newborn(s, e);
        }
      }
    }
  }

  /** A reader between two passes, or past its last one, has fired and read exactly what its passes say. */
  lemma {:induction false} BetweenPasses(tr: seq<Step>, t: Tid)
    requires IsRun(tr) && t < |Exec(tr).ts| && Exec(tr).ts[t].role.ReaderRole?
    requires var pc := Exec(tr).ts[t].pc; pc.Finished? || pc.Destroying? || (pc.Reading? && pc.r.Head?)
    ensures OneLoop(Passes(tr, t)) && Fired(tr, t) == AllEvents(Passes(tr, t))
    ensures Exec(tr).ts[t].chunks == Chunks(Passes(tr, t))
  {
    hide Local, Passes, Fired, Exec;
    EveryReaderIsTheLoop(tr, t);
  }
}
