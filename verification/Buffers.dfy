/**
 * Ownership of the pooled buffers.  In every run each buffer is in exactly one place (the pool, one
 * sender, the loop's hand, one queue slot, the running handler), so cleanup runs once per use, and a
 * payload keeps the bytes that were copied for it until its handler has returned.
 */
module Buffers {
  import opened Basics
  import opened SocketMachine
  import Footprint

  /** The data call a thread is firing, and so the buffer it holds. */
  predicate HoldsBuffer(pc: Pc) { pc.Firing? && pc.call.OnData? }

  /** Buffer of data call `k` is at `loc` and holds the bytes of `k`. */
  predicate Placed(m: Mem, k: Call, loc: BufLoc) {
    k.OnData? ==> k.buf < |m.bufs| && m.bufs[k.buf] == Buf(k.payload, loc)
  }

  predicate Carries(k: Call, b: BufId) { k.OnData? && k.buf == b }

  ghost predicate InQueue(q: seq<Task>, b: BufId) { exists i :: 0 <= i < |q| && Carries(q[i].call, b) }

  /** Everything but the threads: pool, loop, queue and running handler agree with the locations. */
  ghost predicate Stored(m: Mem, loop: Loop, queue: seq<Task>, running: Option<Task>) {
    && (forall b :: b in m.pool ==> b < |m.bufs|)
    && (forall b :: 0 <= b < |m.bufs| ==> m.pool[b] == if m.bufs[b].loc.Pooled? then 1 else 0)
    && (loop.Holding? ==> Placed(m, loop.task.call, AtLoop))
    && (forall b :: 0 <= b < |m.bufs| && m.bufs[b].loc.AtLoop? ==> loop.Holding? && Carries(loop.task.call, b))
    && (forall i :: 0 <= i < |queue| ==> Placed(m, queue[i].call, Queued))
    && (forall i, j :: 0 <= i < j < |queue| && queue[i].call.OnData? && queue[j].call.OnData? ==>
          queue[i].call.buf != queue[j].call.buf)
    && (forall b :: 0 <= b < |m.bufs| && m.bufs[b].loc.Queued? ==> InQueue(queue, b))
    && (running.Some? ==> Placed(m, running.value.call, InHandler))
    && (forall b :: 0 <= b < |m.bufs| && m.bufs[b].loc.InHandler? ==> running.Some? && Carries(running.value.call, b))
  }

  ghost predicate G(g: Globals, n: nat) {
    && Stored(g.mem, g.loop, g.ev.queue, g.ev.running)
    && (forall b :: 0 <= b < |g.mem.bufs| && g.mem.bufs[b].loc.Held? ==> g.mem.bufs[b].loc.t < n)
  }

  ghost predicate Mine(m: Mem, t: Tid, pc: Pc) {
    && (HoldsBuffer(pc) ==> Placed(m, pc.call, Held(t)))
    && (forall b :: 0 <= b < |m.bufs| && m.bufs[b].loc == Held(t) ==> HoldsBuffer(pc) && pc.call.buf == b)
  }

  ghost predicate Inv(s: Sys) {
    G(s.g, |s.ts|) && forall t :: 0 <= t < |s.ts| ==> Mine(s.g.mem, t, s.ts[t].pc)
  }

  /** No step of another thread touches a buffer that thread `u` holds, or gives it one. */
  ghost predicate Frame(m: Mem, m': Mem, t: Tid) {
    && |m.bufs| <= |m'.bufs|
    && (forall b :: 0 <= b < |m.bufs| && m.bufs[b].loc.Held? && m.bufs[b].loc.t != t ==> m'.bufs[b] == m.bufs[b])
    && (forall b :: 0 <= b < |m'.bufs| && m'.bufs[b].loc.Held? && m'.bufs[b].loc.t != t ==>
          b < |m.bufs| && m.bufs[b].loc == m'.bufs[b].loc)
  }

  // ---------------------------------------------------------------- the moves of one buffer

  lemma Released(m: Mem, loop: Loop, queue: seq<Task>, running: Option<Task>, k: Call, t: Tid)
    requires Stored(m, loop, queue, running) && Placed(m, k, Held(t))
    ensures Stored(Release(m, k), loop, queue, running) && Frame(m, Release(m, k), t)
    ensures forall b :: 0 <= b < |m.bufs| ==>
              (Release(m, k).bufs[b].loc == Held(t) <==> m.bufs[b].loc == Held(t) && !Carries(k, b))
  {}

  lemma HandedOver(m: Mem, queue: seq<Task>, running: Option<Task>, task: Task, t: Tid)
    requires Stored(m, Select, queue, running) && Placed(m, task.call, Held(t))
    ensures Stored(Move(m, task.call, AtLoop), Holding(task), queue, running) && Frame(m, Move(m, task.call, AtLoop), t)
    ensures forall b :: 0 <= b < |m.bufs| ==>
              (Move(m, task.call, AtLoop).bufs[b].loc == Held(t) <==>
               m.bufs[b].loc == Held(t) && !Carries(task.call, b))
  {}

  /** Moving a buffer that no thread holds concerns no thread. */
  lemma MovesUnheld(m: Mem, k: Call, was: BufLoc, loc: BufLoc)
    requires Placed(m, k, was) && !was.Held? && !loc.Held?
    ensures forall t :: Frame(m, Move(m, k, loc), t)
    ensures loc.Pooled? ==> forall t :: Frame(m, Release(m, k), t)
  {}

  lemma Enqueued(m: Mem, queue: seq<Task>, running: Option<Task>, task: Task)
    requires Stored(m, Holding(task), queue, running)
    ensures Stored(Move(m, task.call, Queued), Select, queue + [task], running)
  {
    var m', q' := Move(m, task.call, Queued), queue + [task];
    forall b | 0 <= b < |m'.bufs| && m'.bufs[b].loc.Queued? ensures InQueue(q', b) {
      if m.bufs[b].loc.Queued? {
        var i :| 0 <= i < |queue| && Carries(queue[i].call, b);
        assert Carries(q'[i].call, b);
      } else {
        assert Carries(q'[|queue|].call, b);
      }
    }
  }

  lemma Dequeued(m: Mem, loop: Loop, queue: seq<Task>)
    requires Stored(m, loop, queue, None) && queue != []
    ensures Stored(Move(m, queue[0].call, InHandler), loop, queue[1..], Some(queue[0]))
  {
    var m', q' := Move(m, queue[0].call, InHandler), queue[1..];
    forall b | 0 <= b < |m'.bufs| && m'.bufs[b].loc.Queued? ensures InQueue(q', b) {
      var i :| 0 <= i < |queue| && Carries(queue[i].call, b);
      assert Carries(q'[i - 1].call, b);
    }
  }

  lemma HandlerReturned(m: Mem, loop: Loop, queue: seq<Task>, task: Task)
    requires Stored(m, loop, queue, Some(task))
    ensures Stored(Release(m, task.call), loop, queue, None)
  {
    hide InQueue;
    var m' := Release(m, task.call);
    if task.call.OnData? {
      assert m.pool[task.call.buf] == 0;
      forall c | 0 <= c < |m'.bufs| && m'.bufs[c].loc.Queued? ensures InQueue(queue, c)
      { assert m.bufs[c].loc.Queued?; }
    } else {
      assert m' == m;
    }
  }

  /** Where the calls being handled, started and queued have their buffers. */
  lemma StoredPlaces(m: Mem, loop: Loop, queue: seq<Task>, running: Option<Task>)
    requires Stored(m, loop, queue, running)
    ensures loop.Holding? ==> Placed(m, loop.task.call, AtLoop)
    ensures queue != [] ==> Placed(m, queue[0].call, Queued)
    ensures running.Some? ==> Placed(m, running.value.call, InHandler)
  {}

  lemma FilledNew(m: Mem, loop: Loop, queue: seq<Task>, running: Option<Task>, buf: Buf)
    requires Stored(m, loop, queue, running) && buf.loc.Held?
    ensures Stored(m.(bufs := m.bufs + [buf]), loop, queue, running)
    ensures Frame(m, m.(bufs := m.bufs + [buf]), buf.loc.t)
  {
    var m' := m.(bufs := m.bufs + [buf]);
    assert |m.bufs| !in m.pool;
    forall c | 0 <= c < |m'.bufs| && m'.bufs[c].loc.Queued? ensures InQueue(queue, c) { assert m.bufs[c].loc.Queued?; }
  }

  lemma FilledPooled(m: Mem, loop: Loop, queue: seq<Task>, running: Option<Task>, b: BufId, buf: Buf)
    requires Stored(m, loop, queue, running) && buf.loc.Held? && b < |m.bufs| && b in m.pool
    ensures Stored(m.(pool := m.pool - multiset{b}, bufs := m.bufs[b := buf]), loop, queue, running)
    ensures Frame(m, m.(pool := m.pool - multiset{b}, bufs := m.bufs[b := buf]), buf.loc.t)
  {
    var m' := m.(pool := m.pool - multiset{b}, bufs := m.bufs[b := buf]);
    assert m.bufs[b].loc.Pooled?;
    forall c | 0 <= c < |m'.bufs| && m'.bufs[c].loc.Queued? ensures InQueue(queue, c) { assert m.bufs[c].loc.Queued?; }
  }

  // ---------------------------------------------------------------- every step

  ghost predicate Kept(g: Globals, n: nat, t: Tid, o: Outcome) {
    o.Moved? ==> G(o.g, n) && Mine(o.g.mem, t, o.th.pc) && Frame(g.mem, o.g.mem, t)
  }

  ghost predicate Pre(g: Globals, n: nat, t: Tid, th: Thread) { t < n && G(g, n) && Mine(g.mem, t, th.pc) }

  lemma OwnLookup(g: Globals, n: nat, t: Tid, th: Thread, a: Action)
    requires Pre(g, n, t, th) && th.pc.Firing?
    ensures Kept(g, n, t, LookupStep(g, th, th.pc.call, a))
  {
    hide Stored, Release, Resume;
    Released(g.mem, g.loop, g.ev.queue, g.ev.running, th.pc.call, t);
    SizesKept(g.mem, th.pc.call);
    ResumesEmpty(th.pc.call);
  }

  lemma OwnSend(g: Globals, n: nat, t: Tid, th: Thread, a: Action)
    requires Pre(g, n, t, th) && th.pc.Firing?
    ensures Kept(g, n, t, SendStep(g, t, th, th.pc.call, a))
  {
    hide Stored, Release, Move, Resume;
    var k := th.pc.call;
    SizesKept(g.mem, k);
    ResumesEmpty(k);
    if a.HandOff? && g.loop.Select? { HandedOver(g.mem, g.ev.queue, g.ev.running, Task(t, th.parent, k), t); }
    else { Released(g.mem, g.loop, g.ev.queue, g.ev.running, k, t); }
  }

  lemma SizesKept(m: Mem, k: Call)
    ensures |Release(m, k).bufs| == |m.bufs| && forall loc :: |Move(m, k, loc).bufs| == |m.bufs|
    ensures forall b :: 0 <= b < |m.bufs| ==>
              Release(m, k).bufs[b].loc.Held? ==> m.bufs[b].loc == Release(m, k).bufs[b].loc
    ensures forall b :: 0 <= b < |m.bufs| ==>
              Move(m, k, AtLoop).bufs[b].loc.Held? ==> m.bufs[b].loc == Move(m, k, AtLoop).bufs[b].loc
    ensures forall b :: 0 <= b < |m.bufs| ==>
              Move(m, k, Queued).bufs[b].loc.Held? ==> m.bufs[b].loc == Move(m, k, Queued).bufs[b].loc
    ensures forall b :: 0 <= b < |m.bufs| ==>
              Move(m, k, InHandler).bufs[b].loc.Held? ==> m.bufs[b].loc == Move(m, k, InHandler).bufs[b].loc
  {}

  lemma ResumesEmpty(k: Call)
    ensures !HoldsBuffer(Resume(k))
  {}

  lemma OwnCopy(g: Globals, n: nat, t: Tid, th: Thread, a: Action)
    requires Pre(g, n, t, th) && th.pc.Reading? && th.pc.r.CopyRead?
    ensures Kept(g, n, t, ReadStep(g, t, th, th.pc.r, a))
  {
    hide Stored;
    if ReadStep(g, t, th, th.pc.r, a).Moved? {
      var buf := Buf(g.mem.readBuf[..|th.pc.r.chunk|], Held(t));
      if a.b == |g.mem.bufs| { FilledNew(g.mem, g.loop, g.ev.queue, g.ev.running, buf); }
      else { FilledPooled(g.mem, g.loop, g.ev.queue, g.ev.running, a.b, buf); }
    }
  }

  lemma ReadKeepsBuffers(g: Globals, t: Tid, th: Thread, pc: ReadPc, a: Action)
    requires ReadStep(g, t, th, pc, a).Moved? && !pc.CopyRead?
    ensures ReadStep(g, t, th, pc, a).g.mem.bufs == g.mem.bufs && ReadStep(g, t, th, pc, a).g.mem.pool == g.mem.pool
    ensures !HoldsBuffer(ReadStep(g, t, th, pc, a).th.pc)
  {
    match pc
    case Head => case Snap => case ArmRead(_, _) => case CallRead(_) => case PushRead(_, _, _) =>
    case AddRead(_, _, _) => case CopyRead(_, _, _) => case Test(_, _) =>
  }

  lemma OwnRead(g: Globals, n: nat, t: Tid, th: Thread, a: Action)
    requires Pre(g, n, t, th) && th.pc.Reading? && !th.pc.r.CopyRead?
    ensures Kept(g, n, t, ReadStep(g, t, th, th.pc.r, a))
  {
    hide ReadStep;
    if ReadStep(g, t, th, th.pc.r, a).Moved? {
      ReadKeepsBuffers(g, t, th, th.pc.r, a);
      Footprint.Reads(g, t, th, a);
    }
  }

  lemma OwnScript(g: Globals, n: nat, t: Tid, th: Thread, a: Action)
    requires Pre(g, n, t, th) && th.pc.Script? && a.Invoke?
    ensures Kept(g, n, t, ScriptStep(g, th, a.op))
  {
    hide Stored, Release, Move;
    match a.op
    case DoConnect(_) => case DoBadConnect => case DoWrite(_) => case DoBadWrite => case DoDestroy =>
    case DoSetTimeout(_) => case DoOn(_) => case DoReadyState =>
    case DoRunTask =>
      if g.ev.queue != [] && g.ev.running.None? {
        Dequeued(g.mem, g.loop, g.ev.queue);
        StoredPlaces(g.mem, g.loop, g.ev.queue, g.ev.running);
        MovesUnheld(g.mem, g.ev.queue[0].call, Queued, InHandler);
        SizesKept(g.mem, g.ev.queue[0].call);
      }
    case DoEndTask =>
      if g.ev.running.Some? {
        HandlerReturned(g.mem, g.loop, g.ev.queue, g.ev.running.value);
        StoredPlaces(g.mem, g.loop, g.ev.queue, g.ev.running);
        MovesUnheld(g.mem, g.ev.running.value.call, InHandler, Pooled);
        SizesKept(g.mem, g.ev.running.value.call);
      }
  }

  lemma OwnOther(g: Globals, n: nat, t: Tid, th: Thread, a: Action)
    requires Pre(g, n, t, th) && !th.pc.Firing? && !th.pc.Reading? && !th.pc.Script?
    ensures Kept(g, n, t, Local(g, t, th, a))
  {
    hide Local, Stored;
    Footprint.Of(g, t, th, a);
  }

  lemma Own(g: Globals, n: nat, t: Tid, th: Thread, a: Action)
    requires Pre(g, n, t, th)
    ensures Kept(g, n, t, Local(g, t, th, a))
  {
    hide ConnectStep, LookupStep, SendStep, ReadStep, DestroyStep, WriteStep, ScriptStep, TimeoutStep, ObserveStep,
      ReportStep, Mine, Stored, Frame;
    if th.pc.Firing? { if th.pc.sending { OwnSend(g, n, t, th, a); } else { OwnLookup(g, n, t, th, a); } }
    else if th.pc.Reading? { if th.pc.r.CopyRead? { OwnCopy(g, n, t, th, a); } else { OwnRead(g, n, t, th, a); } }
    else if th.pc.Script? { if a.Invoke? { OwnScript(g, n, t, th, a); } }
    else { OwnOther(g, n, t, th, a); }
  }

  lemma Others(m: Mem, m': Mem, t: Tid, u: Tid, pc: Pc)
    requires Frame(m, m', t) && u != t && Mine(m, u, pc)
    ensures Mine(m', u, pc)
  {}

  lemma Preserved(s: Sys, e: Step)
    requires Inv(s) && Enabled(s, e)
    ensures Inv(Apply(s, e))
  {
    hide Local, Mine, Stored, Release, Move;
    var s' := Apply(s, e);
    match e
    case ThreadStep(t, a) =>
      Own(s.g, |s.ts|, t, s.ts[t], a);
      Footprint.Of(s.g, t, s.ts[t], a);
      forall u | 0 <= u < |s'.ts| ensures Mine(s'.g.mem, u, s'.ts[u].pc) {
        if u < |s.ts| && u != t { Others(s.g.mem, s'.g.mem, t, u, s.ts[u].pc); }
        if u == |s.ts| { Newcomer(s'.g.mem, u, s'.ts[u].pc, |s.ts|); }
      }
    case EnvStep(v) =>
      if v.LoopQueues? {
        Enqueued(s.g.mem, s.g.ev.queue, s.g.ev.running, s.g.loop.task);
        StoredPlaces(s.g.mem, s.g.loop, s.g.ev.queue, s.g.ev.running);
        MovesUnheld(s.g.mem, s.g.loop.task.call, AtLoop, Queued);
        SizesKept(s.g.mem, s.g.loop.task.call);
      }
      else if v.LoopExits? { LoopGone(s.g.mem, s.g.ev.queue, s.g.ev.running); }
      forall u | 0 <= u < |s'.ts| ensures Mine(s'.g.mem, u, s'.ts[u].pc) {
        if v.LoopQueues? { Others(s.g.mem, s'.g.mem, u + 1, u, s.ts[u].pc); }
      }
  }

  lemma Newcomer(m: Mem, u: Tid, pc: Pc, n: nat)
    requires u == n && !HoldsBuffer(pc)
    requires forall b :: 0 <= b < |m.bufs| && m.bufs[b].loc.Held? ==> m.bufs[b].loc.t < n
    ensures Mine(m, u, pc)
  {}

  lemma LoopGone(m: Mem, queue: seq<Task>, running: Option<Task>)
    requires Stored(m, Select, queue, running)
    ensures Stored(m, Exited, queue, running)
  {}

  lemma {:induction false} Always(tr: seq<Step>)
    requires IsRun(tr)
    ensures Inv(Exec(tr))
  {
    hide Local, Inv;
    if tr == [] {
      Starts();
    } else {
      Always(tr[..|tr| - 1]);
      Preserved(Exec(tr[..|tr| - 1]), tr[|tr| - 1]);
    }
  }

  lemma Starts()
    ensures Inv(Init())
  {}

  // ---------------------------------------------------------------- what follows for every run

  predicate AtTheLoop(g: Globals, b: BufId) { g.loop.Holding? && Carries(g.loop.task.call, b) }

  predicate InTheHandler(g: Globals, b: BufId) { g.ev.running.Some? && Carries(g.ev.running.value.call, b) }

  ghost predicate WithThread(s: Sys, t: Tid, b: BufId) {
    t < |s.ts| && HoldsBuffer(s.ts[t].pc) && Carries(s.ts[t].pc.call, b)
  }

  /** Every buffer is somewhere. */
  lemma {:induction false} SomewhereAlways(tr: seq<Step>, b: BufId)
    requires IsRun(tr) && b < |Exec(tr).g.mem.bufs|
    ensures var s := Exec(tr);
            b in s.g.mem.pool || AtTheLoop(s.g, b) || InQueue(s.g.ev.queue, b) || InTheHandler(s.g, b) ||
            exists t :: WithThread(s, t, b)
  {
    hide Local;
    Always(tr);
    var s := Exec(tr);
    if s.g.mem.bufs[b].loc.Held? {
      var t := s.g.mem.bufs[b].loc.t;
      assert Mine(s.g.mem, t, s.ts[t].pc);
      assert WithThread(s, t, b);
    }
  }

  /** And nowhere else: no two of the places, no two threads, no two queue slots, no second copy in the pool. */
  lemma {:induction false} OnlyOnePlace(tr: seq<Step>, b: BufId, t: Tid, u: Tid)
    requires IsRun(tr) && b < |Exec(tr).g.mem.bufs|
    ensures Exec(tr).g.mem.pool[b] <= 1
    ensures WithThread(Exec(tr), t, b) && WithThread(Exec(tr), u, b) ==> t == u
    ensures WithThread(Exec(tr), t, b) ==>
              b !in Exec(tr).g.mem.pool && !AtTheLoop(Exec(tr).g, b) &&
              !InQueue(Exec(tr).g.ev.queue, b) && !InTheHandler(Exec(tr).g, b)
    ensures AtTheLoop(Exec(tr).g, b) ==>
              b !in Exec(tr).g.mem.pool && !InQueue(Exec(tr).g.ev.queue, b) && !InTheHandler(Exec(tr).g, b)
    ensures InQueue(Exec(tr).g.ev.queue, b) ==> b !in Exec(tr).g.mem.pool && !InTheHandler(Exec(tr).g, b)
    ensures InTheHandler(Exec(tr).g, b) ==> b !in Exec(tr).g.mem.pool
    ensures forall i, j :: 0 <= i < j < |Exec(tr).g.ev.queue| ==>
              !(Carries(Exec(tr).g.ev.queue[i].call, b) && Carries(Exec(tr).g.ev.queue[j].call, b))
  {
    hide Local;
    Always(tr);
    var s := Exec(tr);
    assert WithThread(s, t, b) ==> Mine(s.g.mem, t, s.ts[t].pc);
    assert WithThread(s, u, b) ==> Mine(s.g.mem, u, s.ts[u].pc);
  }

  /** From the copy until its handler returns, a payload is exactly the contents of its buffer. */
  lemma {:induction false} PayloadsAreStable(tr: seq<Step>, t: Tid)
    requires IsRun(tr) && t < |Exec(tr).ts|
    ensures var s := Exec(tr);
            && (HoldsBuffer(s.ts[t].pc) ==> Placed(s.g.mem, s.ts[t].pc.call, Held(t)))
            && (s.g.loop.Holding? ==> Placed(s.g.mem, s.g.loop.task.call, AtLoop))
            && (forall i :: 0 <= i < |s.g.ev.queue| ==> Placed(s.g.mem, s.g.ev.queue[i].call, Queued))
            && (s.g.ev.running.Some? ==> Placed(s.g.mem, s.g.ev.running.value.call, InHandler))
  {
    hide Local;
    Always(tr);
    assert Mine(Exec(tr).g.mem, t, Exec(tr).ts[t].pc);
  }
}
