/**
 * The order of events.  In every run handlers start in exactly the order in which the loop accepted
 * their calls; the `connect` of a connect goroutine precedes every event of the reader it started; and
 * when a reader itself runs teardown, its `close` follows everything that reader sent.
 */
module EventOrder {
  import opened SocketMachine
  import Footprint
  import Exclusion

  function AtHand(l: Loop): seq<Task> { if l.Holding? then [l.task] else [] }

  // ---------------------------------------------------------------- one order from channel to handler

  lemma InOrderStep(s: Sys, e: Step)
    requires Enabled(s, e) && s.g.ev.accepted == s.g.ev.started + s.g.ev.queue + AtHand(s.g.loop)
    ensures var g := Apply(s, e).g; g.ev.accepted == g.ev.started + g.ev.queue + AtHand(g.loop)
  {
    hide ConnectStep, LookupStep, SendStep, ReadStep, DestroyStep, WriteStep, ScriptStep, TimeoutStep, ObserveStep,
      ReportStep;
    if e.ThreadStep? {
      var th := s.ts[e.t];
      if th.pc.Script? { InOrderScript(s.g, th, e.a.op); }
      if th.pc.Firing? { InOrderFire(s.g, e.t, th, e.a); } else { Footprint.Of(s.g, e.t, th, e.a); }
    }
  }

  lemma InOrderFire(g: Globals, t: Tid, th: Thread, a: Action)
    requires th.pc.Firing? && Local(g, t, th, a).Moved?
    ensures var h := Local(g, t, th, a).g;
            && h.ev.started == g.ev.started && h.ev.queue == g.ev.queue
            && ((h.ev.accepted == g.ev.accepted && h.loop == g.loop) ||
                (g.loop.Select? && h.loop.Holding? && h.ev.accepted == g.ev.accepted + [h.loop.task]))
  {
    hide ConnectStep, ReadStep, DestroyStep, WriteStep, ScriptStep, TimeoutStep, ObserveStep, ReportStep;
  }

  lemma InOrderScript(g: Globals, th: Thread, op: ScriptOp)
    requires ScriptStep(g, th, op).Moved?
    ensures ScriptStep(g, th, op).g.ev.started + ScriptStep(g, th, op).g.ev.queue == g.ev.started + g.ev.queue
    ensures ScriptStep(g, th, op).g.ev.accepted == g.ev.accepted && ScriptStep(g, th, op).g.loop == g.loop
  {
    match op
    case DoConnect(_) => case DoBadConnect => case DoWrite(_) => case DoBadWrite => case DoDestroy =>
    case DoSetTimeout(_) => case DoOn(_) => case DoReadyState => case DoEndTask =>
    case DoRunTask => assert g.ev.queue == [g.ev.queue[0]] + g.ev.queue[1..];
  }

  /** Accepted calls are those already started, then those queued, then the one in the loop's hand. */
  lemma {:induction false} HandledInAcceptanceOrder(tr: seq<Step>)
    requires IsRun(tr)
    ensures var g := Exec(tr).g; g.ev.accepted == g.ev.started + g.ev.queue + AtHand(g.loop)
  {
    hide Local;
    if tr != [] {
      HandledInAcceptanceOrder(tr[..|tr| - 1]);
      InOrderStep(Exec(tr[..|tr| - 1]), tr[|tr| - 1]);
    }
  }

  // ---------------------------------------------------------------- connect first, close last

  /** The connect goroutine has not started its reader yet. */
  predicate BeforeSpawn(pc: Pc) { (pc.Connecting? && !pc.c.Count?) || (pc.Firing? && pc.call.OnConnect?) }

  predicate ReaderClose(k: Call) { k.OnClose? && k.ret.ToReaderEnd? }

  /** The reader has sent everything it will ever send. */
  predicate Ended(pc: Pc) {
    pc.Finished? || (pc.Destroying? && pc.ret.ToReaderEnd? && (pc.d.Cancel? || pc.d.LeaveOnce?)) }

  /** No call accepted later violates the order set by the call at `i`. */
  ghost predicate Ordered(acc: seq<Task>) {
    && (forall i, j :: 0 <= i < j < |acc| ==> (acc[j].call.OnConnect? ==> acc[i].origin != acc[j].sender))
    && (forall i, j :: 0 <= i < j < |acc| ==> (ReaderClose(acc[i].call) ==> acc[j].sender != acc[i].sender))
  }

  ghost predicate G(g: Globals, n: nat) {
    && Ordered(g.ev.accepted)
    && (forall k :: k in g.spawned ==> k < n)
    && (forall i :: 0 <= i < |g.ev.accepted| ==> Sent(g, n, g.ev.accepted[i]))
  }

  ghost predicate Sent(g: Globals, n: nat, k: Task) {
    && k.sender < n
    && (k.origin == 0 || k.origin in g.spawned)
    && (k.call.OnConnect? ==> k.sender != 0 && k.origin == 0)
  }

  ghost predicate L(g: Globals, t: Tid, th: Thread) {
    && (th.parent == 0 || th.parent in g.spawned)
    && (!th.role.ReaderRole? ==> th.parent == 0)
    && (BeforeSpawn(th.pc) ==> t !in g.spawned)
    && (forall i :: 0 <= i < |g.ev.accepted| ==>
          (ReaderClose(g.ev.accepted[i].call) && g.ev.accepted[i].sender == t ==> Ended(th.pc)))
  }

  ghost predicate Inv(s: Sys) {
    Exclusion.Inv(s) && G(s.g, |s.ts|) && forall t :: 0 <= t < |s.ts| ==> L(s.g, t, s.ts[t])
  }

  lemma OrderedAppend(g: Globals, n: nat, t: Tid, th: Thread)
    requires G(g, n) && L(g, t, th) && Exclusion.L(g, t, th) && t < n && th.pc.Firing?
    ensures Ordered(g.ev.accepted + [Task(t, th.parent, th.pc.call)])
  {
    var acc := g.ev.accepted;
    var task := Task(t, th.parent, th.pc.call);
    forall i | 0 <= i < |acc|
      ensures task.call.OnConnect? ==> acc[i].origin != t
      ensures ReaderClose(acc[i].call) ==> t != acc[i].sender
    {
      assert Sent(g, n, acc[i]);
    }
  }

  lemma SendStepKeeps(s: Sys, t: Tid, a: Action)
    requires Inv(s) && t < |s.ts| && s.ts[t].pc.Firing? && Enabled(s, ThreadStep(t, a))
    ensures Inv(Apply(s, ThreadStep(t, a)))
  {
    hide ConnectStep, ReadStep, DestroyStep, WriteStep, ScriptStep, TimeoutStep, ObserveStep, ReportStep, Exclusion.L;
    var s' := Apply(s, ThreadStep(t, a));
    Exclusion.Preserved(s, ThreadStep(t, a));
    Footprint.Of(s.g, t, s.ts[t], a);
    assert L(s.g, t, s.ts[t]) && Exclusion.L(s.g, t, s.ts[t]);
    OrderedAppend(s.g, |s.ts|, t, s.ts[t]);
    AfterFire(s.g, t, s.ts[t], a);
    forall i | 0 <= i < |s'.g.ev.accepted| ensures Sent(s'.g, |s'.ts|, s'.g.ev.accepted[i]) {
      if i < |s.g.ev.accepted| { assert Sent(s.g, |s.ts|, s.g.ev.accepted[i]); }
    }
    forall u | 0 <= u < |s'.ts| ensures L(s'.g, u, s'.ts[u]) {
      assert L(s.g, u, s.ts[u]);
    }
  }

  /** What one `fire` step does to the accepted calls and to the caller. */
  lemma AfterFire(g: Globals, t: Tid, th: Thread, a: Action)
    requires th.pc.Firing? && Local(g, t, th, a).Moved? && Exclusion.L(g, t, th) && L(g, t, th)
    ensures var o := Local(g, t, th, a);
            && (o.g.ev.accepted == g.ev.accepted || o.g.ev.accepted == g.ev.accepted + [Task(t, th.parent, th.pc.call)])
            && (BeforeSpawn(o.th.pc) ==> BeforeSpawn(th.pc))
            && (th.pc.call.OnConnect? ==> t != 0 && th.parent == 0)
            && (ReaderClose(th.pc.call) && o.g.ev.accepted != g.ev.accepted ==> Ended(o.th.pc))
            && o.spawn.None?
  {
    hide ConnectStep, ReadStep, DestroyStep, WriteStep, ScriptStep, TimeoutStep, ObserveStep, ReportStep;
    match th.pc.call
    case OnConnect => case OnData(_, _, _, _, _) => case OnTimeout(_) => case OnClose(_) => case OnError(_) =>
  }

  /** A step that is not a `fire`: no call is accepted, and the thread's claims survive. */
  lemma AfterOther(g: Globals, n: nat, t: Tid, th: Thread, a: Action)
    requires !th.pc.Firing? && Local(g, t, th, a).Moved? && L(g, t, th)
    ensures var o := Local(g, t, th, a);
            && o.g.ev.accepted == g.ev.accepted
            && (BeforeSpawn(o.th.pc) ==> BeforeSpawn(th.pc))
            && (Ended(th.pc) ==> Ended(o.th.pc) || th.pc.Destroying?)
  {
    hide LookupStep, SendStep, ReadStep, DestroyStep, WriteStep, ScriptStep, TimeoutStep, ObserveStep, ReportStep,
      ConnectStep;
    Footprint.Of(g, t, th, a);
    if th.pc.Script? { Footprint.ScriptEvents(g, th, a.op); }
    else if th.pc.Connecting? { CountIsLast(g, t, th, th.pc.c, a); }
  }

  lemma CountIsLast(g: Globals, t: Tid, th: Thread, pc: ConnectPc, a: Action)
    requires ConnectStep(g, t, th, pc, a).Moved?
    ensures pc.Count? ==> ConnectStep(g, t, th, pc, a).th.pc.Finished?
    ensures pc.Spawn? ==> ConnectStep(g, t, th, pc, a).th.pc == Connecting(Count)
    ensures ConnectStep(g, t, th, pc, a).spawn.Some? ==>
              pc.Spawn? && ConnectStep(g, t, th, pc, a).spawn.value.parent == t
  {
    match pc
    case Begin(_) => case Resolve(_) => case Dial(_) => case Handshake(_) => case Publish(_) =>
    case Arm(_) => case Fail(_) => case Unlock(_) => case Spawn => case Count =>
  }

  lemma EndedStays(g: Globals, t: Tid, th: Thread, a: Action)
    requires th.pc.Destroying? && th.pc.ret.ToReaderEnd? && Ended(th.pc) && Local(g, t, th, a).Moved?
    ensures Ended(Local(g, t, th, a).th.pc)
  {
    hide LookupStep, SendStep, ReadStep, WriteStep, ScriptStep, TimeoutStep, ObserveStep, ReportStep, ConnectStep;
  }

  lemma OtherStepKeeps(s: Sys, t: Tid, a: Action)
    requires Inv(s) && t < |s.ts| && !s.ts[t].pc.Firing? && Enabled(s, ThreadStep(t, a))
    ensures Inv(Apply(s, ThreadStep(t, a)))
  {
    hide Local, Exclusion.L, BeforeSpawn;
    var s' := Apply(s, ThreadStep(t, a));
    var th := s.ts[t];
    var o := Local(s.g, t, th, a);
    Exclusion.Preserved(s, ThreadStep(t, a));
    Footprint.Of(s.g, t, th, a);
    assert L(s.g, t, th);
    AfterOther(s.g, |s.ts|, t, th, a);
    Spawning(s, t, a);
    forall i | 0 <= i < |s'.g.ev.accepted| ensures Sent(s'.g, |s'.ts|, s'.g.ev.accepted[i]) {
      assert Sent(s.g, |s.ts|, s.g.ev.accepted[i]);
    }
    forall u | 0 <= u < |s'.ts| ensures L(s'.g, u, s'.ts[u]) {
      if u < |s.ts| { assert L(s.g, u, s.ts[u]); }
      if u == t {
        forall i | 0 <= i < |s.g.ev.accepted| && ReaderClose(s.g.ev.accepted[i].call) && s.g.ev.accepted[i].sender == t
          ensures Ended(o.th.pc)
        {
          ReaderStaysEnded(s, t, a, i);
        }
      }
      if u == |s.ts| {
        forall i | 0 <= i < |s.g.ev.accepted| ensures s.g.ev.accepted[i].sender != u {
          assert Sent(s.g, |s.ts|, s.g.ev.accepted[i]);
        }
      }
    }
  }

  /** Who is recorded when a thread is started. */
  lemma Spawning(s: Sys, t: Tid, a: Action)
    requires Inv(s) && t < |s.ts| && Enabled(s, ThreadStep(t, a)) && !s.ts[t].pc.Firing?
    ensures var s' := Apply(s, ThreadStep(t, a));
            && (s'.g.spawned == s.g.spawned || s'.g.spawned == s.g.spawned + {t})
            && (s'.g.spawned != s.g.spawned ==> !BeforeSpawn(s'.ts[t].pc))
            && (|s'.ts| > |s.ts| ==> (s'.ts[|s.ts|].parent == 0 || s'.ts[|s.ts|].parent in s'.g.spawned))
            && (|s'.ts| > |s.ts| && !s'.ts[|s.ts|].role.ReaderRole? ==> s'.ts[|s.ts|].parent == 0)
            && (|s'.ts| > |s.ts| && BeforeSpawn(s'.ts[|s.ts|].pc) ==> |s.ts| !in s'.g.spawned)
  {
    hide LookupStep, SendStep, ReadStep, DestroyStep, WriteStep, ScriptStep, TimeoutStep, ObserveStep, ReportStep,
      ConnectStep;
    var th := s.ts[t];
    Footprint.Of(s.g, t, th, a);
    if th.pc.Connecting? { CountIsLast(s.g, t, th, th.pc.c, a); }
    SpawnedAreThreads(s);
  }

  lemma SpawnedAreThreads(s: Sys)
    requires Inv(s)
    ensures |s.ts| !in s.g.spawned
  {
  }

  lemma ReaderStaysEnded(s: Sys, t: Tid, a: Action, i: nat)
    requires Inv(s) && t < |s.ts| && Enabled(s, ThreadStep(t, a)) && i < |s.g.ev.accepted|
    requires ReaderClose(s.g.ev.accepted[i].call) && s.g.ev.accepted[i].sender == t
    ensures Ended(Local(s.g, t, s.ts[t], a).th.pc)
  {
    hide LookupStep, SendStep, ReadStep, DestroyStep, WriteStep, ScriptStep, TimeoutStep, ObserveStep, ReportStep,
      ConnectStep;
    assert L(s.g, t, s.ts[t]) && Exclusion.L(s.g, t, s.ts[t]);
    EndedStays(s.g, t, s.ts[t], a);
  }

  lemma EnvKeeps(s: Sys, e: Step)
    requires Inv(s) && Enabled(s, e) && e.EnvStep?
    ensures Inv(Apply(s, e))
  {
    hide Exclusion.L;
    var s' := Apply(s, e);
    Exclusion.Preserved(s, e);
    forall i | 0 <= i < |s'.g.ev.accepted| ensures Sent(s'.g, |s'.ts|, s'.g.ev.accepted[i]) {
      assert Sent(s.g, |s.ts|, s.g.ev.accepted[i]);
    }
    forall u | 0 <= u < |s'.ts| ensures L(s'.g, u, s'.ts[u]) { assert L(s.g, u, s.ts[u]); }
  }

  lemma {:induction false} Always(tr: seq<Step>)
    requires IsRun(tr)
    ensures Inv(Exec(tr))
  {
    hide Local, Inv;
    if tr == [] {
      Starts();
    } else {
      var s, e := Exec(tr[..|tr| - 1]), tr[|tr| - 1];
      Always(tr[..|tr| - 1]);
      if e.EnvStep? { EnvKeeps(s, e); }
      else if s.ts[e.t].pc.Firing? { SendStepKeeps(s, e.t, e.a); }
      else { OtherStepKeeps(s, e.t, e.a); }
    }
  }

  lemma Starts()
    ensures Inv(Init())
  {
    assert Exec([]) == Init();
    Exclusion.Always([]);
  }

  /** The `connect` of a connect goroutine comes before every event of the reader it started. */
  lemma {:induction false} ConnectComesFirst(tr: seq<Step>, i: nat, j: nat)
    requires IsRun(tr) && i < |Exec(tr).g.ev.accepted| && j < |Exec(tr).g.ev.accepted|
    requires Exec(tr).g.ev.accepted[j].call.OnConnect?
    requires Exec(tr).g.ev.accepted[i].origin == Exec(tr).g.ev.accepted[j].sender
    ensures j < i
  {
    hide Local;
    Always(tr);
    var g := Exec(tr).g;
    assert Sent(g, |Exec(tr).ts|, g.ev.accepted[j]);
    assert Sent(g, |Exec(tr).ts|, g.ev.accepted[i]);
  }

  /** When a reader runs teardown, its `close` comes after everything that reader sent. */
  lemma {:induction false} ReaderCloseComesLast(tr: seq<Step>, i: nat, j: nat)
    requires IsRun(tr) && i < |Exec(tr).g.ev.accepted| && j < |Exec(tr).g.ev.accepted| && i != j
    requires ReaderClose(Exec(tr).g.ev.accepted[i].call)
    requires Exec(tr).g.ev.accepted[j].sender == Exec(tr).g.ev.accepted[i].sender
    ensures j < i
  {
    hide Local;
    Always(tr);
  }
}
