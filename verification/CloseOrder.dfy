/**
 * `close` against the other events.  Whatever was accepted before any destroy began comes before every
 * `close`; and for each connect goroutine it is decided, at the step that accepts `close`, on which side
 * of it its `connect` will fall.
 */
module CloseOrder {
  import opened SocketMachine
  import opened Runs
  import Footprint
  import CloseEvent
  import Payloads

  /** What has been accepted stays where it is. */
  lemma {:induction false} AcceptedGrows(tr: seq<Step>, i: nat)
    requires IsRun(tr) && i <= |tr|
    ensures At(tr, i).g.ev.accepted <= Exec(tr).g.ev.accepted
    decreases |tr| - i
  {
    hide Local;
    if i == |tr| {
      AtEnd(tr);
    } else {
      StepAt(tr, i);
      Payloads.AcceptsStep(At(tr, i), tr[i]);
      AcceptedGrows(tr, i + 1);
    }
  }

  lemma {:induction false} NoClose(acc: seq<Task>, y: nat)
    requires CloseEvent.Closes(acc) == 0 && y < |acc|
    ensures !acc[y].call.OnClose?
  {
    if y < |acc| - 1 { NoClose(acc[..|acc| - 1], y); }
  }

  /** A call accepted while no destroy had begun precedes every `close`. */
  lemma {:induction false} AcceptedBeforeDestroy(tr: seq<Step>, i: nat, x: nat, y: nat)
    requires IsRun(tr) && i <= |tr| && At(tr, i).g.once.Fresh? && x < |At(tr, i).g.ev.accepted|
    requires y < |Exec(tr).g.ev.accepted| && Exec(tr).g.ev.accepted[y].call.OnClose?
    ensures x < y && Exec(tr).g.ev.accepted[x] == At(tr, i).g.ev.accepted[x]
  {
    hide Local, CloseEvent.Closes;
    AcceptedGrows(tr, i);
    PrefixIsRun(tr, i);
    CloseEvent.Always(tr[..i]);
    var acc := At(tr, i).g.ev.accepted;
    if y < |acc| { NoClose(acc, y); }
  }

  // ---------------------------------------------------------------- the step that accepts a call

  /** Step `n` accepts the call at position `x`. */
  ghost predicate Accepts(tr: seq<Step>, n: nat, x: nat)
    requires IsRun(tr)
  {
    n < |tr| && |At(tr, n).g.ev.accepted| == x && |At(tr, n + 1).g.ev.accepted| == x + 1
  }

  /** The sender of a call accepted at step `n` was firing it, and has gone on. */
  ghost predicate Hands(tr: seq<Step>, n: nat, task: Task)
    requires IsRun(tr)
  {
    && n < |tr| && task.sender < |At(tr, n).ts| && task.sender < |At(tr, n + 1).ts|
    && At(tr, n).ts[task.sender].pc == Firing(task.call, true)
    && At(tr, n + 1).ts[task.sender].pc == Resume(task.call)
  }

  lemma HandsStep(s: Sys, e: Step)
    requires Enabled(s, e) && Apply(s, e).g.ev.accepted != s.g.ev.accepted
    ensures var acc := Apply(s, e).g.ev.accepted;
            && acc != [] && acc[..|acc| - 1] == s.g.ev.accepted
            && var task := acc[|acc| - 1];
               && task.sender < |s.ts| <= |Apply(s, e).ts|
               && s.ts[task.sender].pc == Firing(task.call, true)
               && Apply(s, e).ts[task.sender].pc == Resume(task.call)
  {
    hide ConnectStep, LookupStep, ReadStep, DestroyStep, WriteStep, ScriptStep, TimeoutStep, ObserveStep, ReportStep;
    Payloads.AcceptsStep(s, e);
    if e.ThreadStep? {
      Footprint.Of(s.g, e.t, s.ts[e.t], e.a);
      if !s.ts[e.t].pc.sending { LookupAcceptsNothing(s.g, s.ts[e.t], s.ts[e.t].pc.call, e.a); }
    }
  }

  lemma LookupAcceptsNothing(g: Globals, th: Thread, k: Call, a: Action)
    requires LookupStep(g, th, k, a).Moved?
    ensures LookupStep(g, th, k, a).g.ev.accepted == g.ev.accepted
  {}

  lemma {:induction false} AcceptsInPrefix(tr: seq<Step>, m: nat, n: nat, x: nat, task: Task)
    requires IsRun(tr) && m <= |tr| && IsRun(tr[..m]) && Accepts(tr[..m], n, x) && Hands(tr[..m], n, task)
    ensures Accepts(tr, n, x) && Hands(tr, n, task)
  {
    hide Local, Exec, Resume;
    AtPrefix(tr, m, n);
    AtPrefix(tr, m, n + 1);
  }

  lemma {:induction false} LastAccepts(tr: seq<Step>)
    requires IsRun(tr) && tr != [] && Exec(tr).g.ev.accepted != Exec(tr[..|tr| - 1]).g.ev.accepted
    ensures var acc := Exec(tr).g.ev.accepted;
            && acc != [] && acc[..|acc| - 1] == Exec(tr[..|tr| - 1]).g.ev.accepted
            && Accepts(tr, |tr| - 1, |acc| - 1) && Hands(tr, |tr| - 1, acc[|acc| - 1])
  {
    hide Local, Resume;
    var p := tr[..|tr| - 1];
    HandsStep(Exec(p), tr[|tr| - 1]);
    AtEnd(tr);
    AtPrefix(tr, |p|, |p|);
    AtEnd(p);
  }

  lemma {:induction false} AcceptingStep(tr: seq<Step>, x: nat) returns (n: nat)
    requires IsRun(tr) && x < |Exec(tr).g.ev.accepted|
    ensures Accepts(tr, n, x) && Hands(tr, n, Exec(tr).g.ev.accepted[x])
  {
    hide Local, Resume, Accepts, Hands;
    var p := tr[..|tr| - 1];
    if Exec(tr).g.ev.accepted != Exec(p).g.ev.accepted { LastAccepts(tr); }
    if x < |Exec(p).g.ev.accepted| {
      n := AcceptingStep(p, x);
      AcceptsInPrefix(tr, |p|, n, x, Exec(tr).g.ev.accepted[x]);
    } else {
      n := |p|;
    }
  }

  /** Fewer calls are accepted earlier. */
  lemma {:induction false} AcceptedLater(tr: seq<Step>, m: nat, n: nat)
    requires IsRun(tr) && m <= n <= |tr|
    ensures |At(tr, m).g.ev.accepted| <= |At(tr, n).g.ev.accepted|
  {
    hide Local, Exec;
    PrefixIsRun(tr, n);
    AcceptedGrows(tr[..n], m);
    AtPrefix(tr, n, m);
  }

  // ---------------------------------------------------------------- connect against close

  /** A connect goroutine whose `connect` has not been accepted yet, and still may be. */
  predicate BeforeConnect(pc: Pc) {
    (pc.Connecting? && !pc.c.Spawn? && !pc.c.Count?) || (pc.Firing? && pc.call.OnConnect?)
  }

  lemma PastConnect(g: Globals, t: Tid, th: Thread, a: Action)
    requires Local(g, t, th, a).Moved? && !BeforeConnect(th.pc)
    ensures !BeforeConnect(Local(g, t, th, a).th.pc)
  {
    hide LookupStep, SendStep, ReadStep, DestroyStep, WriteStep, ScriptStep, TimeoutStep, ObserveStep, ReportStep;
    Footprint.Of(g, t, th, a);
    if th.pc.Firing? {
      match th.pc.call
      case OnConnect => case OnData(_, _, _, _, _) => case OnTimeout(_) => case OnClose(_) =>
      case OnError(kind) => match kind case FromConnect => case FromPrepare => case FromRead(_) =>
    }
  }

  lemma {:induction false} StaysPast(tr: seq<Step>, i: nat, t: Tid)
    requires IsRun(tr) && i <= |tr| && t < |At(tr, i).ts| && !BeforeConnect(At(tr, i).ts[t].pc)
    ensures t < |Exec(tr).ts| && !BeforeConnect(Exec(tr).ts[t].pc)
    decreases |tr| - i
  {
    hide Local, BeforeConnect;
    if i == |tr| {
      AtEnd(tr);
    } else {
      StepAt(tr, i);
      var s, e := At(tr, i), tr[i];
      if e.ThreadStep? && e.t == t { PastConnect(s.g, t, s.ts[t], e.a); }
      StaysPast(tr, i + 1, t);
    }
  }

  lemma {:induction false} PastAt(tr: seq<Step>, i: nat, n: nat, t: Tid)
    requires IsRun(tr) && i <= n <= |tr| && t < |At(tr, i).ts| && !BeforeConnect(At(tr, i).ts[t].pc)
    ensures t < |At(tr, n).ts| && !BeforeConnect(At(tr, n).ts[t].pc)
  {
    hide Local, BeforeConnect, Exec;
    PrefixIsRun(tr, n);
    AtPrefix(tr, n, i);
    StaysPast(tr[..n], i, t);
  }

  /**
   * An accepted `close` precedes the `connect` of goroutine t if and only if, at the step `n` that
   * accepted the close, t had not been started or was still on the way to handing over its `connect`.
   */
  lemma {:induction false} CloseBeforeConnectIff(tr: seq<Step>, x: nat, y: nat) returns (n: nat)
    requires IsRun(tr) && x < |Exec(tr).g.ev.accepted| && y < |Exec(tr).g.ev.accepted|
    requires Exec(tr).g.ev.accepted[x].call.OnClose? && Exec(tr).g.ev.accepted[y].call.OnConnect?
    ensures Accepts(tr, n, x)
    ensures var t := Exec(tr).g.ev.accepted[y].sender;
            x < y <==> t >= |At(tr, n).ts| || BeforeConnect(At(tr, n).ts[t].pc)
  {
    hide Local, Exec;
    n := AcceptingStep(tr, x);
    var m := AcceptingStep(tr, y);
    var t := Exec(tr).g.ev.accepted[y].sender;
    if x < y {
      if m <= n { AcceptedLater(tr, m, n); }
      if t < |At(tr, n).ts| && !BeforeConnect(At(tr, n).ts[t].pc) { PastAt(tr, n, m, t); }
    } else {
      if n < m { AcceptedLater(tr, n + 1, m); }
      assert Exec(tr).g.ev.accepted[x] != Exec(tr).g.ev.accepted[y];
      assert n != m;
      PastAt(tr, m + 1, n, t);
    }
  }
}
