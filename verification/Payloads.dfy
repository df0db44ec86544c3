/**
 * The shared 4096-byte read buffer.  A payload is copied from it some steps after its own Read, and in
 * between the Read of another reader can overwrite it.  For every run it is decided, copy by copy, when
 * a payload is exactly what its own Read returned.
 */
module Payloads {
  import opened Basics
  import opened SocketMachine
  import opened Runs
  import Footprint
  import Exclusion

  /** The read result still sits in the shared buffer only. */
  predicate InBuffer(pc: Pc) { pc.Reading? && (pc.r.PushRead? || pc.r.AddRead? || pc.r.CopyRead?) }

  predicate Copying(pc: Pc) { pc.Reading? && pc.r.CopyRead? }

  // ---------------------------------------------------------------- the buffer keeps its size

  ghost predicate L(th: Thread) { InBuffer(th.pc) ==> |th.pc.r.chunk| <= READ_BUFFER_SIZE }

  ghost predicate Inv(s: Sys) {
    |s.g.mem.readBuf| == READ_BUFFER_SIZE && forall t :: 0 <= t < |s.ts| ==> L(s.ts[t])
  }

  lemma SizeRead(g: Globals, t: Tid, th: Thread, pc: ReadPc, a: Action)
    requires ReadStep(g, t, th, pc, a).Moved? && |g.mem.readBuf| == READ_BUFFER_SIZE
    requires th.pc == Reading(pc) && L(th)
    ensures |ReadStep(g, t, th, pc, a).g.mem.readBuf| == READ_BUFFER_SIZE && L(ReadStep(g, t, th, pc, a).th)
  {
    match pc
    case Head => case Snap => case ArmRead(_, _) => case CallRead(_) => case PushRead(_, _, _) =>
    case AddRead(_, _, _) => case CopyRead(_, _, _) => case Test(_, _) =>
  }

  /** Only a Read changes the shared buffer. */
  lemma BufferKept(g: Globals, t: Tid, th: Thread, a: Action)
    requires Local(g, t, th, a).Moved? && !th.pc.Reading?
    ensures Local(g, t, th, a).g.mem.readBuf == g.mem.readBuf
  {
    hide ConnectStep, ReadStep, DestroyStep, WriteStep, TimeoutStep, ObserveStep, ReportStep;
    if th.pc.Script? {
      ScriptKeepsBuffer(g, th, a.op);
    } else if !th.pc.Firing? {
      Footprint.Of(g, t, th, a);
    }
  }

  lemma ScriptKeepsBuffer(g: Globals, th: Thread, op: ScriptOp)
    requires ScriptStep(g, th, op).Moved?
    ensures ScriptStep(g, th, op).g.mem.readBuf == g.mem.readBuf
  {
    match op
    case DoConnect(_) => case DoBadConnect => case DoWrite(_) => case DoBadWrite => case DoDestroy =>
    case DoSetTimeout(_) => case DoOn(_) => case DoReadyState => case DoRunTask => case DoEndTask =>
  }

  lemma Preserved(s: Sys, e: Step)
    requires Inv(s) && Enabled(s, e)
    ensures Inv(Apply(s, e))
  {
    hide ConnectStep, LookupStep, SendStep, ReadStep, DestroyStep, WriteStep, ScriptStep, TimeoutStep, ObserveStep,
      ReportStep;
    if e.ThreadStep? {
      var th := s.ts[e.t];
      Footprint.Of(s.g, e.t, th, e.a);
      if th.pc.Reading? { SizeRead(s.g, e.t, th, th.pc.r, e.a); } else { BufferKept(s.g, e.t, th, e.a); }
    }
  }

  lemma {:induction false} Always(tr: seq<Step>)
    requires IsRun(tr)
    ensures Inv(Exec(tr))
  {
    hide Local;
    if tr != [] {
      Always(tr[..|tr| - 1]);
      Preserved(Exec(tr[..|tr| - 1]), tr[|tr| - 1]);
    }
  }

  // ---------------------------------------------------------------- what Reads leave in the buffer

  /** What byte `k` of the buffer was last set to by the Reads among these steps, if any of them reached it. */
  function Overlay(steps: seq<Step>, k: nat): Option<byte> {
    if steps == [] then None
    else
      var e := steps[|steps| - 1];
      if e.ThreadStep? && e.a.ReadReturned? && k < |e.a.chunk| then Some(e.a.chunk[k])
      else Overlay(steps[..|steps| - 1], k)
  }

  /** These steps leave a byte of `chunk` changed. */
  ghost predicate Corrupts(steps: seq<Step>, chunk: seq<byte>) {
    exists k :: 0 <= k < |chunk| && Overlay(steps, k).Some? && Overlay(steps, k) != Some(chunk[k])
  }

  lemma OverlayRead(g: Globals, t: Tid, th: Thread, pc: ReadPc, a: Action, k: nat)
    requires ReadStep(g, t, th, pc, a).Moved? && |g.mem.readBuf| == READ_BUFFER_SIZE && k < READ_BUFFER_SIZE
    requires |ReadStep(g, t, th, pc, a).g.mem.readBuf| == READ_BUFFER_SIZE
    ensures ReadStep(g, t, th, pc, a).g.mem.readBuf[k] ==
              if a.ReadReturned? && k < |a.chunk| then a.chunk[k] else g.mem.readBuf[k]
  {
    match pc
    case Head => case Snap => case ArmRead(_, _) => case CallRead(_) => case PushRead(_, _, _) =>
    case AddRead(_, _, _) => case CopyRead(_, _, _) => case Test(_, _) =>
  }

  lemma OverlayStep(s: Sys, e: Step, k: nat)
    requires Inv(s) && Enabled(s, e) && k < READ_BUFFER_SIZE
    ensures |Apply(s, e).g.mem.readBuf| == READ_BUFFER_SIZE
    ensures Apply(s, e).g.mem.readBuf[k] ==
              if e.ThreadStep? && e.a.ReadReturned? && k < |e.a.chunk| then e.a.chunk[k] else s.g.mem.readBuf[k]
  {
    hide ConnectStep, LookupStep, SendStep, ReadStep, DestroyStep, WriteStep, ScriptStep, TimeoutStep, ObserveStep,
      ReportStep;
    Preserved(s, e);
    if e.ThreadStep? {
      var th := s.ts[e.t];
      OnlyScriptInvokes(s.g, e.t, th, e.a);
      if th.pc.Reading? { OverlayRead(s.g, e.t, th, th.pc.r, e.a, k); } else { BufferKept(s.g, e.t, th, e.a); }
    }
  }

  /** From any point of a run on, the buffer is what it was there overlaid with the later Reads. */
  lemma {:induction false} BufferIsOverlay(tr: seq<Step>, i: nat, k: nat)
    requires IsRun(tr) && i <= |tr| && k < READ_BUFFER_SIZE
    ensures |At(tr, i).g.mem.readBuf| == |Exec(tr).g.mem.readBuf| == READ_BUFFER_SIZE
    ensures Exec(tr).g.mem.readBuf[k] ==
              match Overlay(tr[i..], k) case Some(b) => b case None => At(tr, i).g.mem.readBuf[k]
  {
    hide Local, Inv;
    BufferSized(tr);
    PrefixIsRun(tr, i);
    BufferSized(tr[..i]);
    if i == |tr| {
      AtEnd(tr);
    } else {
      var p := tr[..|tr| - 1];
      BufferIsOverlay(p, i, k);
      AtPrefix(tr, |p|, i);
      Always(p);
      OverlayStep(Exec(p), tr[|tr| - 1], k);
      assert tr[i..][..|tr[i..]| - 1] == p[i..];
    }
  }

  lemma BufferSized(tr: seq<Step>)
    requires IsRun(tr)
    ensures |Exec(tr).g.mem.readBuf| == READ_BUFFER_SIZE
  {
    Always(tr);
  }

  // ---------------------------------------------------------------- from a Read to its copy

  /** Step `e` is the Read of thread `t` that returned `chunk`. */
  predicate ReadsChunk(e: Step, t: Tid, chunk: seq<byte>) {
    e.ThreadStep? && e.t == t && e.a.ReadReturned? && e.a.chunk == chunk
  }

  predicate ReadsBy(e: Step, t: Tid) { e.ThreadStep? && e.t == t && e.a.ReadReturned? }

  predicate Front(buf: seq<byte>, chunk: seq<byte>) {
    |buf| == READ_BUFFER_SIZE && |chunk| <= READ_BUFFER_SIZE && buf[..|chunk|] == chunk
  }

  lemma IntoBuffer(g: Globals, t: Tid, th: Thread, a: Action)
    requires Local(g, t, th, a).Moved? && InBuffer(Local(g, t, th, a).th.pc)
    ensures th.pc.Reading?
    ensures if InBuffer(th.pc) then th.pc.r.chunk == Local(g, t, th, a).th.pc.r.chunk && !a.ReadReturned?
            else ReadsChunk(ThreadStep(t, a), t, Local(g, t, th, a).th.pc.r.chunk)
    ensures !InBuffer(th.pc) && |g.mem.readBuf| == READ_BUFFER_SIZE ==>
              a.ReadReturned? && |a.chunk| <= READ_BUFFER_SIZE && Front(Local(g, t, th, a).g.mem.readBuf, a.chunk)
  {
    hide ConnectStep, LookupStep, SendStep, DestroyStep, WriteStep, ScriptStep, TimeoutStep, ObserveStep, ReportStep;
    Footprint.Of(g, t, th, a);
    match th.pc.r
    case Head => case Snap => case ArmRead(_, _) => case CallRead(_) => case PushRead(_, _, _) =>
    case AddRead(_, _, _) => case CopyRead(_, _, _) => case Test(_, _) =>
  }

  /** The window of thread `t` that opened with step `i`: no further Read of its own, its chunk in hand. */
  ghost predicate Window(tr: seq<Step>, i: nat, t: Tid, chunk: seq<byte>)
    requires IsRun(tr)
  {
    && i < |tr| && ReadsChunk(tr[i], t, chunk) && Front(At(tr, i + 1).g.mem.readBuf, chunk)
    && (forall j :: i < j < |tr| ==> !ReadsBy(tr[j], t))
    && (forall j :: i < j <= |tr| ==> t < |At(tr, j).ts| && InBuffer(At(tr, j).ts[t].pc))
  }

  lemma {:induction false} WindowOpens(tr: seq<Step>, t: Tid) returns (i: nat)
    requires IsRun(tr) && t < |Exec(tr).ts| && InBuffer(Exec(tr).ts[t].pc)
    ensures Window(tr, i, t, Exec(tr).ts[t].pc.r.chunk)
  {
    hide Local, Front, Window, ReadsChunk, ReadsBy;
    NotAtStart();
    var p, e := tr[..|tr| - 1], tr[|tr| - 1];
    var s := Exec(p);
    if e.ThreadStep? && e.t == t {
      IntoBuffer(s.g, t, s.ts[t], e.a);
    } else {
      NotBornReading(s, e, t);
    }
    if e.ThreadStep? && e.t == t && !InBuffer(s.ts[t].pc) {
      i := |p|;
      WindowStarts(tr, t);
    } else {
      i := WindowOpens(p, t);
      assert !ReadsBy(e, t) by { NoOwnRead(e, t); }
      WindowGrows(tr, i, t, s.ts[t].pc.r.chunk);
    }
  }

  lemma NoOwnRead(e: Step, t: Tid)
    requires !(e.ThreadStep? && e.t == t) || !e.a.ReadReturned?
    ensures !ReadsBy(e, t)
  {}

  lemma WindowStarts(tr: seq<Step>, t: Tid)
    requires IsRun(tr) && tr != [] && t < |Exec(tr).ts| && InBuffer(Exec(tr).ts[t].pc)
    requires tr[|tr| - 1].ThreadStep? && tr[|tr| - 1].t == t && !InBuffer(Exec(tr[..|tr| - 1]).ts[t].pc)
    ensures Window(tr, |tr| - 1, t, Exec(tr).ts[t].pc.r.chunk)
  {
    hide Local, Front, ReadsChunk;
    var p, e := tr[..|tr| - 1], tr[|tr| - 1];
    var s := Exec(p);
    BufferSized(p);
    AtEnd(tr);
    IntoBuffer(s.g, t, s.ts[t], e.a);
    SameChunk(e, t, Exec(tr).ts[t].pc.r.chunk);
  }

  lemma SameChunk(e: Step, t: Tid, chunk: seq<byte>)
    requires ReadsChunk(e, t, chunk)
    ensures e.ThreadStep? && e.a.ReadReturned? && e.a.chunk == chunk
  {}

  lemma NotAtStart()
    ensures !InBuffer(Init().ts[0].pc)
  {}

  /** A thread that did not step either was there with the same program counter or has just been started. */
  lemma NotBornReading(s: Sys, e: Step, t: Tid)
    requires Enabled(s, e) && t < |Apply(s, e).ts| && !(e.ThreadStep? && e.t == t)
    ensures t < |s.ts| ==> Apply(s, e).ts[t] == s.ts[t]
    ensures t >= |s.ts| ==> !InBuffer(Apply(s, e).ts[t].pc) && !Apply(s, e).ts[t].pc.Firing?
  {
    hide Local;
    if e.ThreadStep? { Footprint.Of(s.g, e.t, s.ts[e.t], e.a); }
  }

  lemma {:induction false} WindowGrows(tr: seq<Step>, i: nat, t: Tid, chunk: seq<byte>)
    requires IsRun(tr) && tr != [] && Window(tr[..|tr| - 1], i, t, chunk)
    requires !ReadsBy(tr[|tr| - 1], t) && t < |Exec(tr).ts| && InBuffer(Exec(tr).ts[t].pc)
    ensures Window(tr, i, t, chunk)
  {
    hide Local, InBuffer, ReadsBy, ReadsChunk, Exec;
    var p := tr[..|tr| - 1];
    AtPrefix(tr, |p|, i + 1);
    forall j | i < j <= |tr| ensures t < |At(tr, j).ts| && InBuffer(At(tr, j).ts[t].pc) {
      if j <= |p| { AtPrefix(tr, |p|, j); } else { AtEnd(tr); }
    }
    forall j | i < j < |tr| ensures !ReadsBy(tr[j], t) { if j < |p| { assert tr[j] == p[j]; } }
  }

  /** What a copy makes of the buffer. */
  lemma CopyTakesPrefix(g: Globals, t: Tid, th: Thread, a: Action)
    requires Copying(th.pc) && Local(g, t, th, a).Moved?
    ensures var chunk, pc := th.pc.r.chunk, Local(g, t, th, a).th.pc;
            && |chunk| <= |g.mem.readBuf|
            && pc.Firing? && !pc.sending && pc.call.OnData? && pc.call.chunk == chunk
            && pc.call.payload == g.mem.readBuf[..|chunk|]
  {
    hide ConnectStep, LookupStep, SendStep, DestroyStep, WriteStep, ScriptStep, TimeoutStep, ObserveStep, ReportStep;
  }

  /**
   * Copy by copy: the payload is what the reader's own Read, at step `i`, returned exactly when the Reads
   * of others between that Read and the copy leave those bytes of the buffer as they were.
   */
  lemma {:induction false} CopyIsExactIff(tr: seq<Step>, n: nat) returns (i: nat)
    requires IsRun(tr) && n < |tr| && tr[n].ThreadStep? && tr[n].t < |At(tr, n).ts|
    requires Copying(At(tr, n).ts[tr[n].t].pc)
    ensures var t, chunk := tr[n].t, At(tr, n).ts[tr[n].t].pc.r.chunk;
            && i < n && ReadsChunk(tr[i], t, chunk) && (forall j :: i < j < n ==> !ReadsBy(tr[j], t))
            && (forall j :: i < j <= n ==> t < |At(tr, j).ts| && InBuffer(At(tr, j).ts[t].pc))
            && t < |At(tr, n + 1).ts|
            && var pc := At(tr, n + 1).ts[t].pc;
               pc.Firing? && pc.call.OnData? && pc.call.chunk == chunk &&
               (pc.call.payload == chunk <==> !Corrupts(tr[i + 1..n], chunk))
  {
    hide Local, InBuffer, ReadsChunk, ReadsBy, Corrupts;
    var p := tr[..n];
    PrefixIsRun(tr, n);
    var t := tr[n].t;
    var s := At(tr, n);
    var chunk := s.ts[t].pc.r.chunk;
    InBufferToo(s.ts[t].pc);
    i := WindowOpens(p, t);
    forall j | i < j < n ensures !ReadsBy(tr[j], t) { assert tr[j] == p[j]; }
    forall j | i < j <= n ensures t < |At(tr, j).ts| && InBuffer(At(tr, j).ts[t].pc) { AtPrefix(tr, n, j); }
    StepAt(tr, n);
    CopyTakesPrefix(s.g, t, s.ts[t], tr[n].a);
    PrefixCorrupted(p, i + 1, chunk);
    assert p[i + 1..] == tr[i + 1..n];
  }

  /** Step `n` copies after Reads of others have corrupted what the copying reader's own Read had left. */
  ghost predicate Spoilt(tr: seq<Step>, n: nat)
    requires IsRun(tr)
  {
    && n < |tr| && tr[n].ThreadStep? && tr[n].t < |At(tr, n).ts| && Copying(At(tr, n).ts[tr[n].t].pc)
    && exists i :: 0 <= i < n && ReadsBy(tr[i], tr[n].t) && (forall j :: i < j < n ==> !ReadsBy(tr[j], tr[n].t)) &&
         Corrupts(tr[i + 1..n], At(tr, n).ts[tr[n].t].pc.r.chunk)
  }

  /** A copy gives the handler something else than its Read returned exactly when it is spoilt. */
  lemma {:induction false} SpoiltIff(tr: seq<Step>, n: nat, k: Call)
    requires IsRun(tr) && n < |tr| && tr[n].ThreadStep? && Copies(tr, n, tr[n].t, k)
    ensures k.OnData? && (k.payload == k.chunk <==> !Spoilt(tr, n))
  {
    hide Local, Exec, InBuffer, Corrupts;
    var i := CopyIsExactIff(tr, n);
    var t := tr[n].t;
    if Spoilt(tr, n) {
      var i' :| 0 <= i' < n && ReadsBy(tr[i'], t) && (forall j :: i' < j < n ==> !ReadsBy(tr[j], t)) &&
        Corrupts(tr[i' + 1..n], At(tr, n).ts[t].pc.r.chunk);
      assert ReadsBy(tr[i], t);
      assert i' == i;
    }
  }

  lemma InBufferToo(pc: Pc)
    requires Copying(pc)
    ensures InBuffer(pc)
  {}

  /** A prefix of the buffer that was `chunk` at `i` still is, unless later Reads corrupt it. */
  lemma {:induction false} PrefixCorrupted(tr: seq<Step>, i: nat, chunk: seq<byte>)
    requires IsRun(tr) && i <= |tr| && Front(At(tr, i).g.mem.readBuf, chunk)
    ensures |Exec(tr).g.mem.readBuf| == READ_BUFFER_SIZE
    ensures Exec(tr).g.mem.readBuf[..|chunk|] == chunk <==> !Corrupts(tr[i..], chunk)
  {
    hide Local, Overlay, Exec;
    BufferSized(tr);
    var was, now := At(tr, i).g.mem.readBuf, Exec(tr).g.mem.readBuf;
    forall k | 0 <= k < |chunk|
      ensures now[k] == match Overlay(tr[i..], k) case Some(b) => b case None => chunk[k]
    {
      BufferIsOverlay(tr, i, k);
      assert was[..|chunk|][k] == chunk[k];
    }
    if now[..|chunk|] == chunk {
      forall k | 0 <= k < |chunk| ensures now[k] == chunk[k] { assert now[..|chunk|][k] == chunk[k]; }
    }
  }

  // ---------------------------------------------------------------- from the copy to the loop

  lemma IntoFiring(g: Globals, t: Tid, th: Thread, a: Action)
    requires Local(g, t, th, a).Moved? && Local(g, t, th, a).th.pc.Firing? && Local(g, t, th, a).th.pc.call.OnData?
    ensures Copying(th.pc) || (th.pc.Firing? && th.pc.call == Local(g, t, th, a).th.pc.call)
  {
    hide ConnectStep, LookupStep, SendStep, DestroyStep, WriteStep, ScriptStep, TimeoutStep, ObserveStep, ReportStep;
    Footprint.Of(g, t, th, a);
    if th.pc.Reading? {
      match th.pc.r
      case Head => case Snap => case ArmRead(_, _) => case CallRead(_) => case PushRead(_, _, _) =>
      case AddRead(_, _, _) => case CopyRead(_, _, _) => case Test(_, _) =>
    }
  }

  /** Step `n` is the copy in which thread `t` made the call `k`. */
  ghost predicate Copies(tr: seq<Step>, n: nat, t: Tid, k: Call)
    requires IsRun(tr)
  {
    && n < |tr| && tr[n].ThreadStep? && tr[n].t == t && t < |At(tr, n).ts| && Copying(At(tr, n).ts[t].pc)
    && t < |At(tr, n + 1).ts| && At(tr, n + 1).ts[t].pc.Firing? && At(tr, n + 1).ts[t].pc.call == k
  }

  lemma CopiesInPrefix(tr: seq<Step>, m: nat, n: nat, t: Tid, k: Call)
    requires IsRun(tr) && m <= |tr|
    ensures IsRun(tr[..m]) && (Copies(tr[..m], n, t, k) ==> Copies(tr, n, t, k))
  {
    PrefixIsRun(tr, m);
    if Copies(tr[..m], n, t, k) {
      AtPrefix(tr, m, n);
      AtPrefix(tr, m, n + 1);
    }
  }

  lemma {:induction false} FiringWasCopied(tr: seq<Step>, t: Tid) returns (n: nat)
    requires IsRun(tr) && t < |Exec(tr).ts| && Exec(tr).ts[t].pc.Firing? && Exec(tr).ts[t].pc.call.OnData?
    ensures Copies(tr, n, t, Exec(tr).ts[t].pc.call)
  {
    hide Local, InBuffer, Copying;
    var p, e := tr[..|tr| - 1], tr[|tr| - 1];
    var s := Exec(p);
    AtEnd(tr);
    AtPrefix(tr, |p|, |p|);
    AtEnd(p);
    if e.ThreadStep? && e.t == t {
      IntoFiring(s.g, t, s.ts[t], e.a);
    } else {
      NotBornReading(s, e, t);
    }
    if e.ThreadStep? && e.t == t && Copying(s.ts[t].pc) {
      n := |p|;
    } else {
      n := FiringWasCopied(p, t);
      CopiesInPrefix(tr, |p|, n, t, Exec(tr).ts[t].pc.call);
    }
  }

  /** What a step adds to the accepted calls is the call its thread was sending. */
  lemma AcceptsStep(s: Sys, e: Step)
    requires Enabled(s, e)
    ensures var acc := Apply(s, e).g.ev.accepted;
            || acc == s.g.ev.accepted
            || (e.ThreadStep? && s.ts[e.t].pc.Firing? &&
                acc == s.g.ev.accepted + [Task(e.t, s.ts[e.t].parent, s.ts[e.t].pc.call)])
  {
    hide ConnectStep, ReadStep, DestroyStep, WriteStep, ScriptStep, TimeoutStep, ObserveStep, ReportStep;
    if e.ThreadStep? {
      var th := s.ts[e.t];
      if th.pc.Script? { Footprint.ScriptEvents(s.g, th, e.a.op); }
      if !th.pc.Firing? { Footprint.Of(s.g, e.t, th, e.a); }
    }
  }

  /** Every accepted `data` call was made by a copy of its sender. */
  lemma {:induction false} AcceptedWasCopied(tr: seq<Step>, x: nat) returns (n: nat)
    requires IsRun(tr) && x < |Exec(tr).g.ev.accepted| && Exec(tr).g.ev.accepted[x].call.OnData?
    ensures Copies(tr, n, Exec(tr).g.ev.accepted[x].sender, Exec(tr).g.ev.accepted[x].call)
  {
    hide Local, Copying;
    var p, e := tr[..|tr| - 1], tr[|tr| - 1];
    var s := Exec(p);
    AcceptsStep(s, e);
    var task := Exec(tr).g.ev.accepted[x];
    if x < |s.g.ev.accepted| {
      n := AcceptedWasCopied(p, x);
    } else {
      n := FiringWasCopied(p, e.t);
    }
    CopiesInPrefix(tr, |p|, n, task.sender, task.call);
  }

  // ---------------------------------------------------------------- accepted payloads

  /**
   * Every accepted `data` payload was copied at some step `n` from what its sender's Read at step `i`
   * returned, and equals it if and only if the Reads of others in between leave those bytes unchanged.
   */
  lemma {:induction false} PayloadIsWhatWasReadIff(tr: seq<Step>, x: nat) returns (i: nat, n: nat)
    requires IsRun(tr) && x < |Exec(tr).g.ev.accepted| && Exec(tr).g.ev.accepted[x].call.OnData?
    ensures var task := Exec(tr).g.ev.accepted[x];
            && i < n && Copies(tr, n, task.sender, task.call) && ReadsChunk(tr[i], task.sender, task.call.chunk)
            && (forall j :: i < j < n ==> !ReadsBy(tr[j], task.sender))
            && (forall j :: i < j <= n ==>
                  task.sender < |At(tr, j).ts| && InBuffer(At(tr, j).ts[task.sender].pc))
            && (task.call.payload == task.call.chunk <==> !Corrupts(tr[i + 1..n], task.call.chunk))
  {
    hide Local, Exec, InBuffer, ReadsChunk, ReadsBy, Corrupts, Copying;
    n := AcceptedWasCopied(tr, x);
    i := CopyIsExactIff(tr, n);
  }

  /** A Read returns bytes while another reader's result still sits in the shared buffer only. */
  ghost predicate Overwrites(s: Sys, e: Step) {
    e.ThreadStep? && e.a.ReadReturned? && e.a.chunk != [] &&
    exists u :: 0 <= u < |s.ts| && u != e.t && InBuffer(s.ts[u].pc)
  }

  /** Where bytes are corrupted, some Read returned bytes. */
  lemma {:induction false} SomeReadCorrupts(steps: seq<Step>, chunk: seq<byte>) returns (j: nat)
    requires Corrupts(steps, chunk)
    ensures j < |steps| && steps[j].ThreadStep? && steps[j].a.ReadReturned? && steps[j].a.chunk != []
  {
    var k :| 0 <= k < |chunk| && Overlay(steps, k).Some? && Overlay(steps, k) != Some(chunk[k]);
    j := OverlayFrom(steps, k);
  }

  lemma {:induction false} OverlayFrom(steps: seq<Step>, k: nat) returns (j: nat)
    requires Overlay(steps, k).Some?
    ensures j < |steps| && steps[j].ThreadStep? && steps[j].a.ReadReturned? && k < |steps[j].a.chunk|
  {
    var e := steps[|steps| - 1];
    if e.ThreadStep? && e.a.ReadReturned? && k < |e.a.chunk| {
      j := |steps| - 1;
    } else {
      j := OverlayFrom(steps[..|steps| - 1], k);
    }
  }

  /** Corruption between a Read and its copy takes an overwriting Read in the run. */
  lemma {:induction false} CorruptionOverwrites(tr: seq<Step>, i: nat, n: nat, t: Tid, chunk: seq<byte>)
    requires IsRun(tr) && i < n <= |tr| && Corrupts(tr[i + 1..n], chunk)
    requires forall j :: i < j < n ==> !ReadsBy(tr[j], t)
    requires forall j :: i < j <= n ==> t < |At(tr, j).ts| && InBuffer(At(tr, j).ts[t].pc)
    ensures SomeStep(tr, Overwrites)
  {
    hide Local, Exec, InBuffer, Corrupts;
    var j := SomeReadCorrupts(tr[i + 1..n], chunk);
    var m := i + 1 + j;
    assert tr[m] == tr[i + 1..n][j] && !ReadsBy(tr[m], t);
    assert InBuffer(At(tr, m).ts[t].pc);
    assert Overwrites(At(tr, m), tr[m]);
  }

  /** If no Read ever overwrites a result another reader has not copied, every payload is what was read. */
  lemma {:induction false} PayloadIsWhatWasRead(tr: seq<Step>, x: nat)
    requires IsRun(tr) && !SomeStep(tr, Overwrites)
    requires x < |Exec(tr).g.ev.accepted| && Exec(tr).g.ev.accepted[x].call.OnData?
    ensures Exec(tr).g.ev.accepted[x].call.payload == Exec(tr).g.ev.accepted[x].call.chunk
  {
    hide Local, Exec, InBuffer, Corrupts, Copying;
    var i, n := PayloadIsWhatWasReadIff(tr, x);
    var task := Exec(tr).g.ev.accepted[x];
    if Corrupts(tr[i + 1..n], task.call.chunk) { CorruptionOverwrites(tr, i, n, task.sender, task.call.chunk); }
  }

  lemma {:induction false} OverwritingTakesTwo(tr: seq<Step>)
    requires IsRun(tr) && SomeStep(tr, Overwrites)
    ensures exists t, u :: 0 <= t < u < |Exec(tr).ts| &&
              Exec(tr).ts[t].role.ReaderRole? && Exec(tr).ts[u].role.ReaderRole?
  {
    hide Local, Exec;
    var j :| 0 <= j < |tr| && Overwrites(At(tr, j), tr[j]);
    var s, t := At(tr, j), tr[j].t;
    var u :| 0 <= u < |s.ts| && u != t && InBuffer(s.ts[u].pc);
    StepAt(tr, j);
    OnlyScriptInvokes(s.g, t, s.ts[t], tr[j].a);
    PrefixIsRun(tr, j);
    Exclusion.Always(tr[..j]);
    assert Exclusion.L(s.g, t, s.ts[t]) && Exclusion.L(s.g, u, s.ts[u]);
    SameThread(tr, j, t);
    SameThread(tr, j, u);
  }

  /** One reader cannot overwrite its own results: with a single reader in the run the condition holds. */
  lemma {:induction false} OneReaderNeverOverwrites(tr: seq<Step>)
    requires IsRun(tr)
    requires forall t, u :: 0 <= t < u < |Exec(tr).ts| ==>
               !(Exec(tr).ts[t].role.ReaderRole? && Exec(tr).ts[u].role.ReaderRole?)
    ensures !SomeStep(tr, Overwrites)
  {
    hide Local, Exec, SomeStep;
    if SomeStep(tr, Overwrites) { OverwritingTakesTwo(tr); }
  }
}
