/**
 * The passes of the read loop seen through what each Read returned and whether the socket was open at the
 * re-check.  Both the method and the step machine are proved against these functions.
 */
module ReadPasses {
  import opened Basics
  import opened SocketMachine

  /** What one Read returned. */
  datatype ReadResult = ReadResult(chunk: seq<byte>, err: ReadErr)

  datatype Pass = Pass(result: ReadResult, open: bool)

  /** The loop makes another pass. */
  predicate GoesOn(p: Pass) { p.open && (p.result.err.NoErr? || p.result.err.TimedOut?) }

  /** The events a pass fires: bytes are delivered even if the socket has been closed meanwhile. */
  function EventsOf(p: Pass): seq<Event> {
    (if p.result.chunk != [] then [Data] else []) +
    (if p.open && p.result.err.TimedOut? then [Timeout] else []) +
    (if p.open && p.result.err.Fatal? then [Error] else [])
  }

  function AllEvents(passes: seq<Pass>): seq<Event> {
    if passes == [] then [] else AllEvents(passes[..|passes| - 1]) + EventsOf(passes[|passes| - 1])
  }

  /** The non-empty chunks. */
  function Chunks(passes: seq<Pass>): seq<seq<byte>> {
    if passes == [] then []
    else
      var chunk := passes[|passes| - 1].result.chunk;
      Chunks(passes[..|passes| - 1]) + if chunk != [] then [chunk] else []
  }

  /** The loop would make another pass. */
  predicate Going(passes: seq<Pass>) { passes == [] || GoesOn(passes[|passes| - 1]) }

  /** Passes one loop can make: after each but the last it went on. */
  predicate OneLoop(passes: seq<Pass>) { forall i :: 0 <= i < |passes| - 1 ==> GoesOn(passes[i]) }

  lemma OnePassMore(passes: seq<Pass>, p: Pass)
    ensures AllEvents(passes + [p]) == AllEvents(passes) + EventsOf(p)
    ensures Chunks(passes + [p]) == Chunks(passes) + if p.result.chunk != [] then [p.result.chunk] else []
    ensures OneLoop(passes) && Going(passes) ==> OneLoop(passes + [p])
    ensures Going(passes + [p]) <==> GoesOn(p)
  {
    assert (passes + [p])[..|passes|] == passes;
  }
}
