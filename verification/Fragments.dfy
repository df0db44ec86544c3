/**
 * The fragment loop of `writeExecute` seen through the answers its Write calls got.  Both the method
 * and the step machine are proved against these functions.
 */
module Fragments {

  /** The answer of one Write call: bytes taken and whether it returned no error. */
  datatype Answer = Answer(n: nat, ok: bool)

  /** The loop counts the bytes and goes on. */
  predicate Good(a: Answer) { a.ok && a.n > 0 }

  /** Bytes that reached the connection. */
  function Carried(answers: seq<Answer>): nat {
    if answers == [] then 0 else Carried(answers[..|answers| - 1]) + answers[|answers| - 1].n
  }

  /** Bytes the loop counted. */
  function Counted(answers: seq<Answer>): nat {
    if answers == [] then 0
    else Counted(answers[..|answers| - 1]) + if Good(answers[|answers| - 1]) then answers[|answers| - 1].n else 0
  }

  /** The loop has been stopped by its last answer. */
  predicate Stopped(answers: seq<Answer>) { answers != [] && !Good(answers[|answers| - 1]) }

  /** The answers one loop over `len` bytes can get: it asks only while running and with bytes left. */
  predicate Admissible(len: nat, answers: seq<Answer>) {
    answers == [] ||
    (var p := answers[..|answers| - 1];
     Admissible(len, p) && !Stopped(p) && Counted(p) < len && answers[|answers| - 1].n <= len - Counted(p))
  }

  predicate Ended(len: nat, answers: seq<Answer>) { Stopped(answers) || Counted(answers) == len }

  /** Every call obeyed the io.Writer contract: all bytes taken, or an error. */
  predicate Obeyed(len: nat, answers: seq<Answer>) {
    answers == [] ||
    (Obeyed(len, answers[..|answers| - 1]) &&
     (answers[|answers| - 1].ok ==> answers[|answers| - 1].n == len - Counted(answers[..|answers| - 1])))
  }

  lemma NoneYet(len: nat)
    ensures Admissible(len, []) && Counted([]) == 0 && Carried([]) == 0 && !Stopped([])
  {}

  lemma OneMore(len: nat, answers: seq<Answer>, a: Answer)
    ensures Admissible(len, answers) && !Stopped(answers) && Counted(answers) < len && a.n <= len - Counted(answers) ==>
              Admissible(len, answers + [a])
    ensures (answers + [a])[..|answers|] == answers
    ensures Carried(answers + [a]) == Carried(answers) + a.n
    ensures Counted(answers + [a]) == Counted(answers) + if Good(a) then a.n else 0
    ensures Stopped(answers + [a]) <==> !Good(a)
  {
    assert (answers + [a])[..|answers|] == answers;
  }

  /** Counted bytes fall short of carried ones only by what a last, failing call took. */
  lemma {:induction false} ShortOnlyByLast(len: nat, answers: seq<Answer>)
    requires Admissible(len, answers)
    ensures Counted(answers) <= Carried(answers) <= len
    ensures Stopped(answers) ==>
              Counted(answers) < len && Carried(answers) == Counted(answers) + answers[|answers| - 1].n
    ensures !Stopped(answers) ==> Carried(answers) == Counted(answers)
  {
    if answers != [] { ShortOnlyByLast(len, answers[..|answers| - 1]); }
  }

  /** Success and failure are told apart by the count alone, and success carries everything. */
  lemma {:induction false} SuccessIsComplete(len: nat, answers: seq<Answer>)
    requires Admissible(len, answers) && Ended(len, answers)
    ensures Counted(answers) == len <==> !Stopped(answers)
    ensures Counted(answers) == len ==> Carried(answers) == len
  {
    ShortOnlyByLast(len, answers);
  }

  /** The loop makes at most one call per byte. */
  lemma {:induction false} FewCalls(len: nat, answers: seq<Answer>)
    requires Admissible(len, answers)
    ensures |answers| <= Counted(answers) + (if Stopped(answers) then 1 else 0) <= len
  {
    if answers != [] { FewCalls(len, answers[..|answers| - 1]); }
  }

  /** With writers that take everything or fail, nothing is ever written in part. */
  lemma {:induction false} NeverPartial(len: nat, answers: seq<Answer>)
    requires Admissible(len, answers) && Obeyed(len, answers)
    ensures Counted(answers) == 0 || Counted(answers) == len
    ensures |answers| <= 1
  {
    if answers != [] { NeverPartial(len, answers[..|answers| - 1]); }
  }
}
