/** Building behaviours of the engine move by move. */
module Traces {
  import opened Protocol

  function Last(t: Trace): System
    requires t.states != []
  {
    t.states[|t.states| - 1]
  }

  function Then(t: Trace, move: Move, s: System): Trace {
    Trace(t.states + [s], t.moves + [move])
  }

  lemma ThenIsPossible(c: Setting, t: Trace, move: Move, s: System)
    requires Possible(c, t) && Moves(c, Last(t), move, s)
    ensures Possible(c, Then(t, move, s)) && Last(Then(t, move, s)) == s
  {
    var t' := Then(t, move, s);
    forall n: nat | n < |t'.moves| ensures MoveAt(c, t', n) {
      if n < |t.moves| {
        OldMove(c, t, move, s, n);
      } else {
        NewMove(c, t, move, s);
      }
    }
  }

  lemma OldMove(c: Setting, t: Trace, move: Move, s: System, n: nat)
    requires Possible(c, t) && n < |t.moves|
    ensures MoveAt(c, Then(t, move, s), n)
  {
    assert MoveAt(c, t, n);
  }

  lemma NewMove(c: Setting, t: Trace, move: Move, s: System)
    requires |t.states| == |t.moves| + 1 && Moves(c, Last(t), move, s)
    ensures MoveAt(c, Then(t, move, s), |t.moves|)
  {
  }

  /** `later` is `t` gone on. */
  ghost predicate Continues(t: Trace, later: Trace) {
    t.states <= later.states && t.moves <= later.moves
  }

  /** One more move. */
  lemma GoOn(c: Setting, t: Trace, move: Move, s: System) returns (later: Trace)
    requires Possible(c, t) && Moves(c, Last(t), move, s)
    ensures Possible(c, later) && Continues(t, later) && Last(later) == s
  {
    ThenIsPossible(c, t, move, s);
    later := Then(t, move, s);
  }
}
