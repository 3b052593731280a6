/** The model-view matrix stack of the teapot viewer: the current matrix
    and a stack of saved copies, with push and pop. A matrix is an opaque
    value of type M; a copy is the value itself. */
module MatrixStack {

  /** How a call ends: normally, or by throwing a message. */
  datatype Outcome = Done | Thrown(message: string)

  /** The message an empty pop throws. */
  const EmptyPop: string := "Invalid popMatrix!"

  /** The current matrix together with the saved copies, last pushed last. */
  datatype Stacked<M> = Stacked(current: M, saved: seq<M>)

  /** Saving the current matrix: a copy goes on top of the stack. */
  function Push<M>(s: Stacked<M>): (r: Stacked<M>)
    ensures |r.saved| == |s.saved| + 1 && r.saved[|s.saved|] == s.current
    ensures r.current == s.current && r.saved[..|s.saved|] == s.saved
  {
    Stacked(s.current, s.saved + [s.current])
  }

  /** Restoring the last saved matrix: the top copy comes off the stack and
      becomes the current matrix; with nothing saved, the call throws and
      the state stays as it was. */
  function Pop<M>(s: Stacked<M>): (r: (Outcome, Stacked<M>))
    ensures r.0 == Done <==> |s.saved| > 0
    ensures |s.saved| == 0 ==> r == (Thrown(EmptyPop), s)
    ensures |s.saved| > 0 ==> r.1.current == s.saved[|s.saved| - 1] && r.1.saved == s.saved[..|s.saved| - 1]
  {
    if |s.saved| == 0 then (Thrown(EmptyPop), s)
    else (Done, Stacked(s.saved[|s.saved| - 1], s.saved[..|s.saved| - 1]))
  }

  /** A push followed by a pop gives back the stack and the current matrix
      as they were. */
  lemma PopUndoesPush<M>(s: Stacked<M>)
    ensures Pop(Push(s)) == (Done, s)
  {
    assert (s.saved + [s.current])[..|s.saved|] == s.saved;
  }

  /** Makes each matrix of ms current in turn and pushes it. */
  function PushAll<M>(s: Stacked<M>, ms: seq<M>): (r: Stacked<M>)
    ensures r.saved == s.saved + ms
    ensures r.current == if |ms| == 0 then s.current else ms[|ms| - 1]
    decreases |ms|
  {
    if |ms| == 0 then s
    else
      assert s.saved + ms == (s.saved + [ms[0]]) + ms[1..];
      PushAll(Push(Stacked(ms[0], s.saved)), ms[1..])
  }

  /** Last in, first out: after pushing a non-empty run of matrices, the
      next pop returns the last of them and leaves the others saved. */
  lemma LastInFirstOut<M>(s: Stacked<M>, ms: seq<M>)
    requires |ms| > 0
    ensures Pop(PushAll(s, ms)).0 == Done
    ensures Pop(PushAll(s, ms)).1.current == ms[|ms| - 1]
    ensures Pop(PushAll(s, ms)).1.saved == s.saved + ms[..|ms| - 1]
  {
    assert (s.saved + ms)[..|s.saved| + |ms| - 1] == s.saved + ms[..|ms| - 1];
  }

  /** The globals mvMatrix and mvMatrixStack and the two functions that
      work on them. */
  class ModelViewStack<M> {
    var mvMatrix: M
    var mvMatrixStack: seq<M>

    /** The stack starts empty, with `initial` as the current matrix. */
    constructor (initial: M)
      ensures mvMatrix == initial && mvMatrixStack == []
    {
      mvMatrix := initial;
      mvMatrixStack := [];
    }

    /** The state as a value. */
    function State(): Stacked<M>
      reads this
    {
      Stacked(mvMatrix, mvMatrixStack)
    }

    /** mvPushMatrix: a copy of the current matrix pushed on the stack. */
    method PushMatrix()
      modifies this
      ensures State() == Push(old(State()))
    {
      var copy := mvMatrix;
      mvMatrixStack := mvMatrixStack + [copy];
    }

    /** mvPopMatrix: throws on an empty stack, otherwise pops the top copy
        into the current matrix. */
    method PopMatrix() returns (outcome: Outcome)
      modifies this
      ensures (outcome, State()) == Pop(old(State()))
    {
      if |mvMatrixStack| == 0 {
        return Thrown(EmptyPop);
      }
      mvMatrix := mvMatrixStack[|mvMatrixStack| - 1];
      mvMatrixStack := mvMatrixStack[..|mvMatrixStack| - 1];
      outcome := Done;
    }
  }
}
