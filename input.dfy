/**
 * Keyboard polling: a three-valued horizontal axis and a one-bit edge
 * detector for the jump key.
 */
module Input {

  /** The keyboard readings one poll looks at. */
  datatype Keys = Keys(
    escapeJustPressed: bool,
    arrowLeft: bool, keyA: bool,
    arrowRight: bool, keyD: bool,
    space: bool, keyL: bool)

  /** The movement intent the controller reads. */
  datatype Movement = Movement(inputDirectionX: real, pressingJump: bool, justPressedJump: bool)

  const Released: Movement := Movement(0.0, false, false)

  /** Both directions held, or neither, cancel out. */
  function AxisFor(left: bool, right: bool): (r: real)
    ensures r == -1.0 || r == 0.0 || r == 1.0
    ensures r == -1.0 <==> left && !right
    ensures r == 1.0 <==> right && !left
    ensures r == 0.0 <==> left == right
  {
    if left && right then 0.0
    else if left then -1.0
    else if right then 1.0
    else 0.0
  }

  predicate JumpKeyHeld(k: Keys) { k.space || k.keyL }

  /** The movement state a poll produces from the previous one when Escape is not pressed. */
  function Polled(previous: Movement, k: Keys): (r: Movement)
    ensures r.inputDirectionX == AxisFor(k.arrowLeft || k.keyA, k.arrowRight || k.keyD)
    ensures r.pressingJump == JumpKeyHeld(k)
    ensures r.justPressedJump <==> JumpKeyHeld(k) && !previous.pressingJump
    ensures r.justPressedJump ==> r.pressingJump
  {
    var now := JumpKeyHeld(k);
    Movement(AxisFor(k.arrowLeft || k.keyA, k.arrowRight || k.keyD), now, now && !previous.pressingJump)
  }

  /** The states after each of a run of polls, none of which sees Escape. */
  function PollRun(start: Movement, keys: seq<Keys>): (r: seq<Movement>)
    ensures |r| == |keys|
    ensures forall i :: 0 <= i < |keys| ==> r[i] == Polled(if i == 0 then start else r[i - 1], keys[i])
    decreases |keys|
  {
    if |keys| == 0 then []
    else
      var next := Polled(start, keys[0]);
      var rest := PollRun(next, keys[1..]);
      assert forall i :: 1 <= i < |keys| ==> ([next] + rest)[i] == rest[i - 1] && keys[1..][i - 1] == keys[i];
      [next] + rest
  }

  /**
   * Holding jump through a run of polls reports a fresh press on the first
   * poll only, and only if jump was not already held before the run.
   */
  lemma {:induction false} HeldJumpFiresOnce(start: Movement, keys: seq<Keys>)
    requires forall i :: 0 <= i < |keys| ==> JumpKeyHeld(keys[i])
    ensures forall i :: 0 <= i < |keys| ==>
              (PollRun(start, keys)[i].justPressedJump <==> i == 0 && !start.pressingJump)
    ensures forall i :: 0 <= i < |keys| ==> PollRun(start, keys)[i].pressingJump
    decreases |keys|
  {
    if |keys| > 0 {
      var next := Polled(start, keys[0]);
      HeldJumpFiresOnce(next, keys[1..]);
      assert PollRun(start, keys) == [next] + PollRun(next, keys[1..]);
      forall i | 0 <= i < |keys|
        ensures PollRun(start, keys)[i].justPressedJump <==> i == 0 && !start.pressingJump
        ensures PollRun(start, keys)[i].pressingJump
      {
        if i > 0 {
          assert PollRun(start, keys)[i] == PollRun(next, keys[1..])[i - 1];
          assert keys[1..][i - 1] == keys[i];
        }
      }
    }
  }

  /** One of the axis's three positions: left, released or right. */
  predicate AxisPosition(x: real) {
    x == -1.0 || x == 0.0 || x == 1.0
  }

  /** The keyboard-polling resource. */
  class MovementState {
    var inputDirectionX: real
    var pressingJump: bool
    var justPressedJump: bool

    function Snapshot(): Movement
      reads this
    {
      Movement(inputDirectionX, pressingJump, justPressedJump)
    }

    /**
     * The axis only ever holds one of its three positions, and a fresh press
     * is a press. The input system's correction lemma
     * (`CorrectionOnlyAffectsReversePlanarPush`) relies on the first half.
     */
    predicate Valid()
      reads this
    {
      AxisPosition(inputDirectionX) && (justPressedJump ==> pressingJump)
    }

    constructor ()
      ensures Snapshot() == Released && Valid()
    {
      inputDirectionX := 0.0;
      pressingJump := false;
      justPressedJump := false;
    }

    method Reset()
      modifies this
      ensures Snapshot() == Released && Valid()
    {
      inputDirectionX := 0.0;
      pressingJump := false;
      justPressedJump := false;
    }

    /**
     * One poll. Escape asks the application to exit and leaves the state as it
     * was; otherwise the state is cleared and rebuilt from the keys, the fresh
     * press being judged against the jump key's state at the previous poll.
     */
    method PollInputs(k: Keys) returns (exit: bool)
      requires Valid()
      modifies this
      ensures Valid()
      ensures exit == k.escapeJustPressed
      ensures exit ==> Snapshot() == old(Snapshot())
      ensures !exit ==> Snapshot() == Polled(old(Snapshot()), k)
    {
      if k.escapeJustPressed {
        return true;
      }
      var wasPreviouslyPressingJump := pressingJump;
      Reset();
      var pressingLeft := k.arrowLeft || k.keyA;
      var pressingRight := k.arrowRight || k.keyD;
      inputDirectionX := AxisFor(pressingLeft, pressingRight);
      var nowPressingJump := k.space || k.keyL;
      pressingJump := nowPressingJump;
      justPressedJump := nowPressingJump && !wasPreviouslyPressingJump;
      exit := false;
    }
  }
}
