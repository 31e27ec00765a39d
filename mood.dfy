/**
 * Level-segment lookup from the player's x coordinate, and the background
 * colour state machine that fades from the previous colour to the colour of
 * the current mood.
 */
module Mood {
  import opened Wrappers

  const MOOD_TRANSITION_DURATION: real := 2.0

  datatype Mood =
    | Peace | CallToAdventure | Confidence | TwistNewSubquest | SubquestTension
    | ReliefAfterSubquest | TwistUnconstrainedQuest | Triumph | ReliefAfterQuest

  /**
   * Colours are symbolic: the palette entries the moods use, and the mix of
   * two colours by a factor, left uninterpreted.
   */
  datatype Color =
    | DefaultClearColor | Red | DarkGray | BlueViolet | Olive | AliceBlue
    | Mix(from: Color, to: Color, factor: real)

  /** Each of the first five moods has its own colour; all later moods share the pale blue. */
  function BackgroundColor(m: Mood): (c: Color)
    ensures !c.Mix?
    ensures c == AliceBlue <==> m in {ReliefAfterSubquest, TwistUnconstrainedQuest, Triumph, ReliefAfterQuest}
  {
    match m
    case Peace => DefaultClearColor
    case CallToAdventure => Red
    case Confidence => DarkGray
    case TwistNewSubquest => BlueViolet
    case SubquestTension => Olive
    case _ => AliceBlue
  }

  /** Two moods share a colour only when both show the pale blue. */
  lemma BackgroundColorsDistinct(m: Mood, n: Mood)
    requires m != n && BackgroundColor(m) == BackgroundColor(n)
    ensures BackgroundColor(m) == AliceBlue
  {
  }

  datatype Segment = Freedom | ConfidentQuest | Subquest | FinishQuest | FinalRelief

  /** The segments in level order. */
  const AllSegments: seq<Segment> := [Freedom, ConfidentQuest, Subquest, FinishQuest, FinalRelief]

  function StartingX(s: Segment): real {
    match s
    case Freedom => -1000.0
    case ConfidentQuest => 5.0
    case Subquest => 10.0
    case FinishQuest => 15.0
    case FinalRelief => 20.0
  }

  /** Position of a segment in level order. */
  function Index(s: Segment): (i: nat)
    ensures i < |AllSegments| && AllSegments[i] == s
  {
    match s
    case Freedom => 0
    case ConfidentQuest => 1
    case Subquest => 2
    case FinishQuest => 3
    case FinalRelief => 4
  }

  /** Starting positions rise strictly along the level. */
  lemma StartingXIncreasing(a: Segment, b: Segment)
    requires Index(a) < Index(b)
    ensures StartingX(a) < StartingX(b)
  {
  }

  /** The last of `segments` whose starting x lies strictly below `x`. */
  function LastStartingBelow(segments: seq<Segment>, x: real): (r: Option<Segment>)
    ensures r.Some? ==> r.value in segments && StartingX(r.value) < x
    ensures r.Some? ==> exists i :: 0 <= i < |segments| && segments[i] == r.value
                                    && forall j :: i < j < |segments| ==> StartingX(segments[j]) >= x
    ensures r.None? <==> forall i :: 0 <= i < |segments| ==> StartingX(segments[i]) >= x
  {
    if |segments| == 0 then None
    else if x > StartingX(segments[|segments| - 1]) then Some(segments[|segments| - 1])
    else
      var front := segments[..|segments| - 1];
      var rest := LastStartingBelow(front, x);
      assert rest.Some? ==> exists i :: 0 <= i < |segments| && segments[i] == rest.value
                                        && forall j :: i < j < |segments| ==> StartingX(segments[j]) >= x by {
        if rest.Some? {
          var i :| 0 <= i < |front| && front[i] == rest.value && forall j :: i < j < |front| ==> StartingX(front[j]) >= x;
          assert segments[i] == rest.value;
          forall j | i < j < |segments| ensures StartingX(segments[j]) >= x {
            if j < |front| { assert segments[j] == front[j]; }
          }
        }
      }
      assert rest.None? ==> forall i :: 0 <= i < |segments| ==> StartingX(segments[i]) >= x by {
        if rest.None? {
          forall i | 0 <= i < |segments| ensures StartingX(segments[i]) >= x {
            if i < |front| { assert segments[i] == front[i]; }
          }
        }
      }
      rest
  }

  /** The segment at `x`: the last one started before `x`, or the final segment when none has. */
  function SegmentFor(x: real): Segment {
    match LastStartingBelow(AllSegments, x)
    case Some(s) => s
    case None => FinalRelief
  }

  /** The lookup written out as a threshold table. */
  lemma SegmentForTable(x: real)
    ensures SegmentFor(x) ==
      if x > 20.0 then FinalRelief
      else if x > 15.0 then FinishQuest
      else if x > 10.0 then Subquest
      else if x > 5.0 then ConfidentQuest
      else if x > -1000.0 then Freedom
      else FinalRelief
  {
    var s := AllSegments;
    assert s[..4] == [Freedom, ConfidentQuest, Subquest, FinishQuest];
    assert s[..4][..3] == [Freedom, ConfidentQuest, Subquest];
    assert s[..4][..3][..2] == [Freedom, ConfidentQuest];
    assert s[..4][..3][..2][..1] == [Freedom];
    assert LastStartingBelow(s, x) == if x > 20.0 then Some(FinalRelief) else LastStartingBelow(s[..4], x);
    assert LastStartingBelow(s[..4], x) == if x > 15.0 then Some(FinishQuest) else LastStartingBelow(s[..4][..3], x);
    assert LastStartingBelow(s[..4][..3], x) == if x > 10.0 then Some(Subquest) else LastStartingBelow(s[..4][..3][..2], x);
    assert LastStartingBelow(s[..4][..3][..2], x) == if x > 5.0 then Some(ConfidentQuest) else LastStartingBelow(s[..4][..3][..2][..1], x);
    assert LastStartingBelow(s[..4][..3][..2][..1], x) == if x > -1000.0 then Some(Freedom) else None;
  }

  /** Beyond the first threshold the result started before `x` and every later segment starts at or after `x`. */
  lemma SegmentForIsLastStarted(x: real)
    requires x > StartingX(Freedom)
    ensures StartingX(SegmentFor(x)) < x
    ensures forall s: Segment :: Index(SegmentFor(x)) < Index(s) ==> StartingX(s) >= x
  {
    SegmentForTable(x);
  }

  /** Left of every threshold the lookup falls back to the final segment. */
  lemma SegmentForFallback(x: real)
    requires x <= StartingX(Freedom)
    ensures SegmentFor(x) == FinalRelief
  {
    SegmentForTable(x);
  }

  /** Beyond the first threshold, moving right never leads to an earlier segment. */
  lemma SegmentForMonotone(x: real, y: real)
    requires StartingX(Freedom) < x <= y
    ensures Index(SegmentFor(x)) <= Index(SegmentFor(y))
  {
    SegmentForTable(x);
    SegmentForTable(y);
  }

  /** The mood each segment sets. */
  function SegmentMood(s: Segment): (m: Mood)
  {
    match s
    case Freedom => Peace
    case ConfidentQuest => Confidence
    case Subquest => SubquestTension
    case FinishQuest => Triumph
    case FinalRelief => ReliefAfterQuest
  }

  /** Different segments set different moods. */
  lemma SegmentMoodInjective(s: Segment, t: Segment)
    requires s != t
    ensures SegmentMood(s) != SegmentMood(t)
  {
  }

  /** The search over the segments in reverse order, returning at the first threshold below `x`. */
  method ForX(x: real) returns (r: Segment)
    ensures r == SegmentFor(x)
  {
    var allCases := AllSegments;
    var i := |allCases|;
    assert allCases[..i] == allCases;
    while i > 0
      invariant 0 <= i <= |allCases|
      invariant LastStartingBelow(allCases, x) == LastStartingBelow(allCases[..i], x)
    {
      var case_ := allCases[i - 1];
      if x > StartingX(case_) {
        assert LastStartingBelow(allCases[..i], x) == Some(case_);
        return case_;
      }
      assert allCases[..i][..i - 1] == allCases[..i - 1];
      i := i - 1;
    }
    return FinalRelief;
  }

  /** The fields of the mood resource, as a value. */
  datatype MoodState = MoodState(
    currentMood: Mood,
    transitioningFromColor: Option<Color>,
    transitionProgress: real,
    currentPhysicalSegment: Segment)

  /** The colour shown: the mood's colour, or the mix from the previous colour by the fraction of the transition done. */
  function ColorOf(st: MoodState): (c: Color)
    ensures st.transitioningFromColor.None? ==> c == BackgroundColor(st.currentMood)
    ensures st.transitioningFromColor.Some? ==>
              c == Mix(st.transitioningFromColor.value, BackgroundColor(st.currentMood), st.transitionProgress / MOOD_TRANSITION_DURATION)
  {
    match st.transitioningFromColor
    case None => BackgroundColor(st.currentMood)
    case Some(from) => Mix(from, BackgroundColor(st.currentMood), st.transitionProgress / MOOD_TRANSITION_DURATION)
  }

  /**
   * While the progress stays within the transition's duration, the colour
   * shown lies between the two colours: a mix is by a factor in `[0, 1]`.
   */
  lemma MixFactorInRange(st: MoodState)
    requires 0.0 <= st.transitionProgress <= MOOD_TRANSITION_DURATION
    ensures ColorOf(st).Mix? ==> 0.0 <= ColorOf(st).factor <= 1.0
  {
  }

  /** A new mood starts a transition from the colour shown at that moment. */
  function AfterEvent(st: MoodState, e: Mood): MoodState {
    st.(transitioningFromColor := Some(ColorOf(st)), currentMood := e, transitionProgress := 0.0)
  }

  function AfterEvents(st: MoodState, events: seq<Mood>): MoodState
    decreases |events|
  {
    if |events| == 0 then st else AfterEvents(AfterEvent(st, events[0]), events[1..])
  }

  /**
   * After a batch of events the last one decides the mood, the transition
   * restarts from zero, and the segment is untouched.
   */
  lemma {:induction false} AfterEventsLastWins(st: MoodState, events: seq<Mood>)
    requires |events| > 0
    ensures AfterEvents(st, events).currentMood == events[|events| - 1]
    ensures AfterEvents(st, events).transitionProgress == 0.0
    ensures AfterEvents(st, events).transitioningFromColor.Some?
    ensures AfterEvents(st, events).currentPhysicalSegment == st.currentPhysicalSegment
    decreases |events|
  {
    if |events| > 1 {
      AfterEventsLastWins(AfterEvent(st, events[0]), events[1..]);
      assert events[1..][|events[1..]| - 1] == events[|events| - 1];
    }
  }

  /** Entering a different segment starts a transition to its mood; staying in the same one changes nothing. */
  function AfterPosition(st: MoodState, x: real): (r: MoodState)
    ensures SegmentFor(x) == st.currentPhysicalSegment ==> r == st
    ensures SegmentFor(x) != st.currentPhysicalSegment ==>
              r.currentPhysicalSegment == SegmentFor(x) && r.currentMood == SegmentMood(SegmentFor(x))
              && r.transitionProgress == 0.0 && r.transitioningFromColor == Some(ColorOf(st))
  {
    var segment := SegmentFor(x);
    if segment != st.currentPhysicalSegment then
      MoodState(SegmentMood(segment), Some(ColorOf(st)), 0.0, segment)
    else st
  }

  /** One frame of the fade: progress grows by `dt` and the transition ends once it reaches the duration. */
  function Transitioned(st: MoodState, dt: real): (r: MoodState)
    ensures st.transitioningFromColor.None? ==> r == st
    ensures st.transitioningFromColor.Some? && st.transitionProgress + dt >= MOOD_TRANSITION_DURATION ==>
              r == st.(transitionProgress := MOOD_TRANSITION_DURATION, transitioningFromColor := None)
    ensures st.transitioningFromColor.Some? && st.transitionProgress + dt < MOOD_TRANSITION_DURATION ==>
              r == st.(transitionProgress := st.transitionProgress + dt)
    ensures r.transitioningFromColor.None? ==> ColorOf(r) == BackgroundColor(r.currentMood)
  {
    if st.transitioningFromColor.None? then st
    else
      var progress := st.transitionProgress + dt;
      if progress >= MOOD_TRANSITION_DURATION then
        st.(transitionProgress := MOOD_TRANSITION_DURATION, transitioningFromColor := None)
      else st.(transitionProgress := progress)
  }

  /** `n` frames of the fade with the same time step. */
  function TransitionedFor(st: MoodState, dt: real, n: nat): MoodState
    decreases n
  {
    if n == 0 then st else TransitionedFor(Transitioned(st, dt), dt, n - 1)
  }

  /** A transition at progress `p` is over after any `n` frames with `p + n * dt` at least the duration. */
  lemma {:induction false} TransitionCompletes(st: MoodState, dt: real, n: nat)
    requires dt > 0.0 && n > 0
    requires st.transitionProgress + (n as real) * dt >= MOOD_TRANSITION_DURATION
    ensures TransitionedFor(st, dt, n).transitioningFromColor.None?
    ensures ColorOf(TransitionedFor(st, dt, n)) == BackgroundColor(st.currentMood)
    decreases n
  {
    var next := Transitioned(st, dt);
    if next.transitioningFromColor.Some? {
      assert next.transitionProgress == st.transitionProgress + dt;
      assert next.transitionProgress + ((n - 1) as real) * dt == st.transitionProgress + (n as real) * dt;
      TransitionCompletes(next, dt, n - 1);
    } else {
      TransitionStaysDone(next, dt, n - 1);
    }
  }

  /** A finished transition stays finished. */
  lemma {:induction false} TransitionStaysDone(st: MoodState, dt: real, n: nat)
    requires st.transitioningFromColor.None?
    ensures TransitionedFor(st, dt, n) == st
    decreases n
  {
    if n > 0 {
      TransitionStaysDone(Transitioned(st, dt), dt, n - 1);
    }
  }

  /** The mood resource. */
  class MoodParams {
    var currentMood: Mood
    var transitioningFromColor: Option<Color>
    var transitionProgress: real
    var currentPhysicalSegment: Segment

    function State(): MoodState
      reads this
    {
      MoodState(currentMood, transitioningFromColor, transitionProgress, currentPhysicalSegment)
    }

    /** Progress stays within the transition's duration, so the colour shown mixes by a factor in `[0, 1]` (`MixFactorInRange`). */
    predicate Valid()
      reads this
    {
      0.0 <= transitionProgress <= MOOD_TRANSITION_DURATION
    }

    /** The default resource: peace, no transition, the first segment. */
    constructor ()
      ensures State() == MoodState(Peace, None, 0.0, Freedom) && Valid()
    {
      currentMood := Peace;
      transitioningFromColor := None;
      transitionProgress := 0.0;
      currentPhysicalSegment := Freedom;
    }

    function CurrentColor(): Color
      reads this
    {
      ColorOf(State())
    }

    method ProcessMoodEvents(events: seq<Mood>)
      requires Valid()
      modifies this
      ensures Valid()
      ensures State() == AfterEvents(old(State()), events)
    {
      for k := 0 to |events|
        invariant Valid()
        invariant AfterEvents(old(State()), events) == AfterEvents(State(), events[k..])
      {
        assert events[k..][1..] == events[k + 1..];
        transitioningFromColor := Some(CurrentColor());
        currentMood := events[k];
        transitionProgress := 0.0;
      }
    }

    /**
     * Follows the player's x coordinate; `playerXs` holds one entry per player
     * entity, and anything but exactly one is an error that changes nothing.
     */
    method ProcessPlayerPosition(playerXs: seq<real>) returns (ok: bool)
      requires Valid()
      modifies this
      ensures Valid()
      ensures ok <==> |playerXs| == 1
      ensures !ok ==> State() == old(State())
      ensures ok ==> State() == AfterPosition(old(State()), playerXs[0])
    {
      if |playerXs| != 1 {
        return false;
      }
      var segment := ForX(playerXs[0]);
      if segment != currentPhysicalSegment {
        currentPhysicalSegment := segment;
        transitioningFromColor := Some(CurrentColor());
        currentMood := SegmentMood(segment);
        transitionProgress := 0.0;
      }
      return true;
    }

    /** One frame of the fade; returns the clear colour written, if the fade was running. */
    method TransitionMoods(dt: real) returns (clearColor: Option<Color>)
      requires Valid() && dt >= 0.0
      modifies this
      ensures Valid()
      ensures State() == Transitioned(old(State()), dt)
      ensures clearColor == if old(transitioningFromColor).None? then None else Some(ColorOf(State()))
    {
      if transitioningFromColor.None? {
        return None;
      }
      transitionProgress := transitionProgress + dt;
      if transitionProgress >= MOOD_TRANSITION_DURATION {
        transitionProgress := MOOD_TRANSITION_DURATION;
        transitioningFromColor := None;
      }
      clearColor := Some(CurrentColor());
    }
  }
}
