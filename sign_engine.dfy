/**
 * The live sign recogniser (`GestureMateEngine`): per detected hand, the
 * classifier's prediction index and confidence are filtered, confident ones are
 * kept in a five-entry history, and a control label that is the most frequent
 * entry of that history (a mode, not necessarily a majority) commits to the
 * sentence: `NEXT` appends the best character seen since the last commit,
 * `SPACE` appends a space.
 *
 * Camera, hand detection and the classifier are outside the model: a frame is
 * the sequence of readings, one per detected hand.
 */
module SignEngine {
  import opened Wrappers
  import opened Strings

  const DefaultLabels: seq<string> := ["A", "B", "C", "D", "E", "NEXT", "SPACE"]
  const NextLabel := "NEXT"
  const SpaceLabel := "SPACE"

  /** `deque(maxlen=5)`. */
  const HistoryLength := 5
  /** Below this confidence a reading is suppressed and the history cleared. */
  const MinConfidence: real := 0.5
  /** Above this confidence a reading enters the history. */
  const BufferConfidence: real := 0.7
  /** History length from which a decision is made. */
  const MinVotes := 3

  const NoSign := "\U{2014}"
  const CommittedMark := "\U{2713}"
  const SpaceMark := "\U{2423}"

  // ---------------------------------------------------------------------------
  // load_labels

  /** The labels file as the loader sees it: absent, failing while read (for instance
      on bytes that are not UTF-8), or its lines. */
  datatype LabelFile = Missing | Unreadable | Lines(lines: seq<string>)

  /** The label a line contributes: the stripped second field of a stripped line with
      exactly two comma-separated fields. */
  function LineLabel(line: string): Option<string> {
    var parts := Split(PyStrip(line), ',');
    if |parts| == 2 then Some(PyStrip(parts[1])) else None
  }

  function OptionSeq(o: Option<string>): seq<string> {
    if o.Some? then [o.value] else []
  }

  /** The labels of the lines, in order. */
  function ParseLabels(lines: seq<string>): seq<string>
    decreases |lines|
  {
    if lines == [] then []
    else ParseLabels(lines[..|lines| - 1]) + OptionSeq(LineLabel(lines[|lines| - 1]))
  }

  /** What `load_labels` returns: the parsed labels, or the defaults when the file is
      missing, unreadable or yields none. */
  function Labels(file: LabelFile): (labels: seq<string>)
    ensures |labels| > 0
  {
    match file
    case Missing => DefaultLabels
    case Unreadable => DefaultLabels
    case Lines(lines) =>
      var parsed := ParseLabels(lines);
      if |parsed| == 0 then DefaultLabels else parsed
  }

  /** A line gives a label exactly when, after stripping, it holds one comma; the label
      is then what follows the comma, stripped. */
  lemma LineLabelDefined(line: string)
    ensures var s := PyStrip(line);
      && (LineLabel(line).Some? <==> multiset(s)[','] == 1)
      && (LineLabel(line).Some? ==> LineLabel(line).value == PyStrip(s[IndexOf(s, ',') + 1..]))
  {
    SplitInTwo(PyStrip(line), ',');
  }

  /** Parsing is line by line: the labels of a file are those of its parts, in order. */
  lemma {:induction false} ParseLabelsAppend(a: seq<string>, b: seq<string>)
    ensures ParseLabels(a + b) == ParseLabels(a) + ParseLabels(b)
    decreases |b|
  {
    if b == [] {
      assert a + b == a;
    } else {
      var n := |b| - 1;
      assert (a + b)[..|a + b| - 1] == a + b[..n];
      assert (a + b)[|a + b| - 1] == b[n];
      ParseLabelsAppend(a, b[..n]);
    }
  }

  /** `load_labels`: the loop over the lines of the file. */
  method LoadLabels(file: LabelFile) returns (labels: seq<string>)
    ensures labels == Labels(file)
  {
    if file.Missing? || file.Unreadable? {
      return DefaultLabels;
    }
    var lines := file.lines;
    labels := [];
    for i := 0 to |lines|
      invariant labels == ParseLabels(lines[..i])
    {
      assert lines[..i + 1][..i] == lines[..i];
      var parts := Split(PyStrip(lines[i]), ',');
      if |parts| == 2 {
        labels := labels + [PyStrip(parts[1])];
      }
    }
    assert lines[..|lines|] == lines;
    if |labels| == 0 {
      labels := DefaultLabels;
    }
  }

  // ---------------------------------------------------------------------------
  // The decision logic of process_frame

  /** The classifier's verdict on one hand: `argmax` of the probabilities and their maximum. */
  datatype Reading = Reading(prediction: nat, confidence: real)

  /** The engine's fields. */
  datatype EngineState = EngineState(buffer: seq<nat>, sentence: string, bestChar: Option<string>, bestConfidence: real)

  const Initial := EngineState([], "", None, 0.0)

  /** `deque.append` on a deque of at most `HistoryLength` entries: the last
      `HistoryLength` entries of the history followed by `p`. */
  function Append(buffer: seq<nat>, p: nat): seq<nat> {
    if |buffer| < HistoryLength then buffer + [p]
    else buffer[|buffer| + 1 - HistoryLength..] + [p]
  }

  /** `Append` keeps the last (at most) five entries of the history extended by `p`. */
  lemma AppendKeepsLatest(buffer: seq<nat>, p: nat)
    ensures var r := Append(buffer, p);
      && |r| == (if |buffer| < HistoryLength then |buffer| + 1 else HistoryLength)
      && r == (buffer + [p])[|buffer| + 1 - |r|..]
  {
  }

  function Count(buffer: seq<nat>, p: nat): nat {
    multiset(buffer)[p]
  }

  /** `p` occurs in the history as often as any other entry. */
  predicate IsMode(buffer: seq<nat>, p: nat) {
    p in buffer && forall q :: q in buffer ==> Count(buffer, q) <= Count(buffer, p)
  }

  /** `max(set(buffer), key=buffer.count)`: some most frequent entry; which one among
      equally frequent entries depends on set iteration order and is left open. */
  ghost predicate PicksMode(pick: seq<nat> -> nat) {
    forall buffer: seq<nat> :: |buffer| > 0 ==> IsMode(buffer, pick(buffer))
  }

  /** `_reset_state`. */
  function Reset(s: EngineState): EngineState {
    s.(buffer := [], bestChar := None, bestConfidence := 0.0)
  }

  /** A reset engine meets the invariant for any labels, keeps the sentence, and a
      second reset changes nothing. */
  lemma ResetValid(labels: seq<string>, s: EngineState)
    ensures EngineInv(labels, Reset(s))
    ensures Reset(s).sentence == s.sentence && Reset(s).buffer == [] && !HasBestChar(Reset(s))
    ensures Reset(Reset(s)) == Reset(s)
  {
  }

  /** The truthiness test `if self.best_char:`. */
  predicate HasBestChar(s: EngineState) {
    s.bestChar.Some? && s.bestChar.value != ""
  }

  /** The invariant the engine keeps: a bounded history of valid label indices, and a
      best character that is a plain label seen with positive confidence. */
  ghost predicate EngineInv(labels: seq<string>, s: EngineState) {
    && |s.buffer| <= HistoryLength
    && (forall k :: 0 <= k < |s.buffer| ==> s.buffer[k] < |labels|)
    && (s.bestChar.None? ==> s.bestConfidence == 0.0)
    && (s.bestChar.Some? ==>
          s.bestChar.value in labels && s.bestChar.value != NextLabel && s.bestChar.value != SpaceLabel
          && s.bestConfidence > 0.0)
  }

  /** A confident reading: it enters the history, and becomes the best character when
      it is a plain label more confident than the best so far. */
  function Track(s: EngineState, sign: string, h: Reading): EngineState {
    var buffer := Append(s.buffer, h.prediction);
    if sign != NextLabel && sign != SpaceLabel && h.confidence > s.bestConfidence then
      s.(buffer := buffer, bestChar := Some(sign), bestConfidence := h.confidence)
    else s.(buffer := buffer)
  }

  /** A reading that passed both filters: tracked above 0.7, otherwise left out of the
      history. */
  function Observe(labels: seq<string>, s: EngineState, h: Reading): EngineState
    requires h.prediction < |labels|
  {
    if h.confidence > BufferConfidence then Track(s, labels[h.prediction], h) else s
  }

  /** What `NEXT` appends: the best character when it is set and non-empty. */
  function BestText(s: EngineState): string {
    if HasBestChar(s) then s.bestChar.value else ""
  }

  /** The state, the character shown and the confidence reported after one hand, and
      whether the frame ends there. */
  datatype Step = Step(state: EngineState, display: string, confidence: real, stop: bool)

  /** The stable decision: from three entries on, the most frequent entry's label
      commits (`NEXT`, `SPACE`) or is shown. */
  function Decide(labels: seq<string>, pick: seq<nat> -> nat, t: EngineState, display: string, confidence: real): Step
    requires PicksMode(pick) && EngineInv(labels, t)
  {
    if |t.buffer| >= MinVotes then
      var finalLabel := labels[pick(t.buffer)];
      if finalLabel == NextLabel then
        Step(Reset(t.(sentence := t.sentence + BestText(t))), CommittedMark, confidence, false)
      else if finalLabel == SpaceLabel then
        Step(Reset(t.(sentence := t.sentence + " ")), SpaceMark, confidence, false)
      else Step(t, finalLabel, confidence, false)
    else Step(t, display, confidence, false)
  }

  /** Appending a valid index keeps every entry of the history a valid index. */
  lemma AppendBounded(buffer: seq<nat>, p: nat, bound: nat)
    requires forall k :: 0 <= k < |buffer| ==> buffer[k] < bound
    requires p < bound
    ensures var b := Append(buffer, p); forall k :: 0 <= k < |b| ==> b[k] < bound
  {
    var b := Append(buffer, p);
    AppendKeepsLatest(buffer, p);
    forall k | 0 <= k < |b| ensures b[k] < bound {
      assert b[k] == (buffer + [p])[|buffer| + 1 - |b| + k];
    }
  }

  lemma ObserveKeepsInv(labels: seq<string>, s: EngineState, h: Reading)
    requires EngineInv(labels, s) && h.prediction < |labels|
    ensures EngineInv(labels, Observe(labels, s, h))
  {
    if h.confidence > BufferConfidence {
      AppendBounded(s.buffer, h.prediction, |labels|);
    }
  }

  /** One iteration of the loop over the detected hands. */
  function HandStep(labels: seq<string>, pick: seq<nat> -> nat, s: EngineState, display: string, h: Reading): Step
    requires PicksMode(pick) && EngineInv(labels, s)
  {
    if h.prediction >= |labels| || h.confidence < MinConfidence then
      Step(s.(buffer := []), display, h.confidence, true)
    else
      ObserveKeepsInv(labels, s, h);
      Decide(labels, pick, Observe(labels, s, h), display, h.confidence)
  }

  /** The engine keeps its invariant across a hand. */
  lemma HandStepKeepsInv(labels: seq<string>, pick: seq<nat> -> nat, s: EngineState, display: string, h: Reading)
    requires PicksMode(pick) && EngineInv(labels, s)
    ensures EngineInv(labels, HandStep(labels, pick, s, display, h).state)
  {
    if h.prediction < |labels| && h.confidence >= MinConfidence {
      ObserveKeepsInv(labels, s, h);
    }
  }

  /** The decision leaves the state alone, or it resets it after a commit: then the
      history had at least three entries, the chosen entry is one of the most frequent,
      and its label `NEXT` appended the best character or `SPACE` a space. The display
      changes only on a decision, to a commit mark or to the chosen label. */
  lemma DecideCommits(labels: seq<string>, pick: seq<nat> -> nat, t: EngineState, display: string, confidence: real)
    requires PicksMode(pick) && EngineInv(labels, t)
    ensures var step := Decide(labels, pick, t, display, confidence);
      && step.confidence == confidence && !step.stop
      && (|t.buffer| < MinVotes ==> step.state == t && step.display == display)
      && (|t.buffer| >= MinVotes ==>
            var chosen := pick(t.buffer);
            && IsMode(t.buffer, chosen)
            && (labels[chosen] == NextLabel ==>
                  step.state == Reset(step.state) && step.state.sentence == t.sentence + BestText(t)
                  && step.display == CommittedMark)
            && (labels[chosen] == SpaceLabel ==>
                  step.state == Reset(step.state) && step.state.sentence == t.sentence + " "
                  && step.display == SpaceMark)
            && (labels[chosen] != NextLabel && labels[chosen] != SpaceLabel ==>
                  step.state == t && step.display == labels[chosen]))
  {
  }

  datatype FrameOut = FrameOut(state: EngineState, display: string, confidence: real)

  /** The loop over the hands, from the current display and confidence on. */
  function Hands(labels: seq<string>, pick: seq<nat> -> nat, s: EngineState, display: string, confidence: real,
                 hands: seq<Reading>): (out: FrameOut)
    requires PicksMode(pick) && EngineInv(labels, s)
    ensures EngineInv(labels, out.state)
    decreases |hands|
  {
    if hands == [] then FrameOut(s, display, confidence)
    else
      HandStepKeepsInv(labels, pick, s, display, hands[0]);
      var step := HandStep(labels, pick, s, display, hands[0]);
      if step.stop then FrameOut(step.state, step.display, step.confidence)
      else Hands(labels, pick, step.state, step.display, step.confidence, hands[1..])
  }

  /** `process_frame` on a frame whose detected hands gave `hands`. */
  function Frame(labels: seq<string>, pick: seq<nat> -> nat, s: EngineState, hands: seq<Reading>): (out: FrameOut)
    requires PicksMode(pick) && EngineInv(labels, s)
    ensures EngineInv(labels, out.state)
  {
    if hands == [] then FrameOut(s.(buffer := []), NoSign, 0.0)
    else Hands(labels, pick, s, NoSign, 0.0, hands)
  }

  // ---------------------------------------------------------------------------
  // Properties of the decision logic

  /** A frame without a hand clears the history, shows "—" with confidence 0 and keeps
      the sentence and the best character. */
  lemma NoHandClears(labels: seq<string>, pick: seq<nat> -> nat, s: EngineState)
    requires PicksMode(pick) && EngineInv(labels, s)
    ensures Frame(labels, pick, s, []) == FrameOut(s.(buffer := []), NoSign, 0.0)
  {
  }

  /** An out-of-range index or a confidence below 0.5 clears the history and ends the
      frame; sentence and best character stay. */
  lemma RejectedReadingClears(labels: seq<string>, pick: seq<nat> -> nat, s: EngineState, display: string, h: Reading)
    requires PicksMode(pick) && EngineInv(labels, s)
    requires h.prediction >= |labels| || h.confidence < MinConfidence
    ensures HandStep(labels, pick, s, display, h) == Step(s.(buffer := []), display, h.confidence, true)
  {
  }

  /** The history grows only by a reading above 0.7, which becomes its last entry; any
      other reading leaves it as it was or empties it. */
  lemma OnlyConfidentBuffered(labels: seq<string>, pick: seq<nat> -> nat, s: EngineState, display: string, h: Reading)
    requires PicksMode(pick) && EngineInv(labels, s)
    ensures var b := HandStep(labels, pick, s, display, h).state.buffer;
      if h.prediction < |labels| && h.confidence > BufferConfidence then
        b == [] || b == Append(s.buffer, h.prediction)
      else
        b == [] || b == s.buffer
  {
    if h.prediction < |labels| && h.confidence >= MinConfidence {
      ObserveKeepsInv(labels, s, h);
      DecideCommits(labels, pick, Observe(labels, s, h), display, h.confidence);
    }
  }

  /** A history that is full drops its oldest entry on append. */
  lemma AppendFullDropsOldest(buffer: seq<nat>, p: nat)
    requires |buffer| == HistoryLength
    ensures Append(buffer, p) == buffer[1..] + [p]
  {
  }

  /** Between commits the best confidence never decreases, and the best character
      changes only to the label of a reading above 0.7 that is neither `NEXT` nor
      `SPACE` and strictly more confident than the best so far. */
  lemma BestCharOnlyImproves(labels: seq<string>, pick: seq<nat> -> nat, s: EngineState, display: string, h: Reading)
    requires PicksMode(pick) && EngineInv(labels, s)
    ensures var t := HandStep(labels, pick, s, display, h).state;
      t == Reset(t) || (
        && t.bestConfidence >= s.bestConfidence
        && (t.bestChar != s.bestChar || t.bestConfidence != s.bestConfidence ==>
              && h.prediction < |labels| && h.confidence > BufferConfidence
              && h.confidence > s.bestConfidence
              && t.bestChar == Some(labels[h.prediction]) && t.bestConfidence == h.confidence
              && labels[h.prediction] != NextLabel && labels[h.prediction] != SpaceLabel))
  {
    if h.prediction < |labels| && h.confidence >= MinConfidence {
      ObserveKeepsInv(labels, s, h);
      DecideCommits(labels, pick, Observe(labels, s, h), display, h.confidence);
    }
  }

  /** The sentence changes only by a commit after a reading that passed both filters:
      with at least three entries in the history and a most frequent entry labelled
      `NEXT` (which appends the best character, if any) or `SPACE` (which appends a
      space); the state is then reset. */
  lemma CommitNeedsMode(labels: seq<string>, pick: seq<nat> -> nat, s: EngineState, display: string, h: Reading)
    requires PicksMode(pick) && EngineInv(labels, s)
    ensures var step := HandStep(labels, pick, s, display, h);
      step.state.sentence != s.sentence ==>
        && h.prediction < |labels| && h.confidence >= MinConfidence
        && var t := Observe(labels, s, h);
           && |t.buffer| >= MinVotes && IsMode(t.buffer, pick(t.buffer))
           && (labels[pick(t.buffer)] == NextLabel || labels[pick(t.buffer)] == SpaceLabel)
           && step.state == Reset(step.state)
           && step.state.sentence == s.sentence + (if labels[pick(t.buffer)] == NextLabel then BestText(t) else " ")
  {
    if h.prediction < |labels| && h.confidence >= MinConfidence {
      ObserveKeepsInv(labels, s, h);
      DecideCommits(labels, pick, Observe(labels, s, h), display, h.confidence);
    }
  }

  /** Within a frame the sentence is only ever extended. */
  lemma {:induction false} HandsExtendSentence(labels: seq<string>, pick: seq<nat> -> nat, s: EngineState,
                                               display: string, confidence: real, hands: seq<Reading>)
    requires PicksMode(pick) && EngineInv(labels, s)
    ensures s.sentence <= Hands(labels, pick, s, display, confidence, hands).state.sentence
    decreases |hands|
  {
    if hands != [] {
      HandStepKeepsInv(labels, pick, s, display, hands[0]);
      var step := HandStep(labels, pick, s, display, hands[0]);
      assert s.sentence <= step.state.sentence by {
        CommitNeedsMode(labels, pick, s, display, hands[0]);
      }
      if !step.stop {
        HandsExtendSentence(labels, pick, step.state, step.display, step.confidence, hands[1..]);
      }
    }
  }

  /** The old sentence is a prefix of the new one after any frame. */
  lemma FrameExtendsSentence(labels: seq<string>, pick: seq<nat> -> nat, s: EngineState, hands: seq<Reading>)
    requires PicksMode(pick) && EngineInv(labels, s)
    ensures s.sentence <= Frame(labels, pick, s, hands).state.sentence
  {
    if hands != [] {
      HandsExtendSentence(labels, pick, s, NoSign, 0.0, hands);
    }
  }

  /** An entry making up more than half of the history is the only most frequent one, so
      the vote picks it whatever the tie break. */
  lemma MajorityPicked(pick: seq<nat> -> nat, buffer: seq<nat>, p: nat)
    requires PicksMode(pick)
    requires 2 * Count(buffer, p) > |buffer|
    ensures pick(buffer) == p
  {
    assert |buffer| > 0;
    var q := pick(buffer);
    if q != p {
      CountSum(buffer, p, q);
    }
  }

  /** The vote always lands on a valid label index. */
  lemma PickInRange(labels: seq<string>, pick: seq<nat> -> nat, buffer: seq<nat>)
    requires PicksMode(pick) && |buffer| > 0
    requires forall k :: 0 <= k < |buffer| ==> buffer[k] < |labels|
    ensures pick(buffer) < |labels|
  {
    assert IsMode(buffer, pick(buffer));
  }

  /** Two distinct entries together occur at most as often as the history is long. */
  lemma {:induction false} CountSum(buffer: seq<nat>, p: nat, q: nat)
    requires p != q
    ensures Count(buffer, p) + Count(buffer, q) <= |buffer|
    decreases |buffer|
  {
    if buffer != [] {
      var n := |buffer| - 1;
      assert buffer == buffer[..n] + [buffer[n]];
      assert multiset(buffer) == multiset(buffer[..n]) + multiset{buffer[n]};
      CountSum(buffer[..n], p, q);
    }
  }

  // ---------------------------------------------------------------------------
  // The engine object

  class GestureMateEngine {
    const labels: seq<string>
    var predictionBuffer: seq<nat>
    var currentSentence: string
    var bestChar: Option<string>
    var bestConfidence: real

    function State(): EngineState
      reads this
    {
      EngineState(predictionBuffer, currentSentence, bestChar, bestConfidence)
    }

    ghost predicate Valid()
      reads this
    {
      EngineInv(labels, State())
    }

    /** `__init__`: labels from the default labels file, empty history and sentence. */
    constructor (file: LabelFile)
      ensures Valid() && labels == Labels(file) && State() == Initial
    {
      var loaded := LoadLabels(file);
      labels := loaded;
      predictionBuffer := [];
      currentSentence := "";
      bestChar := None;
      bestConfidence := 0.0;
    }

    /** `_reset_state`. */
    method ResetState()
      modifies this
      ensures Valid()
      ensures State() == Reset(old(State()))
    {
      bestChar := None;
      bestConfidence := 0.0;
      predictionBuffer := [];
    }

    /** `process_frame`: returns the character to show, the sentence and the confidence
        of the last hand examined. */
    method ProcessFrame(hands: seq<Reading>, pick: seq<nat> -> nat)
      returns (displayChar: string, sentence: string, confidenceOut: real)
      requires Valid() && PicksMode(pick)
      modifies this
      ensures Valid()
      ensures Frame(labels, pick, old(State()), hands) == FrameOut(State(), displayChar, confidenceOut)
      ensures sentence == currentSentence
    {
      displayChar := NoSign;
      confidenceOut := 0.0;
      if |hands| == 0 {
        predictionBuffer := [];
        return displayChar, currentSentence, confidenceOut;
      }
      ghost var goal := Frame(labels, pick, old(State()), hands);
      var i := 0;
      while i < |hands|
        invariant 0 <= i <= |hands|
        invariant Valid()
        invariant goal == Hands(labels, pick, State(), displayChar, confidenceOut, hands[i..])
      {
        assert hands[i..][0] == hands[i] && hands[i..][1..] == hands[i + 1..];
        var stop;
        displayChar, confidenceOut, stop := ProcessHand(hands[i], pick, displayChar);
        if stop {
          return displayChar, currentSentence, confidenceOut;
        }
        i := i + 1;
      }
      sentence := currentSentence;
    }

    /** The body of the loop over the hands in `process_frame`; `stop` is an early return. */
    method ProcessHand(hand: Reading, pick: seq<nat> -> nat, display: string)
      returns (displayChar: string, confidenceOut: real, stop: bool)
      requires Valid() && PicksMode(pick)
      modifies this
      ensures Valid()
      ensures HandStep(labels, pick, old(State()), display, hand) == Step(State(), displayChar, confidenceOut, stop)
    {
      HandStepKeepsInv(labels, pick, State(), display, hand);
      displayChar, confidenceOut, stop := display, hand.confidence, true;
      if hand.prediction >= |labels| {
        predictionBuffer := [];
        return;
      }
      var sign := labels[hand.prediction];
      if hand.confidence < MinConfidence {
        predictionBuffer := [];
        return;
      }
      stop := false;
      if hand.confidence > BufferConfidence {
        predictionBuffer := Append(predictionBuffer, hand.prediction);
        if sign != NextLabel && sign != SpaceLabel {
          if hand.confidence > bestConfidence {
            bestConfidence := hand.confidence;
            bestChar := Some(sign);
          }
        }
      }
      assert State() == Observe(labels, old(State()), hand);
      ObserveKeepsInv(labels, old(State()), hand);
      displayChar := StableDecision(pick, display, confidenceOut);
    }

    /** The stable-decision part of the loop body: commit or show the most frequent label
        once the history has three entries. */
    method StableDecision(pick: seq<nat> -> nat, display: string, confidence: real) returns (displayChar: string)
      requires Valid() && PicksMode(pick)
      modifies this
      ensures Valid()
      ensures Decide(labels, pick, old(State()), display, confidence) == Step(State(), displayChar, confidence, false)
    {
      displayChar := display;
      if |predictionBuffer| >= MinVotes {
        PickInRange(labels, pick, predictionBuffer);
        var finalPred := pick(predictionBuffer);
        var finalLabel := labels[finalPred];
        if finalLabel == NextLabel {
          if bestChar.Some? && bestChar.value != "" {
            currentSentence := currentSentence + bestChar.value;
          }
          ResetState();
          displayChar := CommittedMark;
        } else if finalLabel == SpaceLabel {
          currentSentence := currentSentence + " ";
          ResetState();
          displayChar := SpaceMark;
        } else {
          displayChar := finalLabel;
        }
      }
    }
  }
}
