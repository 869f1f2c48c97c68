/** One step of the video: which code is live at a frame, the one-time
    layout snapshot, and the per-frame application of token transitions
    (src/CodeTransition.tsx). */
module CodeTransition {
  import opened Wrappers

  /** One highlighted token. */
  datatype Token = Token(content: string, style: string)

  /** An annotation: the name of the handler that owns it, its query, and the lines it covers. */
  datatype Annotation = Annotation(name: string, query: string, fromLine: nat, toLine: nat)

  /** A highlighted code state as the highlighter produces it. */
  datatype HighlightedCode = HighlightedCode(
    code: string,
    lang: string,
    meta: string,
    tokens: seq<Token>,
    annotations: seq<Annotation>)

  /** The code shown before the transition: the old code, or, on the first
      step, the new code emptied of its tokens and annotations. */
  function PrevCode(oldCode: Option<HighlightedCode>, newCode: HighlightedCode): (r: HighlightedCode)
    ensures oldCode.Some? ==> r == oldCode.value
    ensures oldCode.None? ==> r.tokens == [] && r.annotations == []
    ensures oldCode.None? ==> r.code == newCode.code && r.lang == newCode.lang && r.meta == newCode.meta
  {
    match oldCode
    case Some(c) => c
    case None => newCode.(tokens := [], annotations := [])
  }

  /** The code handed to the renderer at `frame`: before the snapshot exists
      the previous code, whatever the frame; afterwards the new code from
      `transitionDelayInFrames` on. */
  function CodeShown(hasSnapshot: bool, frame: nat, transitionDelayInFrames: real,
                     prevCode: HighlightedCode, newCode: HighlightedCode): (r: HighlightedCode)
    ensures r == prevCode || r == newCode
    ensures !hasSnapshot ==> r == prevCode
    ensures hasSnapshot && frame as real >= transitionDelayInFrames ==> r == newCode
    ensures hasSnapshot && frame as real < transitionDelayInFrames ==> r == prevCode
  {
    var shouldShowNewCode := frame as real >= transitionDelayInFrames;
    if !hasSnapshot then prevCode
    else if shouldShowNewCode then newCode
    else prevCode
  }

  /** A four-phase reading of a step by frame: before the snapshot, before
      the delay, inside the step's transition window, and after it. What the
      step shows depends only on the first two boundaries. */
  datatype Phase = Uninitialized | ShowingOld | Transitioning | ShowingNew

  /** The phase of a step at `frame`, for a transition window that opens at
      `transitionDelayInFrames` and lasts `durationInFrames`. */
  function PhaseAt(hasSnapshot: bool, frame: nat, transitionDelayInFrames: real, durationInFrames: real): Phase
  {
    if !hasSnapshot then Uninitialized
    else if (frame as real) < transitionDelayInFrames then ShowingOld
    else if (frame as real) < transitionDelayInFrames + durationInFrames then Transitioning
    else ShowingNew
  }

  /** The content shown switches to the new code exactly in the two later phases. */
  lemma CodeShownByPhase(hasSnapshot: bool, frame: nat, transitionDelayInFrames: real, durationInFrames: real,
                         prevCode: HighlightedCode, newCode: HighlightedCode)
    requires prevCode != newCode
    ensures CodeShown(hasSnapshot, frame, transitionDelayInFrames, prevCode, newCode) == newCode
        <==> PhaseAt(hasSnapshot, frame, transitionDelayInFrames, durationInFrames) in {Transitioning, ShowingNew}
  {
  }

  /** Timing of one transition, as fractions of the step's transition window. */
  datatype TransitionOptions = TransitionOptions(delay: real, duration: real)

  /** A rendered element, identified by its position in the rendered block. */
  type Element = nat

  /** The style a transition moves an element from, and to. */
  datatype Keyframes = Keyframes(from: map<string, string>, to: map<string, string>)

  /** One transition computed by the token-transition library. */
  datatype Transition = Transition(element: Element, keyframes: Keyframes, options: TransitionOptions)

  /** The layout snapshot taken from the rendered block: a style
      description per token identity. */
  datatype Snapshot = Snapshot(tokens: map<string, string>)

  /** One call of `applyStyle`. */
  datatype StyleCall = StyleCall(element: Element, keyframes: Keyframes, progress: real, linearProgress: real)

  /** The frame at which a transition starts. */
  function WindowStart(transitionDelayInFrames: real, durationInFrames: real, options: TransitionOptions): (s: real)
    ensures durationInFrames >= 0.0 && options.delay >= 0.0 ==> s >= transitionDelayInFrames
    ensures durationInFrames >= 0.0 && options.delay <= 1.0 ==> s <= transitionDelayInFrames + durationInFrames
  {
    transitionDelayInFrames + durationInFrames * options.delay
  }

  /** The number of frames a transition lasts. */
  function WindowLength(durationInFrames: real, options: TransitionOptions): (l: real)
    ensures durationInFrames > 0.0 && options.duration > 0.0 ==> l > 0.0
    ensures durationInFrames >= 0.0 && options.duration <= 1.0 ==> l <= durationInFrames
  {
    durationInFrames * options.duration
  }

  /** A transition whose fractions keep it inside the step's window starts
      no earlier than the window and ends no later. */
  lemma WindowInsideStep(transitionDelayInFrames: real, durationInFrames: real, options: TransitionOptions)
    requires durationInFrames > 0.0
    requires 0.0 <= options.delay && 0.0 < options.duration && options.delay + options.duration <= 1.0
    ensures transitionDelayInFrames <= WindowStart(transitionDelayInFrames, durationInFrames, options)
    ensures WindowStart(transitionDelayInFrames, durationInFrames, options) + WindowLength(durationInFrames, options)
            <= transitionDelayInFrames + durationInFrames
    ensures WindowLength(durationInFrames, options) > 0.0
  {
    calc {
      WindowStart(transitionDelayInFrames, durationInFrames, options) + WindowLength(durationInFrames, options);
      transitionDelayInFrames + durationInFrames * (options.delay + options.duration);
    <=
      transitionDelayInFrames + durationInFrames;
    }
  }

  /** A quotient whose dividend reaches its positive divisor is at least 1. */
  lemma QuotientAtLeastOne(a: real, b: real)
    requires b > 0.0 && a >= b
    ensures a / b >= 1.0
  {
  }

  /** `x` clamped to [0, 1]. */
  function Clamp01(x: real): real
  {
    if x < 0.0 then 0.0 else if x > 1.0 then 1.0 else x
  }

  /** `interpolate(frame, [start, start + length], [0, 1])` with both sides
      clamped: the share of the window that has elapsed at `frame`. */
  function LinearProgress(frame: real, start: real, length: real): (p: real)
    requires length > 0.0
    ensures 0.0 <= p <= 1.0
    ensures frame <= start ==> p == 0.0
    ensures frame >= start + length ==> p == 1.0
    ensures start < frame < start + length ==> p == (frame - start) / length
  {
    var x := (frame - start) / length;
    assert frame >= start + length ==> x >= 1.0 by {
      if frame >= start + length { QuotientAtLeastOne(frame - start, length); }
    }
    Clamp01(x)
  }

  /** Progress never decreases as the frame advances. */
  lemma LinearProgressMonotone(frame1: real, frame2: real, start: real, length: real)
    requires length > 0.0 && frame1 <= frame2
    ensures LinearProgress(frame1, start, length) <= LinearProgress(frame2, start, length)
  {
    var x1, x2 := (frame1 - start) / length, (frame2 - start) / length;
    assert x2 - x1 == (frame2 - frame1) / length;
    assert x1 <= x2;
  }

  /** Every transition must last some frames: a zero-length window is not a
      valid interpolation range. */
  predicate Timed(transitions: seq<Transition>)
  {
    forall t :: t in transitions ==> t.options.duration > 0.0
  }

  /** The `applyStyle` call made for transition `t` at `frame`. */
  function StyleCallFor(t: Transition, frame: nat, transitionDelayInFrames: real, durationInFrames: real,
                        ease: real -> real): (c: StyleCall)
    requires durationInFrames > 0.0 && t.options.duration > 0.0
    ensures c.element == t.element && c.keyframes == t.keyframes
    ensures 0.0 <= c.linearProgress <= 1.0
    ensures c.progress == ease(c.linearProgress)
  {
    var delay := WindowStart(transitionDelayInFrames, durationInFrames, t.options);
    var duration := WindowLength(durationInFrames, t.options);
    var linearProgress := LinearProgress(frame as real, delay, duration);
    StyleCall(t.element, t.keyframes, ease(linearProgress), linearProgress)
  }

  /** The `applyStyle` calls of one applying run, in transition order. */
  function StyleCalls(transitions: seq<Transition>, frame: nat, transitionDelayInFrames: real,
                      durationInFrames: real, ease: real -> real): (r: seq<StyleCall>)
    requires durationInFrames > 0.0 && Timed(transitions)
    ensures |r| == |transitions|
    ensures forall i :: 0 <= i < |transitions| ==>
              r[i] == StyleCallFor(transitions[i], frame, transitionDelayInFrames, durationInFrames, ease)
  {
    if transitions == [] then []
    else
      [StyleCallFor(transitions[0], frame, transitionDelayInFrames, durationInFrames, ease)]
      + StyleCalls(transitions[1..], frame, transitionDelayInFrames, durationInFrames, ease)
  }

  /** Running one more transition appends one more call. */
  lemma {:induction false} StyleCallsSnoc(transitions: seq<Transition>, t: Transition, frame: nat,
                                          transitionDelayInFrames: real, durationInFrames: real, ease: real -> real)
    requires durationInFrames > 0.0 && Timed(transitions) && t.options.duration > 0.0
    ensures Timed(transitions + [t])
    ensures StyleCalls(transitions + [t], frame, transitionDelayInFrames, durationInFrames, ease)
         == StyleCalls(transitions, frame, transitionDelayInFrames, durationInFrames, ease)
            + [StyleCallFor(t, frame, transitionDelayInFrames, durationInFrames, ease)]
  {
    if transitions != [] {
      assert (transitions + [t])[1..] == transitions[1..] + [t];
      StyleCallsSnoc(transitions[1..], t, frame, transitionDelayInFrames, durationInFrames, ease);
    }
  }

  /** Each call is aimed at its own transition's element and carries a
      linear progress in [0, 1]; with an easing that keeps [0, 1] inside
      itself, the eased progress is in [0, 1] too. */
  lemma StyleCallsTargetTheirElements(transitions: seq<Transition>, frame: nat, transitionDelayInFrames: real,
                                      durationInFrames: real, ease: real -> real, i: nat)
    requires durationInFrames > 0.0 && Timed(transitions) && i < |transitions|
    ensures StyleCalls(transitions, frame, transitionDelayInFrames, durationInFrames, ease)[i].element
            == transitions[i].element
    ensures 0.0 <= StyleCalls(transitions, frame, transitionDelayInFrames, durationInFrames, ease)[i].linearProgress <= 1.0
    ensures (forall x :: 0.0 <= x <= 1.0 ==> 0.0 <= ease(x) <= 1.0) ==>
              0.0 <= StyleCalls(transitions, frame, transitionDelayInFrames, durationInFrames, ease)[i].progress <= 1.0
  {
  }

  /** Up to the start of the step's window, a transition that does not
      start early is at progress 0, and with an easing that fixes 0 the
      style applied is the start keyframe's. */
  lemma NotStartedBeforeDelay(t: Transition, frame: nat, transitionDelayInFrames: real, durationInFrames: real,
                              ease: real -> real)
    requires durationInFrames > 0.0 && t.options.duration > 0.0 && t.options.delay >= 0.0
    requires frame as real <= transitionDelayInFrames
    ensures StyleCallFor(t, frame, transitionDelayInFrames, durationInFrames, ease).linearProgress == 0.0
    ensures ease(0.0) == 0.0 ==> StyleCallFor(t, frame, transitionDelayInFrames, durationInFrames, ease).progress == 0.0
  {
  }

  /** Once the step's window has closed, every transition that fits inside
      it is at progress 1, and with an easing that fixes 1 the style applied
      is the end keyframe's. */
  lemma FinishedAfterWindow(t: Transition, frame: nat, transitionDelayInFrames: real, durationInFrames: real,
                            ease: real -> real)
    requires durationInFrames > 0.0
    requires 0.0 <= t.options.delay && 0.0 < t.options.duration && t.options.delay + t.options.duration <= 1.0
    requires frame as real >= transitionDelayInFrames + durationInFrames
    ensures StyleCallFor(t, frame, transitionDelayInFrames, durationInFrames, ease).linearProgress == 1.0
    ensures ease(1.0) == 1.0 ==> StyleCallFor(t, frame, transitionDelayInFrames, durationInFrames, ease).progress == 1.0
  {
    WindowInsideStep(transitionDelayInFrames, durationInFrames, t.options);
  }

  /** One mounted step. The props are fixed for the mount; the snapshot is
      state set once, `released` records that the render gate was opened,
      and `applied` logs the `applyStyle` calls in order. */
  class Scene {
    const oldCode: Option<HighlightedCode>
    const newCode: HighlightedCode
    const durationInFrames: real
    const transitionDelayInFrames: real

    var oldSnapshot: Option<Snapshot>
    var released: bool
    var applied: seq<StyleCall>

    /** The gate is opened only once a snapshot exists. */
    ghost predicate Valid()
      reads this
    {
      durationInFrames > 0.0 && (released ==> oldSnapshot.Some?)
    }

    /** Mounting: no snapshot yet, the render gate held (`delayRender`). */
    constructor (oldCode: Option<HighlightedCode>, newCode: HighlightedCode,
                 durationInFrames: real, transitionDelayInFrames: real)
      requires durationInFrames > 0.0
      ensures Valid()
      ensures this.oldCode == oldCode && this.newCode == newCode
      ensures this.durationInFrames == durationInFrames && this.transitionDelayInFrames == transitionDelayInFrames
      ensures oldSnapshot == None && !released && applied == []
    {
      this.oldCode := oldCode;
      this.newCode := newCode;
      this.durationInFrames := durationInFrames;
      this.transitionDelayInFrames := transitionDelayInFrames;
      oldSnapshot := None;
      released := false;
      applied := [];
    }

    /** The code rendered at `frame` in the current state. */
    function Code(frame: nat): (r: HighlightedCode)
      reads this
      ensures r == PrevCode(oldCode, newCode) || r == newCode
      ensures oldSnapshot.None? ==> r == PrevCode(oldCode, newCode)
      ensures oldSnapshot.Some? ==> (r == newCode <== frame as real >= transitionDelayInFrames)
      ensures oldSnapshot.Some? && frame as real < transitionDelayInFrames ==> r == PrevCode(oldCode, newCode)
    {
      CodeShown(oldSnapshot.Some?, frame, transitionDelayInFrames, PrevCode(oldCode, newCode), newCode)
    }

    /** The passive effect: take the snapshot if there is none. */
    method CaptureEffect(captured: Snapshot)
      requires Valid()
      modifies this
      ensures Valid()
      ensures old(oldSnapshot).None? ==> oldSnapshot == Some(captured)
      ensures old(oldSnapshot).Some? ==> oldSnapshot == old(oldSnapshot)
      ensures released == old(released) && applied == old(applied)
    {
      if oldSnapshot.None? {
        oldSnapshot := Some(captured);
      }
    }

    /** The layout effect run after every render at `frame`. `captured` is
        what the snapshot function reads from the rendered block, and
        `transitions` what the transition calculator returns for it. */
    method LayoutEffect(frame: nat, captured: Snapshot, transitions: seq<Transition>, ease: real -> real)
      requires Valid() && Timed(transitions)
      modifies this
      ensures Valid()
      ensures old(oldSnapshot).None? ==>
                oldSnapshot == Some(captured) && applied == old(applied) && released == old(released)
      ensures old(oldSnapshot).Some? ==> oldSnapshot == old(oldSnapshot)
      ensures old(oldSnapshot).Some? && (frame as real) < transitionDelayInFrames ==>
                applied == old(applied) && released == old(released)
      ensures old(oldSnapshot).Some? && (frame as real) >= transitionDelayInFrames ==>
                applied == old(applied) + StyleCalls(transitions, frame, transitionDelayInFrames, durationInFrames, ease)
                && released
    {
      if oldSnapshot.None? {
        oldSnapshot := Some(captured);
        return;
      }
      if (frame as real) < transitionDelayInFrames {
        return;
      }
      var i := 0;
      while i < |transitions|
        invariant 0 <= i <= |transitions|
        invariant Timed(transitions[..i])
        invariant applied == old(applied) + StyleCalls(transitions[..i], frame, transitionDelayInFrames, durationInFrames, ease)
        invariant oldSnapshot == old(oldSnapshot) && released == old(released)
      {
        var t := transitions[i];
        assert t in transitions;
        var delay := WindowStart(transitionDelayInFrames, durationInFrames, t.options);
        var duration := WindowLength(durationInFrames, t.options);
        var linearProgress := LinearProgress(frame as real, delay, duration);
        var progress := ease(linearProgress);
        assert StyleCall(t.element, t.keyframes, progress, linearProgress)
            == StyleCallFor(t, frame, transitionDelayInFrames, durationInFrames, ease);
        applied := applied + [StyleCall(t.element, t.keyframes, progress, linearProgress)];
        assert transitions[..i + 1] == transitions[..i] + [t];
        StyleCallsSnoc(transitions[..i], t, frame, transitionDelayInFrames, durationInFrames, ease);
        i := i + 1;
      }
      assert transitions[..i] == transitions;
      released := true;
    }
  }

  /** A first step played from its first frame: the mount captures the
      snapshot and keeps the gate closed, the next run applies every
      transition and opens the gate, and the new code is then shown. */
  method PlayFirstStep(newCode: HighlightedCode, captured: Snapshot, transitions: seq<Transition>,
                       ease: real -> real)
    requires Timed(transitions)
  {
    var scene := new Scene(None, newCode, 30.0, 0.0);
    assert scene.Code(0).tokens == [];
    scene.LayoutEffect(0, captured, transitions, ease);
    assert scene.oldSnapshot == Some(captured) && !scene.released && scene.applied == [];
    scene.LayoutEffect(0, captured, transitions, ease);
    assert scene.released && |scene.applied| == |transitions|;
    assert scene.Code(0) == newCode;
  }
}
