/** How the composition lays its steps out on the frame timeline
    (src/Main.tsx): one sequence per step, all of the same length, each
    holding a code transition from the previous step's code and, when one
    was loaded, that step's narration audio. */
module Timeline {
  import opened Wrappers
  import opened CodeTransition
  import opened GetFiles

  /** The theme's colours; only the background is read here. */
  datatype ThemeColors = ThemeColors(background: string)

  /** One `Series.Sequence` of the composition and what it holds. */
  datatype Sequence = Sequence(
    key: nat,
    name: string,
    durationInFrames: nat,
    oldCode: Option<HighlightedCode>,
    newCode: HighlightedCode,
    transitionDurationInFrames: nat,
    transitionDelayInFrames: nat,
    audioSrc: Option<string>)

  /** The transition window every step gets, in frames. */
  const TransitionDuration: nat := 30

  const StepsNotDefined: string := "Steps are not defined"
  const ThemeColorsNotDefined: string := "Theme colors are not defined"

  function DigitChar(d: nat): char
    requires d < 10
  {
    "0123456789"[d]
  }

  /** The decimal digits of `n`, as a template literal prints it. */
  function Decimal(n: nat): (s: string)
    ensures |s| >= 1
  {
    if n < 10 then [DigitChar(n)] else Decimal(n / 10) + [DigitChar(n % 10)]
  }

  predicate AllDigits(s: string)
  {
    forall i :: 0 <= i < |s| ==> '0' <= s[i] <= '9'
  }

  /** The number a string of decimal digits denotes. */
  function DigitsValue(s: string): nat
    requires AllDigits(s)
  {
    if s == [] then 0 else DigitsValue(s[..|s| - 1]) * 10 + (s[|s| - 1] - '0') as nat
  }

  /** A step's name carries its index: reading the digits back gives it. */
  lemma {:induction false} DecimalRoundTrip(n: nat)
    ensures AllDigits(Decimal(n)) && DigitsValue(Decimal(n)) == n
  {
    var s := Decimal(n);
    if n >= 10 {
      DecimalRoundTrip(n / 10);
      assert s[..|s| - 1] == Decimal(n / 10);
    }
  }

  /** `meta || 'Unknown'`: an empty meta string is falsy. */
  function MetaLabel(meta: string): (r: string)
    ensures r != ""
    ensures meta != "" ==> r == meta
    ensures meta == "" ==> r == "Unknown"
  {
    if meta == "" then "Unknown" else meta
  }

  /** The audio attached to step `index`: its source when `audios[index]`
      exists and its `audioSrc` is a non-empty (truthy) string. */
  function AudioFor(audios: seq<AudioWithStory>, index: nat): (r: Option<string>)
    ensures r.Some? <==> index < |audios| && audios[index].audioSrc != ""
    ensures r.Some? ==> r.value == audios[index].audioSrc
  {
    if index < |audios| && audios[index].audioSrc != "" then Some(audios[index].audioSrc) else None
  }

  /** The sequence built for step `index`. */
  function StepSequence(steps: seq<HighlightedCode>, index: nat, durationInFrames: nat,
                        audios: seq<AudioWithStory>): (r: Sequence)
    requires index < |steps|
    ensures r.key == index && r.durationInFrames == durationInFrames / |steps|
    ensures r.newCode == steps[index]
    ensures r.oldCode == if index == 0 then None else Some(steps[index - 1])
    ensures r.transitionDurationInFrames == 30 && r.transitionDelayInFrames == 0
    ensures r.audioSrc.Some? <==> index < |audios| && audios[index].audioSrc != ""
  {
    var stepDuration := durationInFrames / |steps|;
    Sequence(
      index,
      "Step " + Decimal(index) + ": " + MetaLabel(steps[index].meta),
      stepDuration,
      if index == 0 then None else Some(steps[index - 1]),
      steps[index],
      TransitionDuration,
      0,
      AudioFor(audios, index))
  }

  /** `Main`: the missing steps are reported before the missing theme;
      otherwise one sequence per step, in step order, each lasting the
      floor of the composition's duration over the number of steps,
      wiring the previous step's code to this step's, with the fixed
      transition window and the step's audio when there is one. */
  function Plan(steps: Option<seq<HighlightedCode>>, themeColors: Option<ThemeColors>,
                durationInFrames: nat, audios: seq<AudioWithStory>): (r: Result<seq<Sequence>, string>)
    ensures steps.None? ==> r == Err(StepsNotDefined)
    ensures steps.Some? && themeColors.None? ==> r == Err(ThemeColorsNotDefined)
    ensures r.Ok? <==> steps.Some? && themeColors.Some?
    ensures r.Ok? ==> |r.value| == |steps.value|
    ensures r.Ok? ==> forall i :: 0 <= i < |r.value| ==>
              r.value[i] == StepSequence(steps.value, i, durationInFrames, audios)
  {
    if steps.None? then Err(StepsNotDefined)
    else
      var steps := steps.value;
      if themeColors.None? then Err(ThemeColorsNotDefined)
      else
        var plan := seq(|steps|, i requires 0 <= i < |steps| => StepSequence(steps, i, durationInFrames, audios));
        assert forall i :: 0 <= i < |steps| ==> plan[i] == StepSequence(steps, i, durationInFrames, audios);
        Ok(plan)
  }

  /** Step `index` of a plan: keyed by its index, lasting the step length,
      showing the transition from the previous step's code (none for the
      first step) to its own within the fixed window, with its audio
      exactly when one was loaded for it. */
  lemma PlanStep(steps: Option<seq<HighlightedCode>>, themeColors: Option<ThemeColors>,
                 durationInFrames: nat, audios: seq<AudioWithStory>, index: nat)
    requires Plan(steps, themeColors, durationInFrames, audios).Ok?
    requires index < |Plan(steps, themeColors, durationInFrames, audios).value|
    ensures var s := Plan(steps, themeColors, durationInFrames, audios).value[index];
      && s.key == index
      && s.name == "Step " + Decimal(index) + ": " + MetaLabel(steps.value[index].meta)
      && s.durationInFrames == durationInFrames / |steps.value|
      && s.newCode == steps.value[index]
      && (index == 0 ==> s.oldCode == None)
      && (index > 0 ==> s.oldCode == Some(steps.value[index - 1]))
      && s.transitionDurationInFrames == 30
      && s.transitionDelayInFrames == 0
      && (s.audioSrc.Some? <==> index < |audios| && audios[index].audioSrc != "")
      && (s.audioSrc.Some? ==> s.audioSrc.value == audios[index].audioSrc)
  {
  }

  /** A step lasts the floor of the composition's duration over the number
      of steps: the most frames that fit that many times. */
  lemma StepDurationIsFloor(durationInFrames: nat, stepCount: nat)
    requires stepCount > 0
    ensures (durationInFrames / stepCount) * stepCount <= durationInFrames
    ensures durationInFrames < (durationInFrames / stepCount + 1) * stepCount
  {
  }

  /** The frames taken by `sequences` played back to back. */
  function TotalFrames(sequences: seq<Sequence>): nat
  {
    if sequences == [] then 0 else sequences[0].durationInFrames + TotalFrames(sequences[1..])
  }

  /** The first frame of the `index`-th sequence. */
  function StartFrame(sequences: seq<Sequence>, index: nat): nat
    requires index <= |sequences|
  {
    TotalFrames(sequences[..index])
  }

  /** Sequences of one length `d` take `d` frames each. */
  lemma {:induction false} TotalOfEqualLengths(sequences: seq<Sequence>, d: nat)
    requires forall i :: 0 <= i < |sequences| ==> sequences[i].durationInFrames == d
    ensures TotalFrames(sequences) == |sequences| * d
  {
    if sequences != [] {
      TotalOfEqualLengths(sequences[1..], d);
    }
  }

  /** All sequences of a plan have one length, and together they never
      run past the end of the composition. */
  lemma PlanFitsDuration(steps: Option<seq<HighlightedCode>>, themeColors: Option<ThemeColors>,
                         durationInFrames: nat, audios: seq<AudioWithStory>)
    requires Plan(steps, themeColors, durationInFrames, audios).Ok?
    ensures var plan := Plan(steps, themeColors, durationInFrames, audios).value;
      && (forall i, j :: 0 <= i < |plan| && 0 <= j < |plan| ==> plan[i].durationInFrames == plan[j].durationInFrames)
      && TotalFrames(plan) <= durationInFrames
  {
    var plan := Plan(steps, themeColors, durationInFrames, audios).value;
    if plan != [] {
      var n := |steps.value|;
      var d := durationInFrames / n;
      TotalOfEqualLengths(plan, d);
      StepDurationIsFloor(durationInFrames, n);
      assert n * d == d * n;
    }
  }

  lemma MonotoneProduct(a: nat, b: nat, d: nat)
    requires a <= b
    ensures a * d <= b * d
  {
  }

  /** Step `index` starts `index` step-lengths in and ends inside the composition. */
  lemma PlanStartFrames(steps: Option<seq<HighlightedCode>>, themeColors: Option<ThemeColors>,
                        durationInFrames: nat, audios: seq<AudioWithStory>, index: nat)
    requires Plan(steps, themeColors, durationInFrames, audios).Ok?
    requires index < |Plan(steps, themeColors, durationInFrames, audios).value|
    ensures var plan := Plan(steps, themeColors, durationInFrames, audios).value;
      && StartFrame(plan, index) == index * (durationInFrames / |plan|)
      && StartFrame(plan, index) + plan[index].durationInFrames <= durationInFrames
  {
    var plan := Plan(steps, themeColors, durationInFrames, audios).value;
    var n := |plan|;
    var d := durationInFrames / n;
    TotalOfEqualLengths(plan[..index], d);
    StepDurationIsFloor(durationInFrames, n);
    MonotoneProduct(index + 1, n, d);
    assert index * d + d == (index + 1) * d;
  }
}
