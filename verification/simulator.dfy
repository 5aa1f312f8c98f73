/**
 The interactive state of the DV photo simulator: the head ratio set by the
 slider, the chosen background and skin-tone swatches and the guide-overlay
 toggle, the four user events that change them, and the readouts rendered
 from a state.

 Every head ratio the component can hold is `v / 100` for an integer slider
 value `v` (the initial 0.62 included), so the state keeps that integer
 percentage and the ratio is derived from it.
 */
module Simulator {
  import opened JsMath
  import opened Metrics
  import opened Geometry

  /** A colour swatch: its label (`name`) and its CSS colour value. */
  datatype Swatch = Swatch(name: string, color: string)

  const Backgrounds: seq<Swatch> := [
    Swatch("Studio White", "#f8fafc"),
    Swatch("Soft Gray", "#e2e8f0"),
    Swatch("Sky Cool", "#e0f2fe")
  ]

  const SkinTones: seq<Swatch> := [
    Swatch("Porcelain", "#f7d6c1"),
    Swatch("Warm Beige", "#f0b996"),
    Swatch("Golden", "#d89167"),
    Swatch("Copper", "#b1663c"),
    Swatch("Mahogany", "#80412b")
  ]

  /** Bounds of the head-height slider, in percent. */
  const SliderMin: int := 45
  const SliderMax: int := 75

  datatype State = State(
    headPercent: int,
    backgroundIndex: int,
    skinToneIndex: int,
    showGuides: bool)

  const Initial: State := State(62, 0, 2, true)

  /** The head ratio the component holds in state `s`. */
  function HeadRatio(s: State): real
  {
    RatioOfPercent(s.headPercent)
  }

  /** The memoised metrics: a function of the head ratio alone. */
  function MetricsOf(s: State): HeadMetrics
  {
    HeadMetricsOf(HeadRatio(s))
  }

  /** The slider is within its range and both swatch indices address their arrays. */
  predicate Valid(s: State)
  {
    && SliderMin <= s.headPercent <= SliderMax
    && 0 <= s.backgroundIndex < |Backgrounds|
    && 0 <= s.skinToneIndex < |SkinTones|
  }

  /** The user events the component handles. */
  datatype Event =
    | SlideTo(value: int)
    | PickBackground(index: int)
    | PickSkinTone(index: int)
    | ToggleGuides

  /**
   The events the page can produce: the range input reports only values
   between its min and max, and each swatch button is created by mapping over
   its own array, so it passes an index of that array.
   */
  predicate Enabled(e: Event)
  {
    match e
    case SlideTo(v) => SliderMin <= v <= SliderMax
    case PickBackground(i) => 0 <= i < |Backgrounds|
    case PickSkinTone(i) => 0 <= i < |SkinTones|
    case ToggleGuides => true
  }

  /**
   One event handler. Each handler stores what its event carries: the slider
   value, or the index of the swatch that was clicked. Enabled events keep the
   state valid; only the slider can change a metric, and after it the
   displayed percentage is the slider value again.
   */
  function Step(s: State, e: Event): (t: State)
    ensures Valid(s) && Enabled(e) ==> Valid(t)
    ensures !e.SlideTo? ==> MetricsOf(t) == MetricsOf(s)
    ensures e.SlideTo? ==> MetricsOf(t).percentage == e.value
    ensures e.SlideTo? ==> t.headPercent == e.value
    ensures e.PickBackground? ==> t.backgroundIndex == e.index
    ensures e.PickSkinTone? ==> t.skinToneIndex == e.index
  {
    match e
    case SlideTo(v) =>
      MetricsOfPercent(v);
      s.(headPercent := v)
    case PickBackground(i) => s.(backgroundIndex := i)
    case PickSkinTone(i) => s.(skinToneIndex := i)
    case ToggleGuides => s.(showGuides := !s.showGuides)
  }

  /** Each handler changes its own state field and nothing else. */
  lemma StepFrame(s: State, e: Event)
    ensures Step(s, e).headPercent != s.headPercent ==> e.SlideTo?
    ensures Step(s, e).backgroundIndex != s.backgroundIndex ==> e.PickBackground?
    ensures Step(s, e).skinToneIndex != s.skinToneIndex ==> e.PickSkinTone?
    ensures Step(s, e).showGuides != s.showGuides <==> e.ToggleGuides?
  {
  }

  /** Toggling the guides twice restores the state. */
  lemma ToggleTwice(s: State)
    ensures Step(Step(s, ToggleGuides), ToggleGuides) == s
    ensures Step(s, ToggleGuides) != s
  {
  }

  /** A session: the events handled one after another. */
  function Run(s: State, es: seq<Event>): State
    decreases |es|
  {
    if |es| == 0 then s else Run(Step(s, es[0]), es[1..])
  }

  lemma {:induction false} RunSnoc(s: State, es: seq<Event>, e: Event)
    ensures Run(s, es + [e]) == Step(Run(s, es), e)
    decreases |es|
  {
    if |es| == 0 {
      assert es + [e] == [e];
    } else {
      assert (es + [e])[1..] == es[1..] + [e];
      RunSnoc(Step(s, es[0]), es[1..], e);
    }
  }

  /** Every state reachable through events the page can produce is valid. */
  lemma {:induction false} RunPreservesValid(s: State, es: seq<Event>)
    requires Valid(s)
    requires forall i :: 0 <= i < |es| ==> Enabled(es[i])
    ensures Valid(Run(s, es))
    decreases |es|
  {
    if |es| > 0 {
      RunPreservesValid(Step(s, es[0]), es[1..]);
    }
  }

  /** The value of the last slider event in `es`, or `d` when there is none. */
  function LastSlide(es: seq<Event>, d: int): int
    decreases |es|
  {
    if |es| == 0 then d
    else if es[|es| - 1].SlideTo? then es[|es| - 1].value
    else LastSlide(es[..|es| - 1], d)
  }

  /** The number of guide toggles in `es`. */
  function CountToggles(es: seq<Event>): nat
    decreases |es|
  {
    if |es| == 0 then 0
    else CountToggles(es[..|es| - 1]) + (if es[|es| - 1].ToggleGuides? then 1 else 0)
  }

  /**
   After a session the head ratio is the one set by the last slider event,
   or the starting one when the slider was not moved.
   */
  lemma {:induction false} RunHeadPercent(s: State, es: seq<Event>)
    ensures Run(s, es).headPercent == LastSlide(es, s.headPercent)
    decreases |es|
  {
    if |es| > 0 {
      var init, e := es[..|es| - 1], es[|es| - 1];
      assert es == init + [e];
      RunSnoc(s, init, e);
      RunHeadPercent(s, init);
    }
  }

  /**
   Metrics isolation over a whole session: the metrics are those of the last
   slider value, whatever swatch picks and toggles came in between.
   */
  lemma RunMetrics(s: State, es: seq<Event>)
    ensures MetricsOf(Run(s, es)) == HeadMetricsOf(RatioOfPercent(LastSlide(es, s.headPercent)))
  {
    RunHeadPercent(s, es);
  }

  /** The guides are flipped once per toggle and by nothing else. */
  lemma {:induction false} RunGuides(s: State, es: seq<Event>)
    ensures Run(s, es).showGuides == (s.showGuides != (CountToggles(es) % 2 == 1))
    decreases |es|
  {
    if |es| > 0 {
      var init, e := es[..|es| - 1], es[|es| - 1];
      assert es == init + [e];
      RunSnoc(s, init, e);
      RunGuides(s, init);
    }
  }

  /** The guide overlay: hidden, or the eye, crown and chin lines. */
  datatype GuideOverlay =
    | Hidden
    | Shown(eyeLineY: real, crownLineY: int, chinLineY: int)

  /** What a state renders: the numeric readouts, the colours and the overlay. */
  datatype View = View(
    percentText: int,
    passStyle: bool,
    sliderValue: int,
    pixelsText: int,
    eyeLevelText: int,
    backgroundLabel: string,
    canvasFill: string,
    skinFill: string,
    warning: bool,
    guides: GuideOverlay,
    backgroundPressed: seq<bool>,
    skinPressed: seq<bool>,
    guidesPressed: bool,
    headCenterY: real,
    headRadius: real)

  /**
   The rendered readouts of a valid state. The percentage text and the slider
   show the state's own percentage, the eye-level readout and the drawn eye
   line follow their integer and real formulas, the label and fills are those
   of the selected swatches, the warning appears exactly outside the 50%-69% band, the
   chin guide sits at the bottom of the head but never below y = 560, and
   exactly the selected swatch of each group is pressed; the guide toggle
   reads pressed exactly while the guides are drawn; the head circle has
   radius 3p and touches the crown line.
   */
  function Render(s: State): (v: View)
    requires Valid(s)
    ensures v.sliderValue == s.headPercent && v.percentText == s.headPercent
    ensures v.eyeLevelText == (12050 + 372 * s.headPercent) / 100
    ensures v.backgroundLabel == Backgrounds[s.backgroundIndex].name
    ensures v.canvasFill == Backgrounds[s.backgroundIndex].color
    ensures v.skinFill == SkinTones[s.skinToneIndex].color
    ensures v.guides.Shown? ==> v.guides.eyeLineY == 120.0 + 1.92 * s.headPercent as real
    ensures v.warning <==> !(50 <= s.headPercent <= 69)
    ensures v.passStyle <==> !v.warning
    ensures v.pixelsText == 6 * s.headPercent
    ensures v.guides.Shown? <==> s.showGuides
    ensures v.guides.Shown? ==> v.guides.chinLineY == Min(CrownY + 6 * s.headPercent, 560)
    ensures v.guides.Shown? ==> v.guides.crownLineY < v.guides.chinLineY <= 560
    ensures |v.backgroundPressed| == |Backgrounds| && |v.skinPressed| == |SkinTones|
    ensures forall i :: 0 <= i < |Backgrounds| ==> (v.backgroundPressed[i] <==> i == s.backgroundIndex)
    ensures forall i :: 0 <= i < |SkinTones| ==> (v.skinPressed[i] <==> i == s.skinToneIndex)
    ensures v.guidesPressed <==> v.guides.Shown?
    ensures v.headCenterY == (CrownY + 3 * s.headPercent) as real
    ensures v.headRadius == (3 * s.headPercent) as real
    ensures v.headCenterY - v.headRadius == CrownY as real
  {
    MetricsOfPercent(s.headPercent);
    FigureOfPercent(s.headPercent);
    var m := MetricsOf(s);
    var fig := FigureOf(HeadRatio(s));
    View(
      m.percentage,
      m.compliant,
      m.percentage,
      m.pixels,
      m.eyeLevelPx,
      Backgrounds[s.backgroundIndex].name,
      Backgrounds[s.backgroundIndex].color,
      SkinTones[s.skinToneIndex].color,
      !m.compliant,
      if s.showGuides then Shown(fig.eyeLevelY, CrownY, FrameSize - m.chinHeightPx) else Hidden,
      seq(|Backgrounds|, i => s.backgroundIndex == i),
      seq(|SkinTones|, i => s.skinToneIndex == i),
      s.showGuides,
      fig.headCenterY,
      fig.headRadius)
  }

  /**
   The opening state: ratio 0.62, valid, showing 62%, a 372-pixel head, eye
   level 351, compliant, chin height 108 and no warning.
   */
  lemma InitialScenario()
    ensures HeadRatio(Initial) == 0.62
    ensures Valid(Initial)
    ensures MetricsOf(Initial) == HeadMetrics(62, 372, true, 351, 108)
    ensures !Render(Initial).warning
  {
    MetricsOfPercent(62);
  }
}
