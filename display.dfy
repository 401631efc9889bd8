/**
 * Icons and summary faces chosen from a colour, shared by the status screens
 * (the `get*Source` / `get*Icon` functions and the `Summary` component).
 */
module Display {
  import opened Colors
  import opened Thresholds

  /** The four variants each metric icon comes in (Red, Orange, Dark, Light). */
  datatype Variant = RedIcon | OrangeIcon | DarkIcon | LightIcon

  datatype Icon = Icon(metric: Metric, variant: Variant)

  /** The three smiley faces. */
  datatype Face = ActNow | PayAttention | GoodJob

  /**
   * Red and orange select fixed icons; only any other colour falls back to
   * the icon of the current theme.
   */
  function MetricIcon(m: Metric, c: Color, dark: bool): (i: Icon)
    ensures i.metric == m
    ensures i.variant == RedIcon <==> c == Red
    ensures i.variant == OrangeIcon <==> c == Orange
    ensures c != Red && c != Orange ==> i.variant == (if dark then DarkIcon else LightIcon)
  {
    if c == Red then Icon(m, RedIcon)
    else if c == Orange then Icon(m, OrangeIcon)
    else if dark then Icon(m, DarkIcon)
    else Icon(m, LightIcon)
  }

  /** `getSummaryText` of the Summary component. */
  function SummaryText(c: Color): (s: string)
    ensures s == "Act Now" <==> c == Red
    ensures s == "Pay Attention" <==> c == Orange
    ensures s == "Good Job" <==> c != Red && c != Orange
  {
    if c == Red then "Act Now"
    else if c == Orange then "Pay Attention"
    else "Good Job"
  }

  /** `getSummarySource` of the Summary component. */
  function SummaryFace(c: Color): (f: Face)
    ensures f == ActNow <==> c == Red
    ensures f == PayAttention <==> c == Orange
    ensures f == GoodJob <==> c != Red && c != Orange
  {
    if c == Red then ActNow
    else if c == Orange then PayAttention
    else GoodJob
  }

  /** Text and face of a summary always agree. */
  lemma SummaryLockstep(c: Color)
    ensures SummaryText(c) == "Act Now" <==> SummaryFace(c) == ActNow
    ensures SummaryText(c) == "Pay Attention" <==> SummaryFace(c) == PayAttention
    ensures SummaryText(c) == "Good Job" <==> SummaryFace(c) == GoodJob
  {
  }
}
