/**
 * What the job worker records on each progress event from the encoder
 * (app/api/process-video/route.ts, lines 130-150): the engine's percentage,
 * rounded and capped, and a phase message chosen from it.
 */
module Progress {
  import opened Wrappers

  /** `Math.round`: the nearest integer, halves rounded up. */
  function Round(x: real): (r: int)
    ensures r as real - 0.5 <= x < r as real + 0.5
  {
    (x + 0.5).Floor
  }

  /**
   * `Math.min(Math.round(progress.percent || 0), 99)`. `None` is a percent
   * that is missing or NaN, which `|| 0` replaces by 0. Only the upper end is
   * capped: a negative percentage stays negative.
   */
  function ReportedPercent(percent: Option<real>): (p: int)
    ensures p <= 99
    ensures percent.None? ==> p == 0
    ensures percent.Some? ==> (p == 99 <==> percent.value >= 98.5)
    ensures percent.Some? && p < 99 ==> p as real - 0.5 <= percent.value < p as real + 0.5
  {
    var r := Round(percent.GetOr(0.0));
    if r < 99 then r else 99
  }

  /** The stage of work the message announces. */
  datatype Phase = Upscaling | Starting | Contrast | Sharpening | Smoothing | Finalizing

  /** The phase for a recorded percentage, by fixed thresholds of 20, 40, 60 and 80. */
  function PhaseOf(percent: int, useAI: bool): Phase {
    if percent < 20 then (if useAI then Upscaling else Starting)
    else if percent < 40 then Contrast
    else if percent < 60 then Sharpening
    else if percent < 80 then Smoothing
    else Finalizing
  }

  /** Which fifth of the work a phase stands for; the two opening phases share the first. */
  function Band(ph: Phase): nat {
    match ph
    case Upscaling => 0
    case Starting => 0
    case Contrast => 1
    case Sharpening => 2
    case Smoothing => 3
    case Finalizing => 4
  }

  const StartingMessage := "Iniciando processamento..."

  function Message(ph: Phase): string {
    match ph
    case Upscaling => "Aplicando upscaling com IA..."
    case Starting => StartingMessage
    case Contrast => "Melhorando contraste e cores..."
    case Sharpening => "Aplicando filtro de nitidez..."
    case Smoothing => "Aplicando suavização..."
    case Finalizing => "Comprimindo e finalizando..."
  }

  /**
   * The phase is the percentage's band of twenty, the last band open-ended and
   * everything below 20 (negative values included) in the first; within the
   * first band the AI switch alone picks the message.
   */
  lemma PhaseIsBandOfTwenty(percent: int, useAI: bool)
    ensures Band(PhaseOf(percent, useAI)) == if percent < 0 then 0 else if percent / 20 < 4 then percent / 20 else 4
    ensures Band(PhaseOf(percent, useAI)) == 0 ==> (PhaseOf(percent, useAI) == Upscaling <==> useAI)
  {
  }

  /** A larger percentage never announces an earlier phase. */
  lemma PhaseMonotone(p: int, q: int, useAI: bool)
    requires p <= q
    ensures Band(PhaseOf(p, useAI)) <= Band(PhaseOf(q, useAI))
  {
    PhaseIsBandOfTwenty(p, useAI);
    PhaseIsBandOfTwenty(q, useAI);
  }

  /** Each phase has its own message. */
  lemma MessagesDistinct(ph: Phase, other: Phase)
    requires ph != other
    ensures Message(ph) != Message(other)
  {
  }

  /** The finalizing message appears exactly from an engine percentage of 79.5 on. */
  lemma FinalizingFrom(x: real, useAI: bool)
    ensures PhaseOf(ReportedPercent(Some(x)), useAI) == Finalizing <==> x >= 79.5
  {
  }

  /**
   * Below the cap the recorded percent is the rounded engine percent, with no
   * lower clamp: anything below -0.5 is recorded as a negative number.
   */
  lemma NoLowerClamp()
    ensures forall x :: x < 98.5 ==> ReportedPercent(Some(x)) == Round(x)
    ensures forall x :: x < -0.5 ==> ReportedPercent(Some(x)) < 0
    ensures ReportedPercent(Some(-3.0)) == -3
  {
  }
}
