/** Thermal-comfort classification of a Predicted Mean Vote (PMV).

    The calculator page classifies a PMV twice: once to pick the advice text
    (`get_comfort_tips`) and once, inline, to pick the emoji and bar colour of
    the result. Both use the comfort band of ISO 7730 category B / ASHRAE 55:
    the closed interval [-0.5, 0.5]. PMV is modelled as an exact `real`.
 */
module ComfortCalc {

  /** Half-width of the comfortable PMV band. */
  const ComfortLimit: real := 0.5

  /** Advice texts of `get_comfort_tips`. */
  const ComfortableTip: string := "✅ The environment is thermally comfortable. No changes needed."
  const ColdTip: string := "❄️ It's too cold! Increase air temperature, reduce airspeed, or wear more clothing."
  const WarmTip: string := "🔥 It's too warm! Lower air temperature, increase airspeed, or wear lighter clothing."

  /** The three outcomes of the classification, ordered cold < comfortable < warm. */
  datatype Sensation = TooCold | Comfortable | TooWarm {

    /** The advice text the page shows for this outcome. */
    function Tip(): string {
      match this
      case Comfortable => ComfortableTip
      case TooCold => ColdTip
      case TooWarm => WarmTip
    }

    /** The emoji and colour that go with this outcome on the result panel. */
    function PanelBadge(): Badge {
      match this
      case TooCold => Badge("❄️", "blue")
      case Comfortable => Badge("✅", "green")
      case TooWarm => Badge("🔥", "red")
    }

    /** Position on the thermal scale: -1 cold, 0 comfortable, +1 warm. */
    function Rank(): int {
      match this
      case TooCold => -1
      case Comfortable => 0
      case TooWarm => 1
    }

    /** The outcome on the other side of neutral. */
    function Mirror(): Sensation {
      match this
      case TooCold => TooWarm
      case Comfortable => Comfortable
      case TooWarm => TooCold
    }

    /** The PMV values that belong to this outcome. */
    predicate Contains(pmv: real) {
      match this
      case TooCold => pmv < -ComfortLimit
      case Comfortable => -ComfortLimit <= pmv <= ComfortLimit
      case TooWarm => ComfortLimit < pmv
    }
  }

  /** Emoji and colour of the result header and the PMV bar. */
  datatype Badge = Badge(emoji: string, color: string)

  /** The decision of `get_comfort_tips`: comfortable band first (both ends
      included), then cold, and everything else warm. */
  function Classify(pmv: real): (s: Sensation)
    ensures s == Comfortable <==> -0.5 <= pmv <= 0.5
    ensures s == TooCold <==> pmv < -0.5
    ensures s == TooWarm <==> pmv > 0.5
  {
    if -ComfortLimit <= pmv <= ComfortLimit then Comfortable
    else if pmv < -ComfortLimit then TooCold
    else TooWarm
  }

  /** `get_comfort_tips`: the advice text for a PMV. */
  function ComfortTips(pmv: real): (tip: string)
    ensures tip == Comfortable.Tip() <==> -0.5 <= pmv <= 0.5
    ensures tip == TooCold.Tip() <==> pmv < -0.5
    ensures tip == TooWarm.Tip() <==> pmv > 0.5
  {
    TipsDistinct();
    Classify(pmv).Tip()
  }

  /** The inline emoji/colour choice of the result panel: cold first, then
      warm, and green for everything else. */
  function ResultBadge(pmv: real): (b: Badge)
    ensures b.color == "blue" <==> pmv < -0.5
    ensures b.color == "red" <==> pmv > 0.5
    ensures b.color == "green" <==> -0.5 <= pmv <= 0.5
    ensures b.emoji == "❄️" <==> b.color == "blue"
    ensures b.emoji == "🔥" <==> b.color == "red"
    ensures b.emoji == "✅" <==> b.color == "green"
  {
    if pmv < -ComfortLimit then Badge("❄️", "blue")
    else if pmv > ComfortLimit then Badge("🔥", "red")
    else Badge("✅", "green")
  }

  /** The three advice texts are pairwise different, so the text alone tells
      which outcome was chosen. */
  lemma TipsDistinct()
    ensures TooCold.Tip() != Comfortable.Tip()
    ensures TooCold.Tip() != TooWarm.Tip()
    ensures Comfortable.Tip() != TooWarm.Tip()
  {
  }

  /** The bands partition the real line: every PMV lies in exactly one of them,
      and it is the one `Classify` picks. */
  lemma ExactlyOneBand(pmv: real, s: Sensation)
    ensures s.Contains(pmv) <==> s == Classify(pmv)
  {
  }

  /** Both ends of the comfort band are comfortable. */
  lemma BandIsClosed()
    ensures ComfortTips(-0.5) == Comfortable.Tip()
    ensures ComfortTips(0.5) == Comfortable.Tip()
    ensures ResultBadge(-0.5) == Badge("✅", "green")
    ensures ResultBadge(0.5) == Badge("✅", "green")
  {
  }

  /** The advice text and the badge of the result panel never disagree: cold
      goes with blue, comfortable with green, warm with red. */
  lemma TipAndBadgeAgree(pmv: real)
    ensures ComfortTips(pmv) == TooCold.Tip() <==> ResultBadge(pmv) == TooCold.PanelBadge()
    ensures ComfortTips(pmv) == Comfortable.Tip() <==> ResultBadge(pmv) == Comfortable.PanelBadge()
    ensures ComfortTips(pmv) == TooWarm.Tip() <==> ResultBadge(pmv) == TooWarm.PanelBadge()
    ensures ResultBadge(pmv) == Classify(pmv).PanelBadge()
  {
  }

  /** A warmer vote never gets a colder classification. */
  lemma ClassifyMonotone(lo: real, hi: real)
    requires lo <= hi
    ensures Classify(lo).Rank() <= Classify(hi).Rank()
  {
  }

  /** Negating the vote swaps cold and warm and keeps comfortable. */
  lemma ClassifySymmetric(pmv: real)
    ensures Classify(-pmv) == Classify(pmv).Mirror()
    ensures ResultBadge(-pmv) == Classify(pmv).Mirror().PanelBadge()
  {
  }
}
