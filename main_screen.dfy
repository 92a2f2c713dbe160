/**
 * The home screen: which feature cards are shown for the enabled views, how
 * they are laid out, and the call to action beneath them.
 */
module MainScreen {
  import opened Wrappers

  /** The feature cards, in the order they are rendered. */
  datatype Card = FindServicesCard | OfferSkillsCard | RateReviewCard | SecurePaymentsCard

  /** The cards rendered: each view adds its card, the last two are always there. */
  function FeatureCards(showAsEmployer: bool, showAsProvider: bool): (cards: seq<Card>)
    ensures FindServicesCard in cards <==> showAsEmployer
    ensures OfferSkillsCard in cards <==> showAsProvider
    ensures |cards| >= 2 && cards[|cards| - 2] == RateReviewCard && cards[|cards| - 1] == SecurePaymentsCard
  {
    if showAsEmployer && showAsProvider then [FindServicesCard, OfferSkillsCard, RateReviewCard, SecurePaymentsCard]
    else if showAsEmployer then [FindServicesCard, RateReviewCard, SecurePaymentsCard]
    else if showAsProvider then [OfferSkillsCard, RateReviewCard, SecurePaymentsCard]
    else [RateReviewCard, SecurePaymentsCard]
  }

  /** `visibleCardsCount`. */
  function VisibleCardsCount(showAsEmployer: bool, showAsProvider: bool): (n: nat)
    ensures 2 <= n <= 4
  {
    (if showAsEmployer then 1 else 0) + (if showAsProvider then 1 else 0) + 2
  }

  /** The count the layout is computed from is the number of cards rendered. */
  lemma CountMatchesCards(showAsEmployer: bool, showAsProvider: bool)
    ensures VisibleCardsCount(showAsEmployer, showAsProvider) == |FeatureCards(showAsEmployer, showAsProvider)|
  {
  }

  datatype Layout = Layout(cardWidth: string, isVertical: bool)

  /** The width chosen from the card count alone, before the one-view override. */
  function LayoutByCount(count: nat): Layout {
    if count == 2 then Layout("100%", true)
    else if count == 3 then Layout("48%", false)
    else Layout("48%", false)
  }

  /** The layout after the override that stacks the cards when exactly one view is enabled. */
  function CardLayout(showAsEmployer: bool, showAsProvider: bool): (layout: Layout)
    ensures layout.isVertical <==> layout.cardWidth == "100%"
  {
    var byCount := LayoutByCount(VisibleCardsCount(showAsEmployer, showAsProvider));
    var onlyOne := (showAsEmployer && !showAsProvider) || (!showAsEmployer && showAsProvider);
    if onlyOne then Layout("100%", true) else byCount
  }

  /**
   * The three layouts that can occur: both views give a 2x2 grid, exactly one
   * view or none gives a full-width column.
   */
  lemma LayoutCases(showAsEmployer: bool, showAsProvider: bool)
    ensures showAsEmployer && showAsProvider ==>
      |FeatureCards(showAsEmployer, showAsProvider)| == 4 && CardLayout(showAsEmployer, showAsProvider) == Layout("48%", false)
    ensures showAsEmployer != showAsProvider ==>
      |FeatureCards(showAsEmployer, showAsProvider)| == 3 && CardLayout(showAsEmployer, showAsProvider) == Layout("100%", true)
    ensures !showAsEmployer && !showAsProvider ==>
      |FeatureCards(showAsEmployer, showAsProvider)| == 2 && CardLayout(showAsEmployer, showAsProvider) == Layout("100%", true)
  {
  }

  /** The three-card grid branch is always overridden: three cards are never laid out in a grid. */
  lemma ThreeCardGridNeverShown(showAsEmployer: bool, showAsProvider: bool)
    requires VisibleCardsCount(showAsEmployer, showAsProvider) == 3
    ensures CardLayout(showAsEmployer, showAsProvider) != LayoutByCount(3)
  {
  }

  /** The call-to-action text. */
  function CtaText(showAsEmployer: bool, showAsProvider: bool): (text: string)
    ensures text == "Browse services or create your profile to begin" <==> showAsEmployer && showAsProvider
    ensures text == "Browse services to find skilled professionals" <==> showAsEmployer && !showAsProvider
    ensures text == "Create your profile to start offering services" <==> !showAsEmployer
  {
    if showAsEmployer && showAsProvider then "Browse services or create your profile to begin"
    else if showAsEmployer then "Browse services to find skilled professionals"
    else "Create your profile to start offering services"
  }

  /** The call-to-action button, if any. */
  function CtaButton(showAsEmployer: bool, showAsProvider: bool): (button: Option<string>)
    ensures button == Some("Find Services") <==> showAsEmployer
    ensures button == Some("Offer Skills") <==> showAsProvider && !showAsEmployer
    ensures button == None <==> !showAsEmployer && !showAsProvider
  {
    if showAsEmployer then Some("Find Services")
    else if showAsProvider then Some("Offer Skills")
    else None
  }

  /** The button, when there is one, leads to a feature whose card is also shown. */
  lemma CtaButtonHasCard(showAsEmployer: bool, showAsProvider: bool)
    ensures CtaButton(showAsEmployer, showAsProvider) == Some("Find Services") ==>
      FindServicesCard in FeatureCards(showAsEmployer, showAsProvider)
    ensures CtaButton(showAsEmployer, showAsProvider) == Some("Offer Skills") ==>
      OfferSkillsCard in FeatureCards(showAsEmployer, showAsProvider)
  {
  }
}
