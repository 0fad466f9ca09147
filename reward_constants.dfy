/**
 * The static tables of lib/constants/rewards.ts: the five loyalty levels, the achievement
 * templates and the points awarded per event.
 */
module RewardConstants {
  import opened Wrappers
  import opened UserTypes

  /** The level table, in ascending order of level. */
  const Levels: seq<RewardLevel> := [
    RewardLevel(1, "Fan Débutant", 0, ["Accès aux promotions exclusives"], 0, "#6B7280"),
    RewardLevel(2, "Supporter", 500, ["5% de réduction", "Livraison gratuite dès 50€"], 5, "#10B981"),
    RewardLevel(3, "Fan Passionné", 1500, ["10% de réduction", "Accès anticipé aux nouveautés"], 10, "#3B82F6"),
    RewardLevel(4, "Collectionneur", 3000, ["15% de réduction", "Produits exclusifs", "Support prioritaire"], 15, "#8B5CF6"),
    RewardLevel(5, "Légende", 6000, ["20% de réduction", "Accès VIP", "Cadeaux personnalisés"], 20, "#F59E0B")
  ]

  /** An achievement without the per-user fields (id, progress, completed, completedAt). */
  datatype AchievementTemplate = AchievementTemplate(
    name: string,
    description: string,
    icon: string,
    target: int,
    reward: AchievementReward)

  const AchievementTemplates: seq<AchievementTemplate> := [
    AchievementTemplate("Premier Achat", "Effectuer votre première commande", "ShoppingBag", 1, AchievementReward(100, None)),
    AchievementTemplate("Fidèle Client", "Effectuer 10 commandes", "Heart", 10, AchievementReward(500, None)),
    AchievementTemplate("Gros Dépensier", "Dépenser plus de 500€", "CreditCard", 500, AchievementReward(1000, None)),
    AchievementTemplate("Collectionneur", "Acheter 50 maillots différents", "Trophy", 50, AchievementReward(2000, None)),
    AchievementTemplate("Parrain", "Parrainer 5 amis", "Users", 5, AchievementReward(750, None)),
    AchievementTemplate("Critique", "Laisser 20 avis produits", "Star", 20, AchievementReward(300, None)),
    AchievementTemplate("Assidu", "Se connecter 30 jours consécutifs", "Calendar", 30, AchievementReward(500, None))
  ]

  /** Points granted per event; `orderCompletion` is per euro spent. */
  datatype PointsRuleSet = PointsRuleSet(
    orderCompletion: int,
    reviewProduct: int,
    referralSuccess: int,
    dailyLogin: int,
    firstOrder: int,
    birthdayBonus: int,
    socialShare: int)

  const PointsRules := PointsRuleSet(
    orderCompletion := 10,
    reviewProduct := 25,
    referralSuccess := 200,
    dailyLogin := 5,
    firstOrder := 100,
    birthdayBonus := 500,
    socialShare := 15)

  /** Level thresholds rise strictly from one row to the next. */
  ghost predicate StrictlyIncreasingThresholds(levels: seq<RewardLevel>)
  {
    forall i, j :: 0 <= i < j < |levels| ==> levels[i].minPoints < levels[j].minPoints
  }

  /** The table rows are numbered 1, 2, ... in array order. */
  ghost predicate NumberedInOrder(levels: seq<RewardLevel>)
  {
    forall i :: 0 <= i < |levels| ==> levels[i].level == i + 1
  }

  /** Discounts never fall from one row to a later one and are valid percentages. */
  ghost predicate DiscountsMonotone(levels: seq<RewardLevel>)
  {
    && (forall i :: 0 <= i < |levels| ==> 0 <= levels[i].discount <= 100)
    && (forall i, j :: 0 <= i < j < |levels| ==> levels[i].discount <= levels[j].discount)
  }

  /** `points` lies in the band of row `i`: at or above its threshold and below the next row's. */
  ghost predicate InBand(levels: seq<RewardLevel>, i: int, points: int)
  {
    && 0 <= i < |levels|
    && levels[i].minPoints <= points
    && (i + 1 < |levels| ==> points < levels[i + 1].minPoints)
  }

  lemma LevelTableShape()
    ensures |Levels| == 5
    ensures NumberedInOrder(Levels)
    ensures Levels[0].minPoints == 0
    ensures StrictlyIncreasingThresholds(Levels)
    ensures DiscountsMonotone(Levels)
  {
  }

  /**
   * Every non-negative points total lies in exactly one band, so the level a total belongs to is
   * well defined.
   */
  lemma {:induction false} BandsPartition(points: int) returns (i: int)
    requires 0 <= points
    ensures InBand(Levels, i, points)
    ensures forall j :: InBand(Levels, j, points) ==> j == i
  {
    LevelTableShape();
    if points < 500 { i := 0; }
    else if points < 1500 { i := 1; }
    else if points < 3000 { i := 2; }
    else if points < 6000 { i := 3; }
    else { i := 4; }
  }

  lemma AchievementTemplatesWellFormed()
    ensures forall t :: t in AchievementTemplates ==> t.target > 0 && t.reward.points >= 0
  {
  }

  lemma PointsRulesPositive()
    ensures PointsRules.orderCompletion > 0 && PointsRules.reviewProduct > 0
    ensures PointsRules.referralSuccess > 0 && PointsRules.dailyLogin > 0
    ensures PointsRules.firstOrder > 0 && PointsRules.birthdayBonus > 0
    ensures PointsRules.socialShare > 0
    ensures PointsRules.referralSuccess == 200 && PointsRules.orderCompletion == 10
  {
  }
}
