/**
 * The records of lib/types/user.ts that the rewards engine and the admin gift-card page use.
 * Dates are integer milliseconds since the epoch; JavaScript numbers holding points, streaks and
 * amounts are unbounded integers.
 */
module UserTypes {
  import opened Wrappers

  datatype Rarity = Common | Rare | Epic | Legendary

  datatype Badge = Badge(
    id: string,
    name: string,
    description: string,
    icon: string,
    color: string,
    unlockedAt: int,
    rarity: Rarity)

  datatype AchievementReward = AchievementReward(points: int, badge: Option<Badge>)

  datatype Achievement = Achievement(
    id: string,
    name: string,
    description: string,
    icon: string,
    progress: int,
    target: int,
    completed: bool,
    completedAt: Option<int>,
    reward: AchievementReward)

  datatype Streaks = Streaks(
    currentLoginStreak: int,
    longestLoginStreak: int,
    lastLoginDate: Option<int>)

  datatype Referrals = Referrals(code: string, referredUsers: seq<string>, totalEarned: int)

  /** The whole loyalty record of one user; the rewards store holds exactly one of these. */
  datatype UserRewards = UserRewards(
    points: int,
    level: int,
    totalSpent: int,
    totalOrders: int,
    badges: seq<Badge>,
    streaks: Streaks,
    achievements: seq<Achievement>,
    referrals: Referrals)

  /** One row of the level table; `discount` is a percentage. */
  datatype RewardLevel = RewardLevel(
    level: int,
    name: string,
    minPoints: int,
    benefits: seq<string>,
    discount: int,
    color: string)

  /** An amount in the three currencies the shop displays. */
  datatype Price = Price(xof: int, eur: int, usd: int)

  datatype GiftCardStatus = Active | Redeemed | Expired

  datatype GiftCard = GiftCard(
    id: string,
    code: string,
    amount: Price,
    recipientEmail: Option<string>,
    recipientName: Option<string>,
    message: Option<string>,
    issuedBy: string,
    redeemedBy: Option<string>,
    status: GiftCardStatus,
    expiresAt: int,
    createdAt: int,
    updatedAt: int)

  /** The status as the string the source stores and compares. */
  function StatusName(status: GiftCardStatus): (r: string)
  {
    match status
    case Active => "ACTIVE"
    case Redeemed => "REDEEMED"
    case Expired => "EXPIRED"
  }
}
