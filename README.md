# O-MAILLOT loyalty engine, cart and admin helpers in Dafny

This project models the parts of the O-MAILLOT jersey shop that carry state rules:

- the **rewards store** (`lib/store/rewards.ts`): one `UserRewards` record per user holding points, a
  level derived from the points, badges, achievements, login streaks and referral bookkeeping, changed
  by five actions (`addPoints`, `completeAchievement`, `unlockBadge`, `updateLoginStreak`,
  `addReferral`) and read through `getCurrentLevel` / `getNextLevel`;
- the **reward tables** (`lib/constants/rewards.ts`): the five levels with their point thresholds and
  discounts, the achievement templates and the points rules;
- the **cart store** (`lib/store/cart.ts`): cart lines keyed by product and size, with the quantity
  and total folds;
- the **admin gift-card page** (`app/admin/gift-cards/page.tsx`): the search/status filter, the
  summary statistics and the status labels;
- the **hero carousel** (`components/home/HeroSection.tsx`): the current slide index with
  wrap-around arrows, direct jumps and autoplay.

Stores are classes whose single field (`rewards`, `items`, `currentSlide`) the actions replace, as
the source's `set(...)` does; the expressions inside the actions (`reduce`, `map`, `filter`, `find`)
are functions. The level a points total resolves to is the source's `reduce` over the level table,
written as a left fold seeded with the first row; its meaning is proved separately (the last row
after the first whose threshold the total reaches, else the first row). Clock readings and random
values are parameters: `now` (milliseconds), the cart line's `stamp`, the referral code's random
suffix.

Files: `wrappers.dfy` (Option), `numbers.dfy` (Max), `sequences.dfy` (order-preserving subsequences),
`user_types.dfy` and `product_types.dfy` (the records of `lib/types`), `reward_constants.dfy`,
`rewards_store.dfy`, `cart_store.dfy`, `gift_cards_admin.dfy`, `hero_carousel.dfy`.

## Behaviour of the code worth knowing

- `addPoints` accepts any amount, zero and negative included; any total below 500, negative ones
  included, resolves to level 1.
- `unlockBadge` and `addReferral` append without a duplicate check; `addReferral` credits
  `totalEarned` but not `points`.
- `completeAchievement` grants no points, and a repeated call re-stamps `completedAt`.
- Nothing in the store changes `totalSpent`, `totalOrders` or an achievement's `progress`.

## Model

| member | source | states |
|---|---|---|
| `RewardConstants.LevelTableShape` | lib/constants/rewards.ts:3-44 | five rows numbered 1..5 in order, first threshold 0, thresholds strictly increasing, discounts within 0..100 and non-decreasing |
| `RewardConstants.BandsPartition` | lib/constants/rewards.ts:3-44 | every non-negative points total lies in exactly one band [minPoints_i, minPoints_i+1) (the last band unbounded) |
| `RewardConstants.AchievementTemplatesWellFormed` | lib/constants/rewards.ts:46-96 | every template has a positive target and a non-negative reward in points |
| `RewardConstants.PointsRulesPositive` | lib/constants/rewards.ts:98-106 | every points rule is positive; referral success is 200 and order completion 10 per euro |
| `RewardsStore.ReduceLevels` | lib/store/rewards.ts:43-45 | the fold yields its seed or a later row whose threshold the total reaches |
| `RewardsStore.ResolveLevel` | lib/store/rewards.ts:43-45 | the resolved row is a row of the level table, and it is the first row or one whose threshold the total reaches |
| `RewardsStore.ResolutionUnique` | lib/store/rewards.ts:43-45 | for any table, at most one row is "the last row after the first reached by the total, else the first" |
| `RewardsStore.ReduceLevelsFindsResolution` | lib/store/rewards.ts:43-45 | the reduce over any table yields exactly that row |
| `RewardsStore.ResolveLevelRow` | lib/store/rewards.ts:43-45 | on the level table the reduce yields row LevelNumberFor(points) - 1 |
| `RewardsStore.ResolveLevelBands` | lib/store/rewards.ts:43-45 | on the level table the reduce yields the row of the total's band: level 5 from 6000, 4 from 3000, 3 from 1500, 2 from 500, else 1 (negative totals too); its threshold is the largest one the total reaches |
| `RewardsStore.FindLevel` | lib/store/rewards.ts:120-128 | the `find` returns a row with the asked number, and nothing exactly when no row has it |
| `RewardsStore.FindLevelNumbered` | lib/store/rewards.ts:120-128 | in a consecutively numbered table, looking up n finds row n - first exactly when n is in range |
| `RewardsStore.FindLevelInTable` | lib/store/rewards.ts:120-128 | in the level table, number n finds row n - 1 for n in 1..5 and nothing otherwise |
| `RewardsStore.InitialRewards` | lib/store/rewards.ts:17-33 | the initial record has 0 points at level 1 (consistent), empty lists, zero streaks, no last login and a code starting "OMAILLOT"; totalSpent and totalOrders are 0 |
| `RewardsStore.MarkCompleted` | lib/store/rewards.ts:61-65 | same length; each achievement with the id becomes completed with completedAt = now, every other one is unchanged in place |
| `RewardsStore.MarkCompletedUnknownId` | lib/store/rewards.ts:57-68 | completing an id no achievement carries changes nothing |
| `RewardsStore.MarkCompletedRestamps` | lib/store/rewards.ts:57-68 | completing twice equals completing once at the second time: the stamp is overwritten |
| `RewardsStore.MarkCompletedKeepsCompleted` | lib/store/rewards.ts:57-68 | ids and order are kept and no completed achievement becomes uncompleted |
| `RewardsStore.IsConsecutive` | lib/store/rewards.ts:83-84 | a login continues the streak exactly when there is a previous login and it comes at most 24 hours (86 400 000 ms, boundary included) after it, earlier instants (clock set back) included |
| `RewardsStore.RewardsStore.constructor` | lib/store/rewards.ts:17-38 | the store starts from the initial record, with level consistent with points |
| `RewardsStore.RewardsStore.AddPoints` | lib/store/rewards.ts:40-55 | points become old + amount (any sign), level becomes the resolved level of the new total, nothing else changes; level/points consistency holds afterwards whatever it was before |
| `RewardsStore.RewardsStore.CompleteAchievement` | lib/store/rewards.ts:57-68 | only the achievements list changes, as MarkCompleted says; points and level are unchanged |
| `RewardsStore.RewardsStore.UnlockBadge` | lib/store/rewards.ts:70-77 | the badge is appended without a duplicate check: one more badge, earlier badges in place, nothing else changes |
| `RewardsStore.RewardsStore.UpdateLoginStreak` | lib/store/rewards.ts:79-105 | streak = old + 1 if the last login is set and now - last <= 86 400 000 ms (negative differences included), else 1; longest = max(old longest, new streak); last login = now; longest never decreases and is >= current |
| `RewardsStore.RewardsStore.AddReferral` | lib/store/rewards.ts:107-118 | the user id is appended even if present, totalEarned grows by exactly 200, points, level and code are unchanged |
| `RewardsStore.RewardsStore.GetCurrentLevel` | lib/store/rewards.ts:120-123 | the row numbered `level`, falling back to the first row; in a consistent store it is the row the points resolve to |
| `RewardsStore.RewardsStore.GetNextLevel` | lib/store/rewards.ts:125-128 | the row numbered `level + 1`, or nothing; in a consistent store nothing exactly at level 5, and otherwise a threshold above the current points |
| `CartStore.FindLine` | lib/store/cart.ts:22-24 | the index of the first line of the (product, size) pair, or nothing when no line has it |
| `CartStore.LineId` | lib/store/cart.ts:36 | the id is the product id, "-", the size, "-" and the stamp, each part stated at its position |
| `CartStore.LineIdsDiffer` | lib/store/cart.ts:36 | two lines of the same product and size added at different stamps get different ids |
| `CartStore.BumpQuantity` | lib/store/cart.ts:28-32 | same length; lines carrying the id get one more, others unchanged |
| `CartStore.BumpQuantityOneLine` | lib/store/cart.ts:26-33 | with distinct ids, bumping line k's id changes line k alone |
| `CartStore.BumpOneLineFolds` | lib/store/cart.ts:26-33 | with distinct ids, the item count grows by 1, the total by that line's stored price, and ids stay distinct |
| `CartStore.ReplaceOneMore` | lib/store/cart.ts:63-76 | one more on a line adds 1 to the count and the line's price to each currency's total |
| `CartStore.BumpKeepsInvariants` | lib/store/cart.ts:26-33 | bumping keeps pairs unique and quantities >= 1 |
| `CartStore.AppendNewKeepsInvariants` | lib/store/cart.ts:34-44 | appending a quantity-1 line for an absent pair keeps pairs unique and quantities >= 1; a fresh id keeps ids distinct |
| `CartStore.RemoveLines` | lib/store/cart.ts:47-49 | the result is an order-preserving subsequence holding exactly the lines whose id differs; an unknown id returns the list unchanged |
| `CartStore.RemoveLinesKeepsInvariants` | lib/store/cart.ts:47-49 | removal keeps pairs unique and quantities >= 1 |
| `CartStore.RemoveLinesKeepsIdsUnique` | lib/store/cart.ts:47-49 | removal keeps distinct ids distinct |
| `CartStore.SetQuantity` | lib/store/cart.ts:51-57 | same length; lines carrying the id get max(1, q), others unchanged |
| `CartStore.ItemCount` | lib/store/cart.ts:74-76 | with quantities >= 1 the count is at least the number of lines |
| `CartStore.Total` | lib/store/cart.ts:63-72 | the total of lines with quantities >= 1 and non-negative prices is non-negative in each currency |
| `CartStore.FoldsConcat` | lib/store/cart.ts:63-76 | the count and the total of a cart are those of its first lines plus those of the rest |
| `CartStore.FoldsAppend` | lib/store/cart.ts:63-76 | appending a line adds its quantity to the count and price x quantity to each currency's total |
| `CartStore.FoldsReplace` | lib/store/cart.ts:63-76 | replacing one line changes the count and each currency's total by exactly that line's difference |
| `CartStore.Cart.constructor` | lib/store/cart.ts:18 | the cart starts empty |
| `CartStore.Cart.AddItem` | lib/store/cart.ts:20-45 | an existing pair's line gets one more (only that line when ids are distinct), else a line with quantity 1 and the product's price is appended; pairs stay unique and quantities >= 1; with distinct ids the count grows by exactly 1 and the total by the line's price |
| `CartStore.Cart.RemoveItem` | lib/store/cart.ts:47-49 | the list becomes RemoveLines of the old one; the invariants hold, and distinct ids stay distinct |
| `CartStore.Cart.UpdateQuantity` | lib/store/cart.ts:51-57 | the list becomes SetQuantity of the old one; every quantity stays >= 1, and distinct ids stay distinct |
| `CartStore.Cart.ClearCart` | lib/store/cart.ts:59-61 | the cart is empty, its count is 0 and its total 0 in every currency |
| `GiftCardsAdmin.ContainsIffOccurs` | app/admin/gift-cards/page.tsx:114-116 | `includes` holds exactly when the query occurs at some position of the text |
| `GiftCardsAdmin.FilterCards` | app/admin/gift-cards/page.tsx:112-121 | the result is an order-preserving subsequence, and a card is in it iff its code, e-mail or name contains the query ignoring case and the filter is "all" or its status; each kept card appears as many times as in the input, every other card not at all |
| `GiftCardsAdmin.MatchesSearch` | app/admin/gift-cards/page.tsx:113-116 | a card matches exactly when the lower-cased query occurs in its lower-cased code, or in its e-mail or name when present; an empty search matches every card |
| `GiftCardsAdmin.MatchesStatus` | app/admin/gift-cards/page.tsx:118 | "all" keeps every card, and a filter that is none of "all", ACTIVE, REDEEMED, EXPIRED keeps none |
| `GiftCardsAdmin.StatusFilterSelects` | app/admin/gift-cards/page.tsx:118 | choosing a status in the select keeps a card exactly when it has that status |
| `GiftCardsAdmin.StatusFilterMatchesStats` | app/admin/gift-cards/page.tsx:112-165 | with an empty search, choosing a status shows the same cards in the same order as the statistics' filter for that status |
| `GiftCardsAdmin.EmptySearchKeepsAll` | app/admin/gift-cards/page.tsx:113-118 | empty query with filter "all" keeps the whole list |
| `GiftCardsAdmin.WithStatus` | app/admin/gift-cards/page.tsx:163-168 | an order-preserving subsequence holding exactly the cards with that status, each as many times as in the input |
| `GiftCardsAdmin.StatusCountsPartition` | app/admin/gift-cards/page.tsx:161-165 | active + redeemed + expired counts equal the number of cards |
| `GiftCardsAdmin.SumEur` | app/admin/gift-cards/page.tsx:166-169 | the EUR sum of cards with non-negative amounts is non-negative |
| `GiftCardsAdmin.SumEurAppend` | app/admin/gift-cards/page.tsx:166-169 | the sum splits over a concatenation, so the order in which the reduce adds does not change it |
| `GiftCardsAdmin.ActiveValueBounded` | app/admin/gift-cards/page.tsx:166-169 | with non-negative amounts, 0 <= active EUR value <= total EUR value |
| `GiftCardsAdmin.ComputeStats` | app/admin/gift-cards/page.tsx:161-170 | total is the list length; active, redeemed and expired are the numbers of cards with each status and add up to the total; totalValue is the EUR sum of all cards and activeValue that of the active ones, with active value <= total value for non-negative amounts |
| `GiftCardsAdmin.StatusLabel` | app/admin/gift-cards/page.tsx:136-147 | ACTIVE, REDEEMED, EXPIRED map to Active, Utilisée, Expirée; any other string is returned unchanged |
| `GiftCardsAdmin.StatusLabelsDistinct` | app/admin/gift-cards/page.tsx:136-147 | the three statuses get three different labels |
| `HeroCarousel.NextIndex` | components/home/HeroSection.tsx:36-38 | from an index in range, the next one is in range and equals (i + 1) mod the slide count |
| `HeroCarousel.PrevIndex` | components/home/HeroSection.tsx:40-42 | from an index in range, the previous one is in range and equals (i - 1) mod the slide count |
| `HeroCarousel.NextPrevInverse` | components/home/HeroSection.tsx:36-42 | previous after next, and next after previous, restore the index |
| `HeroCarousel.NextTimesShifts` | components/home/HeroSection.tsx:36-38 | k steps forward move the index to (i + k) mod the slide count |
| `HeroCarousel.FullCycle` | components/home/HeroSection.tsx:9-38 | three steps forward (one per slide) return to the starting slide |
| `HeroCarousel.Carousel.constructor` | components/home/HeroSection.tsx:34 | the carousel starts on slide 0 |
| `HeroCarousel.Carousel.NextSlide` | components/home/HeroSection.tsx:36-38 | the index becomes NextIndex of the old one and stays in range |
| `HeroCarousel.Carousel.PrevSlide` | components/home/HeroSection.tsx:40-42 | the index becomes PrevIndex of the old one and stays in range |
| `HeroCarousel.Carousel.GoToSlide` | components/home/HeroSection.tsx:113-123 | a dot click sets the index to the clicked slide, which is in range |
| `HeroCarousel.Carousel.Autoplay` | components/home/HeroSection.tsx:44-49 | n firings of the interval move the index to (old + n) mod the slide count |

## Left out

- Persistence: the `persist` middleware and local-storage serialisation of the three stores (after a reload `lastLoginDate` comes back as a string); the model keeps the state in memory only.
- Clocks and randomness: `new Date()`, `Date.now()` and `Math.random()` become the parameters `now`, `stamp` and `codeSuffix`.
- Number representation: JavaScript numbers are modelled as unbounded integers, so there is no floating-point rounding or precision loss; EUR and USD prices are whole units (the source allows fractions, e.g. a USD amount of 27.5).
- The gift-card redemption rate (`Math.round(redeemed / total * 100)`) is floating-point division and is not modelled.
- The page's constant demo list of four gift cards is not modelled; the filter and statistics take any list.
- `toLowerCase` is modelled for ASCII letters only; JavaScript lower-cases all of Unicode.
- Timers: the 5-second `setInterval` of the carousel; `Carousel.Autoplay` models only the sequence of firings.
- Rendering: `getStatusColor`, all markup, icons and product fields used only for display (images, teams, isHome, discount, featured, dates).
- `CartStore.Cart.AddItem`: the item count is stated to grow by exactly 1, and the total by the line's price, only when line ids are distinct; the code updates every line whose id equals the found line's id, and ids are kept apart only by the timestamp in them.
- `CartStore.BumpOneLineFolds`: stated under distinct ids, for the same reason.
