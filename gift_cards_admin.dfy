/**
 * The pure logic of the admin gift-card page (app/admin/gift-cards/page.tsx): the search and status
 * filter over the card list, the summary statistics, and the status labels. The page applies them
 * to its own constant list; here they take any list.
 */
module GiftCardsAdmin {
  import opened Sequences
  import opened UserTypes

  /** `toLowerCase` on one character, for the ASCII letters. */
  function LowerChar(c: char): (r: char)
  {
    if 'A' <= c <= 'Z' then (c as int + 32) as char else c
  }

  function Lower(s: string): (r: string)
    ensures |r| == |s| && forall i :: 0 <= i < |s| ==> r[i] == LowerChar(s[i])
  {
    seq(|s|, i requires 0 <= i < |s| => LowerChar(s[i]))
  }

  /** `includes`: the query starts at some position of the text. */
  function Contains(text: string, query: string): (r: bool)
    decreases |text|
  {
    query <= text || (text != [] && Contains(text[1..], query))
  }

  /** `query` occurs in `text` starting at position `i`. */
  ghost predicate OccursAt(text: string, query: string, i: int)
  {
    0 <= i && i + |query| <= |text| && text[i..i + |query|] == query
  }

  /** The recursive search agrees with the direct definition of a substring occurrence. */
  lemma {:induction false} ContainsIffOccurs(text: string, query: string)
    ensures Contains(text, query) <==> exists i :: OccursAt(text, query, i)
    decreases |text|
  {
    assert OccursAt(text, query, 0) <==> query <= text;
    if query <= text {
    } else if text != [] {
      ContainsIffOccurs(text[1..], query);
      if Contains(text[1..], query) {
        var i :| OccursAt(text[1..], query, i);
        assert text[i + 1..i + 1 + |query|] == text[1..][i..i + |query|];
        assert OccursAt(text, query, i + 1);
      }
      if exists i :: OccursAt(text, query, i) {
        var i :| OccursAt(text, query, i);
        assert text[1..][i - 1..i - 1 + |query|] == text[i..i + |query|];
        assert OccursAt(text[1..], query, i - 1);
      }
    }
  }

  /** The search box matches the code, the recipient's e-mail or the recipient's name, ignoring case. */
  predicate MatchesSearch(card: GiftCard, query: string)
    ensures query == "" ==> MatchesSearch(card, query)
    ensures MatchesSearch(card, query) <==>
      || (exists i :: OccursAt(Lower(card.code), Lower(query), i))
      || (card.recipientEmail.Some? && exists i :: OccursAt(Lower(card.recipientEmail.value), Lower(query), i))
      || (card.recipientName.Some? && exists i :: OccursAt(Lower(card.recipientName.value), Lower(query), i))
  {
    ContainsIffOccurs(Lower(card.code), Lower(query));
    ContainsIffOccurs(Lower(if card.recipientEmail.Some? then card.recipientEmail.value else ""), Lower(query));
    ContainsIffOccurs(Lower(if card.recipientName.Some? then card.recipientName.value else ""), Lower(query));
    var q := Lower(query);
    || Contains(Lower(card.code), q)
    || (card.recipientEmail.Some? && Contains(Lower(card.recipientEmail.value), q))
    || (card.recipientName.Some? && Contains(Lower(card.recipientName.value), q))
  }

  /** The status select is "all" or the status the card must have. */
  predicate MatchesStatus(card: GiftCard, statusFilter: string)
    ensures statusFilter == "all" ==> MatchesStatus(card, statusFilter)
    ensures statusFilter != "all" && statusFilter != "ACTIVE" && statusFilter != "REDEEMED" && statusFilter != "EXPIRED"
      ==> !MatchesStatus(card, statusFilter)
  {
    statusFilter == "all" || StatusName(card.status) == statusFilter
  }

  /** Choosing one status in the select keeps exactly the cards with that status. */
  lemma StatusFilterSelects(card: GiftCard, status: GiftCardStatus)
    ensures MatchesStatus(card, StatusName(status)) <==> card.status == status
  {
  }

  predicate Keeps(card: GiftCard, query: string, statusFilter: string)
  {
    MatchesSearch(card, query) && MatchesStatus(card, statusFilter)
  }

  /** `filteredGiftCards`: the cards both filters keep, in their original order. */
  function FilterCards(cards: seq<GiftCard>, query: string, statusFilter: string): (r: seq<GiftCard>)
    ensures Subsequence(r, cards)
    ensures forall c :: c in r <==> c in cards && Keeps(c, query, statusFilter)
    ensures forall c :: multiset(r)[c] == if Keeps(c, query, statusFilter) then multiset(cards)[c] else 0
  {
    if cards == [] then []
    else
      var rest := FilterCards(cards[1..], query, statusFilter);
      assert cards == [cards[0]] + cards[1..];
      assert multiset(cards) == multiset{cards[0]} + multiset(cards[1..]);
      if Keeps(cards[0], query, statusFilter) then
        assert multiset([cards[0]] + rest) == multiset{cards[0]} + multiset(rest);
        [cards[0]] + rest
      else rest
  }

  /** With an empty search and the filter "all" the list is shown whole. */
  lemma {:induction false} EmptySearchKeepsAll(cards: seq<GiftCard>)
    ensures FilterCards(cards, "", "all") == cards
  {
    if cards != [] {
      EmptySearchKeepsAll(cards[1..]);
      assert Lower("") == "";
      assert Contains(Lower(cards[0].code), "");
    }
  }

  /** The cards with one status, in order: the filters inside `stats`. */
  function WithStatus(cards: seq<GiftCard>, status: GiftCardStatus): (r: seq<GiftCard>)
    ensures Subsequence(r, cards)
    ensures forall c :: c in r <==> c in cards && c.status == status
    ensures forall c :: multiset(r)[c] == if c.status == status then multiset(cards)[c] else 0
    ensures |r| <= |cards|
  {
    if cards == [] then []
    else
      var rest := WithStatus(cards[1..], status);
      assert cards == [cards[0]] + cards[1..];
      assert multiset(cards) == multiset{cards[0]} + multiset(cards[1..]);
      if cards[0].status == status then
        assert multiset([cards[0]] + rest) == multiset{cards[0]} + multiset(rest);
        [cards[0]] + rest
      else rest
  }

  /** The EUR amounts added up (integer addition, so the order of the fold does not matter). */
  function SumEur(cards: seq<GiftCard>): (r: int)
    ensures NonNegativeAmounts(cards) ==> r >= 0
  {
    if cards == [] then 0 else cards[0].amount.eur + SumEur(cards[1..])
  }

  /** The sum splits over a concatenation, so summing from either end gives the same value. */
  lemma {:induction false} SumEurAppend(front: seq<GiftCard>, back: seq<GiftCard>)
    ensures SumEur(front + back) == SumEur(front) + SumEur(back)
  {
    if front == [] {
      assert front + back == back;
    } else {
      assert (front + back)[1..] == front[1..] + back;
      SumEurAppend(front[1..], back);
    }
  }

  /**
   * With an empty search, choosing a status in the select shows the same cards, in the same order,
   * as the filter the statistics use for that status.
   */
  lemma {:induction false} StatusFilterMatchesStats(cards: seq<GiftCard>, status: GiftCardStatus)
    ensures FilterCards(cards, "", StatusName(status)) == WithStatus(cards, status)
  {
    if cards != [] {
      StatusFilterMatchesStats(cards[1..], status);
      assert Lower("") == "";
      assert Contains(Lower(cards[0].code), "");
      StatusFilterSelects(cards[0], status);
    }
  }

  ghost predicate NonNegativeAmounts(cards: seq<GiftCard>)
  {
    forall c :: c in cards ==> c.amount.eur >= 0
  }

  /** Every card has exactly one of the three statuses, so the three counts add up to the total. */
  lemma {:induction false} StatusCountsPartition(cards: seq<GiftCard>)
    ensures |WithStatus(cards, Active)| + |WithStatus(cards, Redeemed)| + |WithStatus(cards, Expired)| == |cards|
  {
    if cards != [] {
      StatusCountsPartition(cards[1..]);
    }
  }

  /** With non-negative amounts, the value of the active cards is between 0 and the total value. */
  lemma {:induction false} ActiveValueBounded(cards: seq<GiftCard>)
    ensures NonNegativeAmounts(cards) ==> 0 <= SumEur(WithStatus(cards, Active)) <= SumEur(cards)
  {
    if cards != [] {
      assert forall c :: c in cards[1..] ==> c in cards;
      ActiveValueBounded(cards[1..]);
    }
  }

  datatype Stats = Stats(total: int, active: int, redeemed: int, expired: int, totalValue: int, activeValue: int)

  /** The summary cards of the page. */
  function ComputeStats(cards: seq<GiftCard>): (s: Stats)
    ensures s.total == |cards|
    ensures s.active == |WithStatus(cards, Active)| && s.redeemed == |WithStatus(cards, Redeemed)|
    ensures s.expired == |WithStatus(cards, Expired)|
    ensures s.totalValue == SumEur(cards) && s.activeValue == SumEur(WithStatus(cards, Active))
    ensures s.active + s.redeemed + s.expired == s.total
    ensures NonNegativeAmounts(cards) ==> 0 <= s.activeValue <= s.totalValue
  {
    StatusCountsPartition(cards);
    ActiveValueBounded(cards);
    Stats(
      total := |cards|,
      active := |WithStatus(cards, Active)|,
      redeemed := |WithStatus(cards, Redeemed)|,
      expired := |WithStatus(cards, Expired)|,
      totalValue := SumEur(cards),
      activeValue := SumEur(WithStatus(cards, Active)))
  }

  /** The French label of a status string; any other string is shown as it is. */
  function StatusLabel(status: string): (r: string)
    ensures status == "ACTIVE" ==> r == "Active"
    ensures status == "REDEEMED" ==> r == "Utilisée"
    ensures status == "EXPIRED" ==> r == "Expirée"
    ensures status != "ACTIVE" && status != "REDEEMED" && status != "EXPIRED" ==> r == status
  {
    match status
    case "ACTIVE" => "Active"
    case "REDEEMED" => "Utilisée"
    case "EXPIRED" => "Expirée"
    case _ => status
  }

  /** The three statuses get three different labels. */
  lemma StatusLabelsDistinct(a: GiftCardStatus, b: GiftCardStatus)
    requires a != b
    ensures StatusLabel(StatusName(a)) != StatusLabel(StatusName(b))
  {
  }
}
