/**
 * A gift card record and what the card visual derives from it
 * (client/src/components/GiftCard.tsx).
 */
module GiftCard {
  import opened Wrappers
  import opened Decimal
  import opened AddCardDialog

  /**
   * `GiftCardData`. The balance is in whole cents. The two optional flags are
   * `isExpired?` and `isLowBalance?`; the second one is stored but never read.
   */
  datatype Card = Card(
    id: string,
    lastFourDigits: string,
    balance: nat,
    expiryMonth: string,
    expiryYear: string,
    isExpired: Option<bool>,
    isLowBalance: Option<bool>)

  /** Ten dollars, in cents: a balance strictly below it is low. */
  const LowBalanceThreshold: nat := 1000

  /** The fixed mask printed in front of the last four digits. */
  const MaskPrefix: string := "•••• •••• •••• "

  /** What the card visual shows. */
  datatype CardFace = CardFace(
    expiredStyle: bool,   // grey gradient instead of the Visa blue one
    expiredBadge: bool,   // the dark overlay with the "Expired" badge
    maskedNumber: string,
    balanceText: string,
    lowBadge: bool,       // the amber "Low" badge
    expiryText: string)

  /** The component's `isLowBalance`: recomputed from the balance every time. */
  predicate IsLowBalance(card: Card) {
    card.balance < LowBalanceThreshold
  }

  /** The component's `isExpired`: an absent flag is falsy, so not expired. */
  predicate IsExpired(card: Card) {
    card.isExpired == Some(true)
  }

  /** Everything the card visual renders from its `card` prop. */
  function Face(card: Card): (f: CardFace)
    ensures f.lowBadge <==> card.balance < LowBalanceThreshold && card.isExpired != Some(true)
    ensures f.expiredStyle <==> card.isExpired == Some(true)
    ensures f.expiredBadge == f.expiredStyle
    ensures |f.balanceText| >= 1 && f.balanceText[0] == '$'
    ensures f.balanceText == "$" + ShowCents(card.balance)
    ensures BalanceValid(f.balanceText[1..]) && ParseCents(f.balanceText[1..]) == card.balance
    ensures |f.maskedNumber| == |MaskPrefix| + |card.lastFourDigits|
    ensures f.maskedNumber[..|MaskPrefix|] == MaskPrefix
    ensures f.maskedNumber[|MaskPrefix|..] == card.lastFourDigits
    ensures |f.expiryText| == |card.expiryMonth| + 1 + |card.expiryYear|
    ensures f.expiryText[..|card.expiryMonth|] == card.expiryMonth
    ensures f.expiryText[|card.expiryMonth|] == '/'
    ensures f.expiryText[|card.expiryMonth| + 1..] == card.expiryYear
  {
    ShowCentsParses(card.balance);
    assert ("$" + ShowCents(card.balance))[1..] == ShowCents(card.balance);
    CardFace(
      expiredStyle := IsExpired(card),
      expiredBadge := IsExpired(card),
      maskedNumber := MaskPrefix + card.lastFourDigits,
      balanceText := "$" + ShowCents(card.balance),
      lowBadge := IsLowBalance(card) && !IsExpired(card),
      expiryText := card.expiryMonth + "/" + card.expiryYear)
  }

  /** The stored `isLowBalance` flag has no effect on what is shown. */
  lemma StoredLowFlagIgnored(card: Card, flag: Option<bool>)
    ensures Face(card.(isLowBalance := flag)) == Face(card)
  {
  }

  /** Exactly ten dollars is not low; one cent less is. */
  lemma LowBalanceBoundary(card: Card)
    ensures card.balance == 999 ==> IsLowBalance(card)
    ensures card.balance == 1000 ==> !IsLowBalance(card)
  {
  }

  /** An expired card never shows the "Low" badge, however small its balance. */
  lemma ExpiredHidesLowBadge(card: Card)
    requires card.isExpired == Some(true)
    ensures !Face(card).lowBadge && Face(card).expiredBadge
  {
  }
}
