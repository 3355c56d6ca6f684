/**
 * The wallet page (client/src/pages/home.tsx): the list of cards, the
 * selected card and the two open/closed flags, the handlers that change them,
 * and what the page renders from them.
 */
module Home {
  import opened Wrappers
  import opened Decimal
  import opened GiftCard
  import opened AddCardDialog
  import opened CardDetailsSheet

  // ---------------------------------------------------------------------------
  // The sample data the page starts with
  // ---------------------------------------------------------------------------

  function InitialCards(): seq<Card> {
    [ Card("1", "4532", 15000, "12", "26", None, None),
      Card("2", "7891", 850, "03", "25", None, Some(true)),
      Card("3", "2345", 2500, "06", "27", None, None) ]
  }

  function MockTransactions(): seq<Transaction> {
    [ Transaction("t1", "Amazon", 2499, "Dec 10, 2025", Purchase),
      Transaction("t2", "Starbucks", 650, "Dec 9, 2025", Coffee),
      Transaction("t3", "Shell Gas Station", 4500, "Dec 8, 2025", Fuel),
      Transaction("t4", "Target", 8999, "Dec 5, 2025", Store) ]
  }

  // ---------------------------------------------------------------------------
  // Adding a card
  // ---------------------------------------------------------------------------

  /** `s.slice(-4)`: the last four characters, or the whole string when it is shorter. */
  function LastFour(s: string): (r: string)
    ensures |r| == if |s| < 4 then |s| else 4
    ensures s == s[..|s| - |r|] + r
  {
    if |s| <= 4 then s else s[|s| - 4..]
  }

  /** The card `handleAddCard` builds from an entry and a fresh id. */
  function NewCard(entry: Submission, id: string): (card: Card)
    ensures card.id == id && card.balance == entry.balance
    ensures card.expiryMonth == entry.expiryMonth && card.expiryYear == entry.expiryYear
    ensures card.isExpired == None && card.isLowBalance == None
    ensures |entry.cardNumber| >= 4 && AllDigits(entry.cardNumber) ==> FourDigits(card.lastFourDigits)
    ensures card.lastFourDigits == LastFour(entry.cardNumber)
  {
    Card(id, LastFour(entry.cardNumber), entry.balance, entry.expiryMonth, entry.expiryYear, None, None)
  }

  predicate FourDigits(s: string) {
    |s| == 4 && AllDigits(s)
  }

  // ---------------------------------------------------------------------------
  // Removing a card
  // ---------------------------------------------------------------------------

  function CountWithId(cards: seq<Card>, id: string): nat {
    if cards == [] then 0 else (if cards[0].id == id then 1 else 0) + CountWithId(cards[1..], id)
  }

  /** A listed card counts towards its own id. */
  lemma {:induction false} ListedCardCounted(cards: seq<Card>, c: Card)
    requires c in cards
    ensures CountWithId(cards, c.id) >= 1
  {
    if cards[0] != c {
      ListedCardCounted(cards[1..], c);
    }
  }

  /** `a` is `b` with some elements left out and the rest in their original order. */
  predicate IsSubsequence(a: seq<Card>, b: seq<Card>) {
    if a == [] then true
    else if b == [] then false
    else (a[0] == b[0] && IsSubsequence(a[1..], b[1..])) || IsSubsequence(a, b[1..])
  }

  /**
   * `cards.filter((c) => c.id !== id)`: no card with that id is left, every
   * other card stays, in its original relative order, and the list shrinks by
   * exactly the number of cards that had the id.
   */
  function Without(cards: seq<Card>, id: string): (rest: seq<Card>)
    ensures forall c :: c in rest ==> c in cards && c.id != id
    ensures forall c :: c in cards && c.id != id ==> c in rest
    ensures |rest| == |cards| - CountWithId(cards, id)
    ensures IsSubsequence(rest, cards)
    ensures CountWithId(cards, id) == 0 ==> rest == cards
  {
    if cards == [] then []
    else if cards[0].id == id then
      var rest := Without(cards[1..], id);
      assert rest == [] || IsSubsequence(rest, cards[1..]);
      rest
    else
      var rest := [cards[0]] + Without(cards[1..], id);
      assert rest[1..] == Without(cards[1..], id);
      assert cards == [cards[0]] + cards[1..];
      rest
  }

  // ---------------------------------------------------------------------------
  // The total balance
  // ---------------------------------------------------------------------------

  /** The balances added up, card by card from the front. */
  function Sum(cards: seq<Card>): nat {
    if cards == [] then 0 else cards[0].balance + Sum(cards[1..])
  }

  /** The balances of the cards with the given id. */
  function SumWithId(cards: seq<Card>, id: string): nat {
    if cards == [] then 0 else (if cards[0].id == id then cards[0].balance else 0) + SumWithId(cards[1..], id)
  }

  /** `cards.reduce((sum, card) => sum + card.balance, acc)`. */
  function Reduce(cards: seq<Card>, acc: nat): nat {
    if cards == [] then acc else Reduce(cards[1..], acc + cards[0].balance)
  }

  lemma {:induction false} ReduceAddsUp(cards: seq<Card>, acc: nat)
    ensures Reduce(cards, acc) == acc + Sum(cards)
  {
    if cards != [] {
      ReduceAddsUp(cards[1..], acc + cards[0].balance);
    }
  }

  /** `totalBalance`: the sum of all the balances, 0 for no cards. */
  function TotalBalance(cards: seq<Card>): (total: nat)
    ensures total == Sum(cards)
    ensures cards == [] ==> total == 0
  {
    ReduceAddsUp(cards, 0);
    Reduce(cards, 0)
  }

  /** Removing cards takes exactly their balances off the total. */
  lemma {:induction false} TotalWithout(cards: seq<Card>, id: string)
    ensures TotalBalance(Without(cards, id)) + SumWithId(cards, id) == TotalBalance(cards)
  {
    if cards != [] {
      TotalWithout(cards[1..], id);
      if cards[0].id != id {
        assert Without(cards, id)[1..] == Without(cards[1..], id);
      }
    }
  }

  /** The sample wallet holds $183.50. */
  lemma InitialTotal()
    ensures TotalBalance(InitialCards()) == 18350
  {
  }

  /** In the sample wallet only the $8.50 card shows the "Low" badge. */
  lemma InitialLowBadges()
    ensures !Face(InitialCards()[0]).lowBadge
    ensures Face(InitialCards()[1]).lowBadge
    ensures !Face(InitialCards()[2]).lowBadge
  {
  }

  // ---------------------------------------------------------------------------
  // What the page renders
  // ---------------------------------------------------------------------------

  /** The total balance and the card count above the grid. */
  datatype Summary = Summary(totalText: string, countText: string)

  datatype Body = EmptyStateShown | Grid(faces: seq<CardFace>)

  datatype Page = Page(summary: Option<Summary>, body: Body)

  /** "card" for exactly one card, "cards" otherwise (also for none). */
  function CardNoun(count: nat): (noun: string)
    ensures noun == "card" <==> count == 1
    ensures noun == "cards" <==> count != 1
  {
    "card" + (if count != 1 then "s" else "")
  }

  function CountText(count: nat): string {
    Numeral(count) + " " + CardNoun(count) + " in wallet"
  }

  function Faces(cards: seq<Card>): (faces: seq<CardFace>)
    ensures |faces| == |cards|
    ensures forall i :: 0 <= i < |cards| ==> faces[i] == Face(cards[i])
  {
    if cards == [] then [] else [Face(cards[0])] + Faces(cards[1..])
  }

  /**
   * The page's main part: the summary exactly when there are cards, the empty
   * state exactly when there are none, and otherwise one card visual per card,
   * in list order.
   */
  function RenderPage(cards: seq<Card>): (page: Page)
    ensures page.summary.Some? <==> |cards| > 0
    ensures page.body.EmptyStateShown? <==> |cards| == 0
    ensures page.summary.Some? ==> page.summary.value.countText == CountText(|cards|)
    ensures page.summary.Some? ==> page.summary.value.totalText == "$" + ShowCents(Sum(cards))
    ensures page.body.Grid? ==> |page.body.faces| == |cards|
    ensures page.body.Grid? ==> forall i :: 0 <= i < |cards| ==> page.body.faces[i] == Face(cards[i])
  {
    var summary := if |cards| > 0
      then Some(Summary("$" + ShowCents(TotalBalance(cards)), CountText(|cards|)))
      else None;
    Page(summary, if |cards| == 0 then EmptyStateShown else Grid(Faces(cards)))
  }

  // ---------------------------------------------------------------------------
  // The page's state
  // ---------------------------------------------------------------------------

  class Wallet {
    var cards: seq<Card>
    var isAddDialogOpen: bool
    var selectedCard: Option<Card>
    var isDetailsOpen: bool

    /**
     * A selected card is one of the listed cards, and every listed card shows
     * exactly four digits.
     */
    ghost predicate Valid()
      reads this
    {
      && (selectedCard.Some? ==> selectedCard.value in cards)
      && forall c :: c in cards ==> FourDigits(c.lastFourDigits)
    }

    constructor ()
      ensures Valid()
      ensures cards == InitialCards() && !isAddDialogOpen && selectedCard == None && !isDetailsOpen
    {
      cards := InitialCards();
      isAddDialogOpen := false;
      selectedCard := None;
      isDetailsOpen := false;
    }

    /**
     * What the page shows: it depends on the cards only. The summary shows the
     * total of the listed cards, and the grid one visual per listed card.
     */
    function View(): (page: Page)
      reads this
      ensures page.summary.Some? <==> cards != []
      ensures page.body.EmptyStateShown? <==> cards == []
      ensures page.summary.Some? ==> page.summary.value.totalText == "$" + ShowCents(Sum(cards))
      ensures page.body.Grid? ==> page.body.faces == Faces(cards)
    {
      RenderPage(cards)
    }

    /** What the details panel shows: it is given the selected card and the sample transactions. */
    function DetailsView(): (sheet: Option<Sheet>)
      reads this
      ensures sheet.None? <==> selectedCard.None?
    {
      Render(isDetailsOpen, selectedCard, Some(MockTransactions()))
    }

    /** The add dialog's `onOpenChange`; the header and the empty state open it with `true`. */
    method SetAddDialogOpen(open: bool)
      modifies this
      ensures isAddDialogOpen == open
      ensures cards == old(cards) && selectedCard == old(selectedCard) && isDetailsOpen == old(isDetailsOpen)
      ensures old(Valid()) ==> Valid()
    {
      isAddDialogOpen := open;
    }

    /** The details panel's `onOpenChange`. */
    method SetDetailsOpen(open: bool)
      modifies this
      ensures isDetailsOpen == open
      ensures cards == old(cards) && selectedCard == old(selectedCard) && isAddDialogOpen == old(isAddDialogOpen)
      ensures old(Valid()) ==> Valid()
    {
      isDetailsOpen := open;
    }

    /** `handleAddCard`: the new card goes in front of the others; nothing else changes. */
    method AddCard(entry: Submission, id: string)
      modifies this
      ensures cards == [NewCard(entry, id)] + old(cards)
      ensures selectedCard == old(selectedCard) && isDetailsOpen == old(isDetailsOpen)
      ensures isAddDialogOpen == old(isAddDialogOpen)
      ensures old(Valid()) && |entry.cardNumber| >= 4 && AllDigits(entry.cardNumber) ==> Valid()
    {
      cards := [NewCard(entry, id)] + cards;
    }

    /** `handleRemoveCard`: the cards with that id go, and the selection is cleared whatever it was. */
    method RemoveCard(id: string)
      modifies this
      ensures cards == Without(old(cards), id)
      ensures selectedCard == None
      ensures isDetailsOpen == old(isDetailsOpen) && isAddDialogOpen == old(isAddDialogOpen)
      ensures old(Valid()) ==> Valid()
    {
      cards := Without(cards, id);
      selectedCard := None;
    }

    /** `handleCardClick`: the card becomes the selection and the details panel opens. */
    method CardClick(card: Card)
      modifies this
      ensures selectedCard == Some(card) && isDetailsOpen
      ensures cards == old(cards) && isAddDialogOpen == old(isAddDialogOpen)
      ensures old(Valid()) && card in cards ==> Valid()
    {
      selectedCard := Some(card);
      isDetailsOpen := true;
    }

    /**
     * The details panel's remove button: the shown card is removed by its id,
     * then the panel is closed, whether or not a card went.
     */
    method RemoveShownCard()
      requires selectedCard.Some?
      modifies this
      ensures cards == Without(old(cards), old(selectedCard).value.id)
      ensures forall c :: c in cards ==> c.id != old(selectedCard).value.id
      ensures selectedCard == None && !isDetailsOpen
      ensures isAddDialogOpen == old(isAddDialogOpen)
      ensures old(Valid()) ==> Valid() && |cards| < |old(cards)|
    {
      var shown := selectedCard.value;
      if Valid() {
        ListedCardCounted(cards, shown);
      }
      RemoveCard(shown.id);
      SetDetailsOpen(false);
    }

    /**
     * The dialog's submit handler, after its delay: the normalised entry is
     * added as a new card, the form is reset and the dialog closed.
     */
    method SubmitAddCard(form: AddCardForm, data: FormData, id: string)
      requires FormValid(data) && IsFormatted(data.cardNumber)
      modifies this, form
      ensures cards == [NewCard(Normalise(data), id)] + old(cards)
      ensures FourDigits(cards[0].lastFourDigits)
      ensures selectedCard == old(selectedCard) && isDetailsOpen == old(isDetailsOpen)
      ensures !isAddDialogOpen
      ensures form.Valid() && form.values == EmptyForm && !form.isSubmitting
      ensures old(Valid()) ==> Valid()
    {
      var entry := form.CompleteSubmit(data);
      AddCard(entry, id);
      SetAddDialogOpen(false);
    }

    /**
     * A press of the dialog's submit button, from the schema check to the new
     * card: a form that passes its schema becomes the first card, showing four
     * digits, and the dialog closes; otherwise nothing changes.
     */
    method SubmitDialog(form: AddCardForm, id: string) returns (added: bool)
      requires form.Valid() && !form.isSubmitting
      modifies this, form
      ensures added <==> FormValid(old(form.values))
      ensures added ==> cards == [NewCard(Normalise(old(form.values)), id)] + old(cards)
      ensures added ==> FourDigits(cards[0].lastFourDigits) && !isAddDialogOpen
      ensures added ==> form.values == EmptyForm && !form.isSubmitting
      ensures !added ==> cards == old(cards) && isAddDialogOpen == old(isAddDialogOpen)
      ensures !added ==> form.values == old(form.values) && !form.isSubmitting
      ensures selectedCard == old(selectedCard) && isDetailsOpen == old(isDetailsOpen)
      ensures form.Valid()
      ensures old(Valid()) ==> Valid()
    {
      var data := form.BeginSubmit();
      added := data.Some?;
      if added {
        SubmitAddCard(form, data.value, id);
      }
    }
  }
}
