/**
 * The card details panel (client/src/components/CardDetailsSheet.tsx): the
 * card visual, the remove button and the recent-activity list. The remove
 * button's handler changes the page's state and is Home.Wallet.RemoveShownCard.
 */
module CardDetailsSheet {
  import opened Wrappers
  import opened Decimal
  import opened GiftCard
  import opened AddCardDialog

  datatype TxType = Purchase | Coffee | Fuel | Store

  /** The four icons of the activity list. */
  datatype Icon = ShoppingBagIcon | CoffeeIcon | FuelIcon | StoreIcon

  /** A transaction; the amount is in cents. */
  datatype Transaction = Transaction(id: string, merchant: string, amount: nat, date: string, kind: TxType)

  /** `iconMap`: the icon of each transaction type. */
  const IconMap: map<TxType, Icon> :=
    map[Purchase := ShoppingBagIcon, Coffee := CoffeeIcon, Fuel := FuelIcon, Store := StoreIcon]

  /** One line of the activity list, keyed by the transaction's id. */
  datatype Row = Row(key: string, icon: Icon, merchant: string, date: string, amountText: string)

  datatype Activity = NoTransactions | Rows(rows: seq<Row>)

  /** What the panel shows when it has a card. */
  datatype Sheet = Sheet(open: bool, face: CardFace, activity: Activity)

  /** The icon lookup never misses, and no two types share an icon. */
  lemma IconMapTotal()
    ensures forall t: TxType :: t in IconMap
    ensures forall t, u :: t in IconMap && u in IconMap && t != u ==> IconMap[t] != IconMap[u]
  {
    forall t: TxType
      ensures t in IconMap
    {
      match t
      case Purchase =>
      case Coffee =>
      case Fuel =>
      case Store =>
    }
  }

  /** `iconMap[tx.type]`. */
  function IconOf(kind: TxType): (icon: Icon)
    ensures kind in IconMap && icon == IconMap[kind]
  {
    IconMapTotal();
    IconMap[kind]
  }

  function RowOf(tx: Transaction): (row: Row)
    ensures row.key == tx.id && row.merchant == tx.merchant && row.date == tx.date
    ensures row.icon == IconOf(tx.kind)
    ensures |row.amountText| >= 2 && row.amountText[..2] == "-$" && row.amountText[2..] == ShowCents(tx.amount)
    ensures BalanceValid(row.amountText[2..]) && ParseCents(row.amountText[2..]) == tx.amount
  {
    ShowCentsParses(tx.amount);
    assert ("-$" + ShowCents(tx.amount))[2..] == ShowCents(tx.amount);
    Row(tx.id, IconOf(tx.kind), tx.merchant, tx.date, "-$" + ShowCents(tx.amount))
  }

  /** `transactions.map(...)`: one row per transaction, in the given order. */
  function RowsOf(txs: seq<Transaction>): (rows: seq<Row>)
    ensures |rows| == |txs|
    ensures forall i :: 0 <= i < |txs| ==> rows[i].key == txs[i].id && rows[i].icon == IconOf(txs[i].kind)
    ensures forall i :: 0 <= i < |txs| ==> rows[i] == RowOf(txs[i])
  {
    if txs == [] then [] else [RowOf(txs[0])] + RowsOf(txs[1..])
  }

  /** The `transactions` prop, which defaults to the empty list when it is not given. */
  function TransactionsOrDefault(transactions: Option<seq<Transaction>>): (txs: seq<Transaction>)
    ensures transactions.None? ==> txs == []
    ensures transactions.Some? ==> txs == transactions.value
  {
    if transactions.Some? then transactions.value else []
  }

  /**
   * The panel: nothing at all without a card; otherwise the card's visual and
   * either the "No transactions yet" line or one row per transaction.
   */
  function Render(open: bool, card: Option<Card>, transactions: Option<seq<Transaction>>): (sheet: Option<Sheet>)
    ensures sheet.None? <==> card.None?
    ensures sheet.Some? ==> sheet.value.open == open && sheet.value.face == Face(card.value)
    ensures sheet.Some? ==>
      (sheet.value.activity.NoTransactions? <==> TransactionsOrDefault(transactions) == [])
    ensures sheet.Some? && sheet.value.activity.Rows? ==>
      sheet.value.activity.rows == RowsOf(TransactionsOrDefault(transactions))
  {
    match card
    case None => None
    case Some(c) =>
      var txs := TransactionsOrDefault(transactions);
      Some(Sheet(open, Face(c), if |txs| == 0 then NoTransactions else Rows(RowsOf(txs))))
  }

  /** A panel given no transaction list says there are none. */
  lemma MissingTransactionsShowNone(open: bool, card: Card)
    ensures Render(open, Some(card), None) == Some(Sheet(open, Face(card), NoTransactions))
  {
  }
}
