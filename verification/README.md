# Gift-card wallet: a verified model

This project models the client-side logic of a prepaid gift-card wallet written
in React/TypeScript:

- **the add-card dialog** (`AddCardDialog`): the five field checks of the
  form schema, with the message of the first failing check per field; the
  `formatCardNumber` transformer that runs on every keystroke in the
  card-number field; and the submit handler. The handler normalises the entry,
  resets the form, clears `isSubmitting` and closes the dialog.
- **the wallet page** (`Home`): the page state as a class `Wallet` with the
  fields `cards`, `isAddDialogOpen`, `selectedCard` and `isDetailsOpen`. Its
  methods are the handlers that change that state: add, remove, click, the two
  `onOpenChange` callbacks, the details panel's remove button and the dialog's
  submit. The module also holds the total balance and what the page renders
  (summary, empty state, card grid).
- **the card visual** (`GiftCard`): the derived low-balance and expired flags,
  the badges, and the masked-number, balance and expiry texts.
- **the details panel** (`CardDetailsSheet`): the null-card guard, the default
  empty transaction list, one row per transaction, and the total icon lookup.

Money is exact: every balance and amount is a whole number of cents (`nat`).
`Decimal.ShowCents` is `toFixed(2)` for such amounts, and
`AddCardDialog.ParseCents` is `parseFloat` on a balance the schema accepts.
JavaScript's `\d` is the ASCII digits, and `\s` is spelled out as the
ECMAScript white-space set (`AddCardDialog.IsWhitespace`).

The central facts proved:

- A formatted card number is groups of four digits joined by single spaces.
- Removing the spaces gives back exactly the input's digits.
- Formatting is idempotent.
- A formatted value passes the card-number check iff it holds 13 to 16 digits.
- The card-number field therefore always holds a formatted value. Every card
  added through the dialog gets a four-digit `lastFourDigits`, even though the
  schema on its own accepts sixteen spaces (`BlankCardNumberAccepted`).
- Removing a card keeps the other cards in order and always clears the
  selection.

The module `Wrappers` holds `Option`. `Decimal` holds numerals and money text.
The remaining modules follow the source files one for one.

The page keeps its cards in local state, starting from three sample cards,
and makes no network calls. It passes a fixed sample transaction list to the
details panel. It clears the selection as soon as a card is removed. The
submit handler passes the balance on as a number, `parseFloat(balance)`.

## Model

| member | source | states |
|---|---|---|
| `Decimal.Numeral` | client/src/pages/home.tsx:89 | the card count is printed as the shortest decimal numeral of the count, which reads back as that number |
| `Decimal.ShowCents` | client/src/components/GiftCard.tsx:64 | `toFixed(2)` of an amount in cents: the whole dollars as the shortest numeral (no leading zero), a dot, then two digits that are the cents |
| `GiftCard.Face` | client/src/components/GiftCard.tsx:21-76 | "Low" badge iff balance < $10 and not expired; expired styling and "Expired" badge iff `isExpired` is true, so absent counts as not expired; the balance text is "$" then `toFixed(2)` of the balance, an amount that passes the balance check and reads back as the card's balance; the masked number is "•••• •••• •••• " then `lastFourDigits`; the expiry text is month, "/", year |
| `GiftCard.StoredLowFlagIgnored` | client/src/components/GiftCard.tsx:12-21 | the stored `isLowBalance` flag never changes what the card shows |
| `GiftCard.LowBalanceBoundary` | client/src/components/GiftCard.tsx:21 | $9.99 is low and exactly $10.00 is not |
| `GiftCard.ExpiredHidesLowBadge` | client/src/components/GiftCard.tsx:66 | an expired card never shows "Low" and always shows "Expired" |
| `AddCardDialog.CardNumberAccepts` | client/src/components/AddCardDialog.tsx:25-29 | the card number is accepted iff it has 16 to 19 characters, each a digit or white space |
| `AddCardDialog.BlankCardNumberAccepted` | client/src/components/AddCardDialog.tsx:25-29 | the schema alone accepts a card number of sixteen spaces |
| `AddCardDialog.ShortCardNumberMessage` | client/src/components/AddCardDialog.tsx:27 | "123" is refused with "Card number must be 16 digits" |
| `AddCardDialog.CvvAndYearAccept` | client/src/components/AddCardDialog.tsx:30-42 | the CVV is accepted iff it is exactly 3 digits, the year iff exactly 2 digits |
| `AddCardDialog.ExpiryMonthAccepts` | client/src/components/AddCardDialog.tsx:34-38 | the month is accepted iff it is one of "01" … "12" |
| `AddCardDialog.ExpiryMonthRange` | client/src/components/AddCardDialog.tsx:34-38 | the month is accepted iff it is two digits whose value is 1 to 12 |
| `AddCardDialog.ExpiryMonthEdges` | client/src/components/AddCardDialog.tsx:34-38 | "1", "00" and "13" are refused; "01" and "12" are accepted |
| `AddCardDialog.LeadingDigits` | client/src/components/AddCardDialog.tsx:46 | the leading `\d+` of the balance pattern takes the longest run of digits at the start |
| `AddCardDialog.BalanceRefusals` | client/src/components/AddCardDialog.tsx:43-46 | "", "100.", ".5" and "1.234" are refused |
| `AddCardDialog.BalanceAcceptances` | client/src/components/AddCardDialog.tsx:43-46 | "100", "100.5" and "100.00" are accepted |
| `AddCardDialog.ShowCentsParses` | client/src/components/AddCardDialog.tsx:97 | every two-decimal rendering of a balance passes the balance check and parses back to the same number of cents |
| `AddCardDialog.ParseCentsExample` | client/src/components/AddCardDialog.tsx:97 | "100.00" parses to 10000 cents |
| `AddCardDialog.ParseCents` | client/src/components/AddCardDialog.tsx:97 | `parseFloat` of an accepted balance: the whole dollars are the value of the digits before the dot, there are no cents without decimals, one decimal counts as tens of cents, and two decimals are the cents |
| `AddCardDialog.KeepDigits` | client/src/components/AddCardDialog.tsx:82 | removing the non-digits leaves only digits, and leaves an all-digit string as it is |
| `AddCardDialog.DropWhitespace` | client/src/components/AddCardDialog.tsx:93 | removing white space leaves none; a string of digits and white space becomes all digits |
| `AddCardDialog.DropWhitespaceIsKeepDigits` | client/src/components/AddCardDialog.tsx:82-93 | on a text of digits and white space, as the card-number check demands, removing white space and keeping digits give the same result |
| `AddCardDialog.Chunks` | client/src/components/AddCardDialog.tsx:83 | the matches of `/.{1,4}/g`: none iff there are no digits; every group has 4 characters except the last, which has 1 to 4; together they are the digits |
| `AddCardDialog.GroupedLayout` | client/src/components/AddCardDialog.tsx:83-84 | in the joined groups a space stands exactly at every fifth position, and the j-th digit stands at position j + j/4 |
| `AddCardDialog.FormatShape` | client/src/components/AddCardDialog.tsx:81-85 | the output is "" iff the input has no digit; otherwise it is digits separated by single spaces at every fifth position, with no leading, trailing or doubled space |
| `AddCardDialog.GroupedDigitsRecovered` | client/src/components/AddCardDialog.tsx:83-84 | removing the spaces from the grouped digits, or keeping only digits, gives back the digits |
| `AddCardDialog.FormatThenStrip` | client/src/components/AddCardDialog.tsx:82-84 | removing the white space from `formatCardNumber(x)` yields exactly the digits of x, in order |
| `AddCardDialog.FormatIdempotent` | client/src/components/AddCardDialog.tsx:81-85 | `formatCardNumber(formatCardNumber(x)) == formatCardNumber(x)` |
| `AddCardDialog.FormattedCardNumberAccepts` | client/src/components/AddCardDialog.tsx:81-85 | a formatted card number passes the card-number check iff the input holds 13 to 16 digits |
| `AddCardDialog.Normalise` | client/src/components/AddCardDialog.tsx:92-98 | the card number handed on is exactly the entered digits, in order, with no white space, 13 to 16 of them when it came from the formatted field; CVV, month and year are passed unchanged; the balance is `parseFloat` of the entered text, in cents, and prints back with `toFixed(2)` to a text that parses to the same amount |
| `AddCardDialog.AddCardForm.constructor` | client/src/components/AddCardDialog.tsx:68-79 | all five fields start empty and `isSubmitting` false, so the button reads "Add Card" and is enabled |
| `AddCardDialog.AddCardForm.SubmitButton` | client/src/components/AddCardDialog.tsx:247-253 | the button is disabled exactly while submitting, and its label is "Adding..." exactly when it is disabled and "Add Card" exactly when it is not |
| `AddCardDialog.AddCardForm.Edit` | client/src/components/AddCardDialog.tsx:134-136 | typing in the card-number field stores `formatCardNumber` of the input, so the field stays formatted; other fields store the input |
| `AddCardDialog.AddCardForm.BeginSubmit` | client/src/components/AddCardDialog.tsx:87-88 | the handler runs, with the current values, iff every field passes; only then does `isSubmitting` become true and the button read "Adding..." |
| `AddCardDialog.AddCardForm.CompleteSubmit` | client/src/components/AddCardDialog.tsx:92-101 | hands on the normalised entry, resets the form and clears `isSubmitting`, so the button reads "Add Card" again |
| `CardDetailsSheet.IconMapTotal` | client/src/components/CardDetailsSheet.tsx:29-34 | every transaction type has an icon, and no two types share one |
| `CardDetailsSheet.IconOf` | client/src/components/CardDetailsSheet.tsx:83 | the icon lookup of a row never misses |
| `CardDetailsSheet.RowOf` | client/src/components/CardDetailsSheet.tsx:84-101 | a row shows the transaction's id as key, its merchant, date and icon, and an amount text "-$" then an amount that passes the balance check and reads back as the transaction's amount |
| `CardDetailsSheet.RowsOf` | client/src/components/CardDetailsSheet.tsx:82-103 | exactly one row per transaction, in the given order |
| `CardDetailsSheet.Render` | client/src/components/CardDetailsSheet.tsx:43-104 | nothing is rendered iff the card is null; otherwise the card's visual, and "No transactions yet" iff the list is empty, else its rows |
| `CardDetailsSheet.MissingTransactionsShowNone` | client/src/components/CardDetailsSheet.tsx:76-79 | a panel given no transaction list shows "No transactions yet" |
| `Home.LastFour` | client/src/pages/home.tsx:57 | `slice(-4)` is the last four characters, or the whole string if shorter |
| `Home.NewCard` | client/src/pages/home.tsx:55-61 | the new card has the given id; balance, month and year are copied; its last four digits come from the number and are four digits when the number has at least four; no stored flags |
| `Home.Without` | client/src/pages/home.tsx:66 | after removing id k no card has id k; every other card stays, in its original relative order; the list shrinks by the number of cards with id k; an absent id leaves the list unchanged |
| `Home.ListedCardCounted` | client/src/pages/home.tsx:66 | a listed card has its id counted at least once, so removing that id removes at least one card |
| `Home.ReduceAddsUp` | client/src/pages/home.tsx:75 | the left-to-right reduce from an initial sum adds that sum to the sum of the balances |
| `Home.TotalBalance` | client/src/pages/home.tsx:75 | the total is the sum of the card balances, and 0 for no cards |
| `Home.TotalWithout` | client/src/pages/home.tsx:66-75 | removing an id lowers the total by exactly the balances of the cards with that id |
| `Home.InitialTotal` | client/src/pages/home.tsx:9-32 | the sample wallet totals $183.50 |
| `Home.InitialLowBadges` | client/src/pages/home.tsx:9-32 | of the sample cards only the $8.50 one shows "Low" |
| `Home.CardNoun` | client/src/pages/home.tsx:89 | the label reads "card" iff the count is 1, otherwise "cards" |
| `Home.Faces` | client/src/pages/home.tsx:98-104 | one card visual per card, in list order |
| `Home.RenderPage` | client/src/pages/home.tsx:82-106 | the summary shows iff there are cards, the empty state iff there are none; the summary shows the total and the count; the grid has one visual per card |
| `Home.Wallet.constructor` | client/src/pages/home.tsx:43-46 | the page starts with the sample cards, no selection and both panels closed |
| `Home.Wallet.View` | client/src/pages/home.tsx:77-107 | the page rendered from the wallet's state: the summary with the total of the listed cards iff there are cards, the empty state iff there are none, and one card visual per listed card |
| `Home.Wallet.DetailsView` | client/src/pages/home.tsx:115-121 | the details panel renders nothing exactly when no card is selected |
| `Home.Wallet.SetAddDialogOpen` | client/src/pages/home.tsx:79-111 | opening or closing the add dialog changes that flag only |
| `Home.Wallet.SetDetailsOpen` | client/src/pages/home.tsx:115-117 | opening or closing the details panel changes that flag only |
| `Home.Wallet.AddCard` | client/src/pages/home.tsx:48-63 | exactly one card is put in front and the existing cards keep their order; selection and both flags are unchanged |
| `Home.Wallet.RemoveCard` | client/src/pages/home.tsx:65-68 | the cards with that id go and the selection is cleared, even when another card was selected; the flags are unchanged |
| `Home.Wallet.CardClick` | client/src/pages/home.tsx:70-73 | the clicked card becomes the selection and the details panel opens; the cards are unchanged |
| `Home.Wallet.RemoveShownCard` | client/src/components/CardDetailsSheet.tsx:60-63 | removes the shown card's id and then closes the panel; the close does not depend on whether a card was removed; the selection ends cleared; in a valid wallet the shown card is listed, so the list really gets shorter |
| `Home.Wallet.SubmitAddCard` | client/src/components/AddCardDialog.tsx:92-102 | a valid, formatted entry becomes the new first card, with four digits shown; the form is reset, `isSubmitting` is false and the dialog is closed |
| `Home.Wallet.SubmitDialog` | client/src/components/AddCardDialog.tsx:87-102 | a press of submit on a form that passes the schema adds the entered card in front, showing four digits, resets the form and closes the dialog; on a form that fails it changes nothing |

`Home.Wallet` keeps the invariant `Valid()`: a selected card is a listed card,
and every listed card shows exactly four digits. `RemoveCard`,
`RemoveShownCard`, `SubmitAddCard`, `SubmitDialog` and the two open/close setters preserve it.
So does `CardClick` on a listed card, and so does `AddCard` when the entry's
number is at least four digits. `AddCardForm` keeps the invariant that its
card-number field is formatted.

## Left out

- Markup, CSS classes, icons as components, and the UI library's dialog, sheet, scroll area, badge and form components are presentation. Icons are an enumeration, and the rendered output is a record of the texts and flags that matter.
- The schema and form libraries are not modelled. What is modelled is the check chain of each field, the first failing message (the text of the month's `max(2)` check is the library's default), and the rule that the handler runs only on values that pass.
- Live re-validation and the display of error messages are not modelled.
- String lengths count Unicode scalar values, not UTF-16 code units. This changes only which message shows for input with characters outside the Basic Multilingual Plane; such input fails every pattern either way.
- `AddCardDialog.AddCardForm.BeginSubmit` requires `isSubmitting` to be false, because the disabled submit button prevents a second submit while one is under way.
- The 500 ms delay in the submit handler is the gap between `BeginSubmit` and `CompleteSubmit`; no clock is modelled. `Home.Wallet.SubmitDialog` runs the two back to back, so nothing happens in between.
- `Home.Wallet.SubmitAddCard`: it prepends the new card to the current list. The source prepends it to the list of the render in which the submit began, because the handler called after the delay is the one captured then (client/src/pages/home.tsx:62). A card removed through the details panel during the delay therefore comes back in the source, and stays removed in the model.
- The id of a new card, `Date.now().toString()`, is a parameter of `Home.Wallet.AddCard`, `Home.Wallet.SubmitAddCard` and `Home.Wallet.SubmitDialog`.
- Floating point is not modelled: amounts are exact cents. `parseFloat` loses precision above 2^53 and a float sum can round; the model has neither effect.
- `toFixed(2)` is modelled only for whole-cent amounts.
- `maxLength` attributes on the inputs are enforced by the browser and are not modelled.
- A REST backend, fetches, mutations, cache invalidation and toasts are not part of this model: the page keeps its cards in local state.
- The header, the empty-state component and the example harnesses only forward a click or show sample data. The header's and empty state's "add" click is `Home.Wallet.SetAddDialogOpen(true)`.
- `selectedCard` holds the clicked card's record. The source stores a reference to the listed object; card records are never mutated, so a value stands for that reference.
- `Home.Wallet.CardClick`: it preserves `Valid()` only when the clicked card is listed. The source calls the handler only from the list rendering, so that is always the case.
