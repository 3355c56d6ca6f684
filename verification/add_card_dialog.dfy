/**
 * The add-card dialog (client/src/components/AddCardDialog.tsx): the field
 * checks of its form schema, the card-number formatter applied on every
 * keystroke, and the submit handler that normalises the entry.
 */
module AddCardDialog {
  import opened Wrappers
  import opened Decimal

  /** JavaScript's `\s`: the ECMAScript white space and line terminator characters. */
  const Whitespace: set<char> := {
    '\t', '\n', '\U{B}', '\U{C}', '\r', ' ', '\U{A0}', '\U{1680}',
    '\U{2000}', '\U{2001}', '\U{2002}', '\U{2003}', '\U{2004}', '\U{2005}',
    '\U{2006}', '\U{2007}', '\U{2008}', '\U{2009}', '\U{200A}',
    '\U{2028}', '\U{2029}', '\U{202F}', '\U{205F}', '\U{3000}', '\U{FEFF}' }

  predicate IsWhitespace(c: char) {
    c in Whitespace
  }

  lemma DigitIsNotWhitespace(c: char)
    requires IsDigit(c)
    ensures !IsWhitespace(c)
  {
  }

  // ---------------------------------------------------------------------------
  // The regular expressions of the schema
  // ---------------------------------------------------------------------------

  /** `/^[\d\s]+$/` */
  predicate CardPattern(s: string) {
    |s| >= 1 && forall i :: 0 <= i < |s| ==> IsDigit(s[i]) || IsWhitespace(s[i])
  }

  /** `/^\d+$/` */
  predicate DigitsPattern(s: string) {
    |s| >= 1 && AllDigits(s)
  }

  /** `/^(0[1-9]|1[0-2])$/` */
  predicate MonthPattern(s: string) {
    && |s| == 2
    && ((s[0] == '0' && '1' <= s[1] <= '9') || (s[0] == '1' && '0' <= s[1] <= '2'))
  }

  /** The length of the longest run of digits at the start of `s`: what a greedy `\d+` consumes. */
  function LeadingDigits(s: string): (n: nat)
    ensures n <= |s| && AllDigits(s[..n])
    ensures n < |s| ==> !IsDigit(s[n])
  {
    if s == [] || !IsDigit(s[0]) then 0
    else
      var n := 1 + LeadingDigits(s[1..]);
      assert s[..n] == [s[0]] + s[1..][..n - 1];
      n
  }

  /** `/^\d+(\.\d{1,2})?$/`: a whole part, then optionally a dot and one or two decimals. */
  predicate BalancePattern(s: string) {
    var w := LeadingDigits(s);
    && w >= 1
    && (w == |s| || (s[w] == '.' && 2 <= |s| - w <= 3 && AllDigits(s[w + 1..])))
  }

  // ---------------------------------------------------------------------------
  // The schema: each field's checks in order; the form shows the first failure
  // ---------------------------------------------------------------------------

  function CardNumberIssue(s: string): Option<string> {
    if |s| < 16 then Some("Card number must be 16 digits")
    else if |s| > 19 then Some("Card number is too long")
    else if !CardPattern(s) then Some("Card number must contain only digits")
    else None
  }

  function CvvIssue(s: string): Option<string> {
    if |s| != 3 then Some("CVV must be 3 digits")
    else if !DigitsPattern(s) then Some("CVV must contain only digits")
    else None
  }

  /** The `max(2)` check has no message of its own; the text is the schema library's default. */
  function ExpiryMonthIssue(s: string): Option<string> {
    if |s| < 1 then Some("Required")
    else if |s| > 2 then Some("String must contain at most 2 character(s)")
    else if !MonthPattern(s) then Some("Invalid month (01-12)")
    else None
  }

  function ExpiryYearIssue(s: string): Option<string> {
    if |s| != 2 then Some("Use 2 digits (e.g., 25)")
    else if !DigitsPattern(s) then Some("Year must be digits")
    else None
  }

  function BalanceIssue(s: string): Option<string> {
    if |s| < 1 then Some("Balance is required")
    else if !BalancePattern(s) then Some("Invalid balance format")
    else None
  }

  predicate CardNumberValid(s: string) { CardNumberIssue(s).None? }
  predicate CvvValid(s: string) { CvvIssue(s).None? }
  predicate ExpiryMonthValid(s: string) { ExpiryMonthIssue(s).None? }
  predicate ExpiryYearValid(s: string) { ExpiryYearIssue(s).None? }
  predicate BalanceValid(s: string) { BalanceIssue(s).None? }

  /** The card number is accepted iff it has 16 to 19 characters, each a digit or white space. */
  lemma CardNumberAccepts(s: string)
    ensures CardNumberValid(s) <==>
      16 <= |s| <= 19 && forall i :: 0 <= i < |s| ==> IsDigit(s[i]) || IsWhitespace(s[i])
  {
  }

  /** Sixteen spaces pass the card-number check: the schema alone does not demand a single digit. */
  lemma BlankCardNumberAccepted()
    ensures CardNumberValid("                ")
  {
  }

  /** The CVV and the year are accepted iff they are exactly three, resp. two, digits. */
  lemma CvvAndYearAccept(s: string)
    ensures CvvValid(s) <==> |s| == 3 && AllDigits(s)
    ensures ExpiryYearValid(s) <==> |s| == 2 && AllDigits(s)
  {
  }

  const Months: seq<string> :=
    ["01", "02", "03", "04", "05", "06", "07", "08", "09", "10", "11", "12"]

  /** The month is accepted iff it is one of the twelve two-digit month strings. */
  lemma {:induction false} ExpiryMonthAccepts(s: string)
    ensures ExpiryMonthValid(s) <==> s in Months
  {
    if ExpiryMonthValid(s) {
      assert s == [s[0], s[1]];
    } else if s in Months {
      assert false;
    }
  }

  /** Equivalently, the month is accepted iff it is two digits whose value is 1 to 12. */
  lemma {:induction false} ExpiryMonthRange(s: string)
    ensures ExpiryMonthValid(s) <==> |s| == 2 && AllDigits(s) && 1 <= ValueOf(s) <= 12
  {
    if |s| == 2 && AllDigits(s) {
      assert s[..1] == [s[0]] && s[..1][..0] == [];
      assert ValueOf(s[..1]) == DigitValue(s[0]);
      assert ValueOf(s) == 10 * DigitValue(s[0]) + DigitValue(s[1]);
    }
  }

  /** The examples that show the month's edges. */
  lemma ExpiryMonthEdges()
    ensures !ExpiryMonthValid("1") && !ExpiryMonthValid("00") && !ExpiryMonthValid("13")
    ensures ExpiryMonthValid("01") && ExpiryMonthValid("12")
  {
  }

  /** The examples of refused balances: empty, a dot without decimals, no whole part, three decimals. */
  lemma BalanceRefusals()
    ensures !BalanceValid("") && !BalanceValid("100.") && !BalanceValid(".5") && !BalanceValid("1.234")
  {
    assert LeadingDigits("100.") == 3;
    assert LeadingDigits(".5") == 0;
    assert LeadingDigits("1.234") == 1;
  }

  /** The examples of accepted balances: no decimals, one, two. */
  lemma BalanceAcceptances()
    ensures BalanceValid("100") && BalanceValid("100.5") && BalanceValid("100.00")
  {
    assert LeadingDigits("100.5") == 3;
    assert LeadingDigits("100.00") == 3;
  }

  /** What the schema says about "123": the first failing check of the card number. */
  lemma ShortCardNumberMessage()
    ensures CardNumberIssue("123") == Some("Card number must be 16 digits")
  {
  }

  // ---------------------------------------------------------------------------
  // The balance as a number
  // ---------------------------------------------------------------------------

  /**
   * `parseFloat` of an accepted balance, exactly, in cents: the whole part
   * times 100 plus the one or two decimals (one decimal counts as tens of cents).
   */
  function ParseCents(s: string): (cents: nat)
    requires BalanceValid(s)
    ensures cents / 100 == ValueOf(s[..LeadingDigits(s)])
    ensures LeadingDigits(s) == |s| ==> cents % 100 == 0
    ensures |s| - LeadingDigits(s) == 2 ==> cents % 100 == 10 * DigitValue(s[|s| - 1])
    ensures |s| - LeadingDigits(s) == 3 ==> cents % 100 == 10 * DigitValue(s[|s| - 2]) + DigitValue(s[|s| - 1])
  {
    var w := LeadingDigits(s);
    var whole := ValueOf(s[..w]);
    if w == |s| then 100 * whole
    else if |s| - w == 2 then 100 * whole + 10 * DigitValue(s[w + 1])
    else 100 * whole + 10 * DigitValue(s[w + 1]) + DigitValue(s[w + 2])
  }

  /** Every two-decimal rendering of a balance is itself an accepted balance and parses back to it. */
  lemma {:induction false} ShowCentsParses(cents: nat)
    ensures BalanceValid(ShowCents(cents))
    ensures ParseCents(ShowCents(cents)) == cents
  {
    var r := ShowCents(cents);
    var w := LeadingDigits(r);
    var k := |r| - 3;
    assert w == k;
    assert r[w + 1..] == r[|r| - 2..];
  }

  /** "100.00" is one hundred dollars. */
  lemma ParseCentsExample()
    ensures BalanceValid("100.00") && ParseCents("100.00") == 10000
  {
    assert LeadingDigits("100.00") == 3;
    assert "100.00"[..3] == "100";
    assert ValueOf("100") == 100 by {
      assert "100"[..2] == "10" && "10"[..1] == "1" && "1"[..0] == "";
    }
  }

  // ---------------------------------------------------------------------------
  // The card-number formatter
  // ---------------------------------------------------------------------------

  /** `value.replace(/\D/g, "")`: the digits of `value`, in order. */
  function KeepDigits(s: string): (d: string)
    ensures AllDigits(d) && |d| <= |s|
    ensures AllDigits(s) ==> d == s
  {
    if s == [] then []
    else (if IsDigit(s[0]) then [s[0]] else []) + KeepDigits(s[1..])
  }

  /** `value.replace(/\s/g, "")`: everything but the white space, in order. */
  function DropWhitespace(s: string): (r: string)
    ensures |r| <= |s|
    ensures forall i :: 0 <= i < |r| ==> !IsWhitespace(r[i])
    ensures (forall i :: 0 <= i < |s| ==> IsDigit(s[i]) || IsWhitespace(s[i])) ==> AllDigits(r)
  {
    if s == [] then []
    else (if IsWhitespace(s[0]) then [] else [s[0]]) + DropWhitespace(s[1..])
  }

  /** A string of digits has no white space to drop. */
  lemma {:induction false} DropWhitespaceKeepsDigits(s: string)
    requires AllDigits(s)
    ensures DropWhitespace(s) == s
  {
    if s != [] {
      DigitIsNotWhitespace(s[0]);
      DropWhitespaceKeepsDigits(s[1..]);
      assert s == [s[0]] + s[1..];
    }
  }

  /** On digits and white space, dropping the white space is keeping the digits. */
  lemma {:induction false} DropWhitespaceIsKeepDigits(s: string)
    requires forall i :: 0 <= i < |s| ==> IsDigit(s[i]) || IsWhitespace(s[i])
    ensures DropWhitespace(s) == KeepDigits(s)
  {
    if s != [] {
      if IsDigit(s[0]) {
        DigitIsNotWhitespace(s[0]);
      }
      DropWhitespaceIsKeepDigits(s[1..]);
    }
  }

  /** The groups joined with nothing between them. */
  function Concat(groups: seq<string>): string {
    if groups == [] then "" else groups[0] + Concat(groups[1..])
  }

  /** `Array.prototype.join(sep)`. */
  function Join(groups: seq<string>, sep: string): string {
    if groups == [] then ""
    else if |groups| == 1 then groups[0]
    else groups[0] + sep + Join(groups[1..], sep)
  }

  /**
   * `digits.match(/.{1,4}/g)` on a string of digits, with the empty sequence
   * for the `null` it returns when there is nothing to match: consecutive
   * groups of four, the last one holding what is left.
   */
  function Chunks(d: string): (groups: seq<string>)
    ensures groups == [] <==> d == []
    ensures forall i :: 0 <= i < |groups| ==> 1 <= |groups[i]| <= 4
    ensures forall i :: 0 <= i < |groups| - 1 ==> |groups[i]| == 4
    ensures Concat(groups) == d
    decreases |d|
  {
    if d == [] then []
    else if |d| <= 4 then [d]
    else
      var groups := [d[..4]] + Chunks(d[4..]);
      assert groups[1..] == Chunks(d[4..]);
      groups
  }

  /** `formatCardNumber`: the digits of the input, in groups of four separated by a space. */
  function FormatCardNumber(value: string): string {
    var digits := KeepDigits(value);
    var groups := Chunks(digits);
    if groups == [] then digits else Join(groups, " ")
  }

  /** A value that formatting leaves as it is: every value the card-number field can hold. */
  predicate IsFormatted(s: string) {
    FormatCardNumber(s) == s
  }

  /**
   * The grouped digits, position by position: a space exactly at every fifth
   * position, and the `j`-th digit at position `j + j / 4`.
   */
  lemma {:induction false} GroupedLayout(d: string)
    requires d != [] && AllDigits(d)
    ensures var r := Join(Chunks(d), " ");
      && |r| == |d| + (|d| - 1) / 4
      && (forall i :: 0 <= i < |r| ==> (r[i] == ' ' <==> i % 5 == 4))
      && (forall i :: 0 <= i < |r| && i % 5 != 4 ==> r[i] == d[i - i / 5])
    decreases |d|
  {
    if |d| > 4 {
      var rest := d[4..];
      GroupedLayout(rest);
      var tail := Join(Chunks(rest), " ");
      var groups := Chunks(d);
      assert groups == [d[..4]] + Chunks(rest);
      assert groups[1..] == Chunks(rest);
      var r := Join(groups, " ");
      assert r == d[..4] + " " + tail;
      forall i | 0 <= i < |r|
        ensures (r[i] == ' ' <==> i % 5 == 4)
        ensures i % 5 != 4 ==> r[i] == d[i - i / 5]
      {
        if i >= 5 {
          assert r[i] == tail[i - 5];
          assert (i - 5) % 5 == i % 5;
          assert (i - 5) / 5 == i / 5 - 1;
        }
      }
    }
  }

  /**
   * The shape of a formatted card number: empty iff the input has no digit;
   * otherwise groups of digits separated by single spaces, every group four
   * digits long except the last, which has one to four, and no space at
   * either end.
   */
  lemma FormatShape(value: string)
    ensures var r := FormatCardNumber(value); var d := KeepDigits(value);
      && (r == "" <==> d == "")
      && |r| == (if d == "" then 0 else |d| + (|d| - 1) / 4)
      && (forall i :: 0 <= i < |r| ==> (r[i] == ' ' <==> i % 5 == 4))
      && (forall i :: 0 <= i < |r| && i % 5 != 4 ==> IsDigit(r[i]))
      && (forall i :: 0 <= i < |r| - 1 ==> r[i] != ' ' || r[i + 1] != ' ')
      && (r != "" ==> r[0] != ' ' && r[|r| - 1] != ' ')
  {
    var d := KeepDigits(value);
    if d != "" {
      GroupedLayout(d);
      var r := FormatCardNumber(value);
      assert r == Join(Chunks(d), " ");
      forall i | 0 <= i < |r| && i % 5 != 4
        ensures IsDigit(r[i])
      {
        assert r[i] == d[i - i / 5];
      }
      forall i | 0 <= i < |r| - 1
        ensures r[i] != ' ' || r[i + 1] != ' '
      {
        NoTwoSpacePositions(i);
      }
      LastPositionNotSpace(|d|);
    }
  }

  lemma NoTwoSpacePositions(i: nat)
    ensures i % 5 != 4 || (i + 1) % 5 != 4
  {
  }

  /** With n digits grouped, the last position is never a space position. */
  lemma LastPositionNotSpace(n: nat)
    requires n >= 1
    ensures (n - 1 + (n - 1) / 4) % 5 != 4
  {
    var m := n - 1;
    var q, t := m / 4, m % 4;
    assert m == 4 * q + t;
    assert m + q == 5 * q + t;
    assert (5 * q + t) % 5 == t;
  }

  lemma {:induction false} KeepDigitsAppend(a: string, b: string)
    ensures KeepDigits(a + b) == KeepDigits(a) + KeepDigits(b)
    decreases |a|
  {
    if a == [] {
      assert a + b == b;
    } else {
      assert (a + b)[1..] == a[1..] + b;
      KeepDigitsAppend(a[1..], b);
    }
  }

  lemma {:induction false} DropWhitespaceAppend(a: string, b: string)
    ensures DropWhitespace(a + b) == DropWhitespace(a) + DropWhitespace(b)
    decreases |a|
  {
    if a == [] {
      assert a + b == b;
    } else {
      var ab := a + b;
      assert ab[0] == a[0] && ab[1..] == a[1..] + b;
      DropWhitespaceAppend(a[1..], b);
      var head := if IsWhitespace(a[0]) then [] else [a[0]];
      assert DropWhitespace(ab) == head + DropWhitespace(ab[1..]);
      assert DropWhitespace(a) == head + DropWhitespace(a[1..]);
    }
  }

  /** Removing the spaces from the grouped digits gives back the digits, and so does keeping the digits. */
  lemma {:induction false} GroupedDigitsRecovered(d: string)
    requires d != [] && AllDigits(d)
    ensures DropWhitespace(Join(Chunks(d), " ")) == d
    ensures KeepDigits(Join(Chunks(d), " ")) == d
    decreases |d|
  {
    if |d| <= 4 {
      assert Chunks(d) == [d];
      DropWhitespaceKeepsDigits(d);
    } else {
      var head, rest := d[..4], d[4..];
      GroupedDigitsRecovered(rest);
      var groups := Chunks(d);
      assert groups[1..] == Chunks(rest);
      var tail := Join(Chunks(rest), " ");
      assert Join(groups, " ") == (head + " ") + tail;
      assert d == head + rest;
      KeepDigitsAppend(head + " ", tail);
      KeepDigitsAppend(head, " ");
      assert KeepDigits(" ") == "";
      assert KeepDigits(head) == head;
      DropWhitespaceAppend(head + " ", tail);
      DropWhitespaceAppend(head, " ");
      assert ' ' in Whitespace;
      assert DropWhitespace(" ") == "";
      DropWhitespaceKeepsDigits(head);
    }
  }

  /** Removing the spaces from a formatted card number yields exactly the digits of the input, in order. */
  lemma FormatThenStrip(value: string)
    ensures DropWhitespace(FormatCardNumber(value)) == KeepDigits(value)
    ensures KeepDigits(FormatCardNumber(value)) == KeepDigits(value)
  {
    var d := KeepDigits(value);
    if d != [] {
      GroupedDigitsRecovered(d);
    }
  }

  /** Formatting is idempotent: a formatted value is left as it is. */
  lemma FormatIdempotent(value: string)
    ensures FormatCardNumber(FormatCardNumber(value)) == FormatCardNumber(value)
    ensures IsFormatted(FormatCardNumber(value))
  {
    FormatThenStrip(value);
  }

  /** A formatted card number passes the card-number check iff it holds 13 to 16 digits. */
  lemma FormattedCardNumberAccepts(value: string)
    ensures CardNumberValid(FormatCardNumber(value)) <==> 13 <= |KeepDigits(value)| <= 16
  {
    FormatShape(value);
  }

  // ---------------------------------------------------------------------------
  // The form and its submit handler
  // ---------------------------------------------------------------------------

  /** The five text fields of the form, as typed. */
  datatype FormData = FormData(
    cardNumber: string,
    cvv: string,
    expiryMonth: string,
    expiryYear: string,
    balance: string)

  /** The form's default values, which `reset` restores. */
  const EmptyForm: FormData := FormData("", "", "", "", "")

  datatype Field = CardNumberField | CvvField | ExpiryMonthField | ExpiryYearField | BalanceField

  /** The entry handed to `onAddCard`, with the balance in cents. */
  datatype Submission = Submission(
    cardNumber: string,
    cvv: string,
    expiryMonth: string,
    expiryYear: string,
    balance: nat)

  /** The form passes its schema: every field passes its own checks. */
  predicate FormValid(data: FormData) {
    && CardNumberValid(data.cardNumber)
    && CvvValid(data.cvv)
    && ExpiryMonthValid(data.expiryMonth)
    && ExpiryYearValid(data.expiryYear)
    && BalanceValid(data.balance)
  }

  function WithField(data: FormData, field: Field, text: string): (r: FormData)
    ensures field == CardNumberField ==> r == data.(cardNumber := text)
    ensures field == CvvField ==> r == data.(cvv := text)
    ensures field == ExpiryMonthField ==> r == data.(expiryMonth := text)
    ensures field == ExpiryYearField ==> r == data.(expiryYear := text)
    ensures field == BalanceField ==> r == data.(balance := text)
  {
    match field
    case CardNumberField => data.(cardNumber := text)
    case CvvField => data.(cvv := text)
    case ExpiryMonthField => data.(expiryMonth := text)
    case ExpiryYearField => data.(expiryYear := text)
    case BalanceField => data.(balance := text)
  }

  /**
   * What `onSubmit` passes to `onAddCard`: the card number without its white
   * space, the CVV and expiry as entered, and the balance as a number.
   */
  function Normalise(data: FormData): (p: Submission)
    requires FormValid(data)
    ensures p.cardNumber == KeepDigits(data.cardNumber)
    ensures AllDigits(p.cardNumber) && |p.cardNumber| <= |data.cardNumber|
    ensures forall i :: 0 <= i < |p.cardNumber| ==> !IsWhitespace(p.cardNumber[i])
    ensures IsFormatted(data.cardNumber) ==> 13 <= |p.cardNumber| <= 16
    ensures p.cvv == data.cvv && p.expiryMonth == data.expiryMonth && p.expiryYear == data.expiryYear
    ensures p.balance == ParseCents(data.balance)
    ensures BalanceValid(ShowCents(p.balance)) && ParseCents(ShowCents(p.balance)) == p.balance
  {
    CardNumberAccepts(data.cardNumber);
    DropWhitespaceIsKeepDigits(data.cardNumber);
    ShowCentsParses(ParseCents(data.balance));
    FormatThenStrip(data.cardNumber);
    FormattedCardNumberAccepts(data.cardNumber);
    Submission(
      cardNumber := DropWhitespace(data.cardNumber),
      cvv := data.cvv,
      expiryMonth := data.expiryMonth,
      expiryYear := data.expiryYear,
      balance := ParseCents(data.balance))
  }

  /**
   * The dialog's own state: the form's values and `isSubmitting`. Whether the
   * dialog is open belongs to the page that shows it.
   */
  class AddCardForm {
    var values: FormData
    var isSubmitting: bool

    /** The card-number field only ever holds a formatted value. */
    ghost predicate Valid()
      reads this
    {
      IsFormatted(values.cardNumber)
    }

    constructor ()
      ensures Valid()
      ensures values == EmptyForm && !isSubmitting
      ensures SubmitButton() == (false, "Add Card")
    {
      values := EmptyForm;
      isSubmitting := false;
    }

    /**
     * The submit button: whether it is disabled, and its label. It is disabled
     * exactly while a submission is under way, and the label says so.
     */
    function SubmitButton(): (button: (bool, string))
      reads this
      ensures button.0 <==> isSubmitting
      ensures button.1 == "Adding..." <==> button.0
      ensures button.1 == "Add Card" <==> !button.0
    {
      (isSubmitting, if isSubmitting then "Adding..." else "Add Card")
    }

    /** A field's `onChange`: the card number is reformatted as it is typed, the others are kept as typed. */
    method Edit(field: Field, input: string)
      requires Valid()
      modifies this
      ensures Valid() && isSubmitting == old(isSubmitting)
      ensures field == CardNumberField ==> values == old(values).(cardNumber := FormatCardNumber(input))
      ensures field != CardNumberField ==> values == WithField(old(values), field, input)
    {
      if field == CardNumberField {
        FormatIdempotent(input);
        values := values.(cardNumber := FormatCardNumber(input));
      } else {
        values := WithField(values, field, input);
      }
    }

    /**
     * The form's submit: the values are checked against the schema, and only
     * if every field passes does the handler start, setting `isSubmitting`. It
     * returns the values the handler received.
     */
    method BeginSubmit() returns (data: Option<FormData>)
      requires Valid() && !isSubmitting
      modifies this
      ensures Valid() && values == old(values)
      ensures data.Some? <==> FormValid(values)
      ensures data.Some? ==> data.value == values && isSubmitting
      ensures data.None? ==> !isSubmitting
      ensures data.Some? ==> SubmitButton() == (true, "Adding...")
      ensures data.None? ==> SubmitButton() == (false, "Add Card")
    {
      if FormValid(values) {
        data := Some(values);
        isSubmitting := true;
      } else {
        data := None;
      }
    }

    /**
     * The rest of the handler once the delay is over: the normalised entry is
     * handed on, the form is reset and `isSubmitting` cleared. Closing the
     * dialog is the page's part (Home.Wallet.SubmitAddCard).
     */
    method CompleteSubmit(data: FormData) returns (entry: Submission)
      requires FormValid(data)
      modifies this
      ensures entry == Normalise(data)
      ensures Valid() && values == EmptyForm && !isSubmitting
      ensures SubmitButton() == (false, "Add Card")
    {
      entry := Normalise(data);
      values := EmptyForm;
      isSubmitting := false;
    }
  }
}
