/** The donation form `PaymentOptions`: a preset or custom amount, the
    custom amount's character filter, the amount check, the donation record
    it inserts and the PayPal link it opens. */
module PaymentOptions {
  import opened Common

  const DefaultAmount: real := 5.0
  const Currency: string := "USD"
  const AnonymousDonor: string := "Anonymous"
  const InvalidAmountAlert: string := "Please enter a valid donation amount"
  const PayPalUsername: string := "YourPayPalUsername"

  /** The component's props: the page donated to and its title, both optional. */
  datatype Props = Props(pageId: Option<Id>, pageTitle: Option<string>)

  /** The props of a bare `<PaymentOptions />`, as both donation pages render it. */
  function BareProps(): (p: Props)
    ensures p.pageId.None? && p.pageTitle.None?
  {
    Props(None, None)
  }

  /** The characters `[0-9.]` the custom amount input keeps. */
  predicate IsAmountChar(c: char)
  {
    '0' <= c <= '9' || c == '.'
  }

  /** `value.replace(/[^0-9.]/g, '')`. */
  function FilterAmountChars(s: string): (r: string)
    ensures |r| <= |s|
    ensures forall i :: 0 <= i < |r| ==> IsAmountChar(r[i])
    decreases |s|
  {
    if s == [] then []
    else (if IsAmountChar(s[0]) then [s[0]] else []) + FilterAmountChars(s[1..])
  }

  /** The filter works character by character and keeps the survivors in
      their original order: filtering a concatenation is concatenating the
      filtered parts. */
  lemma {:induction false} FilterDistributes(a: string, b: string)
    ensures FilterAmountChars(a + b) == FilterAmountChars(a) + FilterAmountChars(b)
    decreases |a|
  {
    if a == [] {
      assert a + b == b;
    } else {
      assert (a + b)[0] == a[0];
      assert (a + b)[1..] == a[1..] + b;
      FilterDistributes(a[1..], b);
    }
  }

  /** One character survives exactly when it is a digit or a dot. */
  lemma FilterSingle(c: char)
    ensures FilterAmountChars([c]) == if IsAmountChar(c) then [c] else []
  {
    assert [c][1..] == [];
  }

  /** A string made only of digits and dots is left as it is. */
  lemma {:induction false} FilterKeepsClean(s: string)
    requires forall i :: 0 <= i < |s| ==> IsAmountChar(s[i])
    ensures FilterAmountChars(s) == s
    decreases |s|
  {
    if s != [] {
      assert IsAmountChar(s[0]);
      FilterKeepsClean(s[1..]);
    }
  }

  /** Filtering twice is filtering once. */
  lemma FilterIdempotent(s: string)
    ensures FilterAmountChars(FilterAmountChars(s)) == FilterAmountChars(s)
  {
    FilterKeepsClean(FilterAmountChars(s));
  }

  /** No digit or dot is lost and no other character is kept. */
  lemma {:induction false} FilterCounts(s: string, c: char)
    ensures multiset(FilterAmountChars(s))[c] == if IsAmountChar(c) then multiset(s)[c] else 0
    decreases |s|
  {
    if s != [] {
      FilterCounts(s[1..], c);
      assert s == [s[0]] + s[1..];
      assert multiset(s) == multiset([s[0]]) + multiset(s[1..]);
    }
  }

  /** `showCustomAmount ? parseFloat(customAmount) : amount`; `parse` stands
      for `parseFloat` and answers `None` where it gives `NaN`. */
  function FinalAmount(showCustomAmount: bool, customAmount: string, amount: real,
                       parse: string -> Option<real>): (r: Option<real>)
    ensures !showCustomAmount ==> r == Some(amount)
    ensures showCustomAmount ==> r == parse(customAmount)
  {
    if showCustomAmount then parse(customAmount) else Some(amount)
  }

  /** The amount passes `!(isNaN(finalAmount) || finalAmount <= 0)`. */
  predicate IsValidAmount(a: Option<real>)
  {
    a.Some? && a.value > 0.0
  }

  /** A row of the donations table as the form inserts it. */
  datatype Donation = Donation(pageId: Id, amount: real, donorName: string, message: string, currency: string)

  /** The record `recordDonation` inserts: an empty donor name becomes
      "Anonymous" and the currency is always US dollars. */
  function DonationRecord(pageId: Id, amount: real, donorName: string, message: string): (d: Donation)
    ensures d.pageId == pageId && d.amount == amount && d.message == message
    ensures d.currency == "USD"
    ensures donorName == "" ==> d.donorName == AnonymousDonor
    ensures donorName != "" ==> d.donorName == donorName
  {
    Donation(pageId, amount, OrElse(donorName, AnonymousDonor), message, Currency)
  }

  /** What one run of `recordDonation` does: its return value (`None` for
      `undefined`), the row it inserts and the alert it raised, if any. */
  datatype RecordStep = RecordStep(result: Option<bool>, insert: Option<Donation>, alert: Option<string>)

  /** `recordDonation`, given the amount it computes and the insert's outcome. */
  function RecordDonation(pageId: Option<Id>, finalAmount: Option<real>, donorName: string,
                          message: string, outcome: WriteOutcome): (r: RecordStep)
    ensures r.result.None? <==> pageId.None?
    ensures r.alert.Some? <==> pageId.Some? && !IsValidAmount(finalAmount)
    ensures r.alert.Some? ==> r.alert.value == InvalidAmountAlert
    ensures r.insert.Some? <==> pageId.Some? && IsValidAmount(finalAmount)
    ensures r.insert.Some? ==>
              r.insert.value == DonationRecord(pageId.value, finalAmount.value, donorName, message)
    ensures r.result == Some(true) <==> r.insert.Some? && outcome.Written?
  {
    if pageId.None? then RecordStep(None, None, None)
    else if !IsValidAmount(finalAmount) then RecordStep(Some(false), None, Some(InvalidAmountAlert))
    else
      var row := DonationRecord(pageId.value, finalAmount.value, donorName, message);
      RecordStep(Some(outcome.Written?), Some(row), None)
  }

  /** The PayPal.me link for an amount, given the amount as the browser prints it. */
  function PayPalLink(amountText: string): string
  {
    "https://www.paypal.me/" + PayPalUsername + "/" + amountText
  }

  /** What a click on "Donate with PayPal" does outside the form. */
  datatype DonationEffects = DonationEffects(alert: Option<string>, insert: Option<Donation>, paypalUrl: Option<string>)

  /** `handlePayPalDonation`: check the amount, record the donation, and open
      PayPal only when `recordDonation` returned `true`. `format` stands for
      the browser's number-to-text conversion. */
  function PayPalDonation(pageId: Option<Id>, finalAmount: Option<real>, donorName: string,
                          message: string, outcome: WriteOutcome, format: real -> string): (e: DonationEffects)
    ensures !IsValidAmount(finalAmount) ==> e == DonationEffects(Some(InvalidAmountAlert), None, None)
    ensures e.alert.Some? <==> !IsValidAmount(finalAmount)
    ensures pageId.None? ==> e.insert.None? && e.paypalUrl.None?
    ensures e.insert.Some? <==> pageId.Some? && IsValidAmount(finalAmount)
    ensures e.insert.Some? ==>
              e.insert.value == DonationRecord(pageId.value, finalAmount.value, donorName, message)
    ensures e.paypalUrl.Some? <==> e.insert.Some? && outcome.Written?
    ensures e.paypalUrl.Some? ==> e.paypalUrl.value == PayPalLink(format(finalAmount.value))
  {
    if !IsValidAmount(finalAmount) then DonationEffects(Some(InvalidAmountAlert), None, None)
    else
      var step := RecordDonation(pageId, finalAmount, donorName, message, outcome);
      DonationEffects(step.alert, step.insert,
                      if step.result == Some(true) then Some(PayPalLink(format(finalAmount.value))) else None)
  }

  /** A bare panel never donates: even a valid amount whose insert would
      succeed gets no record, no alert and no PayPal link. */
  lemma BarePanelNeverDonates(amount: real, donorName: string, message: string, format: real -> string)
    requires amount > 0.0
    ensures PayPalDonation(BareProps().pageId, Some(amount), donorName, message, Written, format)
            == DonationEffects(None, None, None)
  {
  }

  /** The form's state cells. */
  class PaymentForm {
    const props: Props
    var amount: real
    var customAmount: string
    var showCustomAmount: bool
    var donorName: string
    var message: string
    var isProcessing: bool

    constructor (props: Props)
      ensures this.props == props
      ensures amount == DefaultAmount && customAmount == "" && !showCustomAmount
      ensures donorName == "" && message == "" && !isProcessing
    {
      this.props := props;
      amount := DefaultAmount;
      customAmount := "";
      showCustomAmount := false;
      donorName := "";
      message := "";
      isProcessing := false;
    }

    /** `handleAmountSelect`: a preset button was clicked. */
    method SelectAmount(value: real)
      modifies this`amount, this`showCustomAmount
      ensures amount == value && !showCustomAmount
    {
      amount := value;
      showCustomAmount := false;
    }

    /** `handleCustomAmountToggle`: shows the custom input; the preset stays. */
    method ToggleCustomAmount()
      modifies this`showCustomAmount
      ensures showCustomAmount
    {
      showCustomAmount := true;
    }

    /** `handleCustomAmountChange`: keeps only digits and dots of the input. */
    method ChangeCustomAmount(input: string)
      modifies this`customAmount
      ensures customAmount == FilterAmountChars(input)
    {
      customAmount := FilterAmountChars(input);
    }

    method ChangeDonorName(input: string)
      modifies this`donorName
      ensures donorName == input
    {
      donorName := input;
    }

    method ChangeMessage(input: string)
      modifies this`message
      ensures message == input
    {
      message := input;
    }

    /** The amount a donation would use now. */
    function EffectiveAmount(parse: string -> Option<real>): Option<real>
      reads this
    {
      FinalAmount(showCustomAmount, customAmount, amount, parse)
    }

    /** `handlePayPalDonation`, with the insert's outcome given; `isProcessing`
        is back to false when it returns. */
    method HandlePayPalDonation(parse: string -> Option<real>, format: real -> string,
                                outcome: WriteOutcome) returns (effects: DonationEffects)
      modifies this`isProcessing
      ensures effects == PayPalDonation(props.pageId, old(EffectiveAmount(parse)), donorName, message, outcome, format)
      ensures !isProcessing
    {
      isProcessing := true;
      var finalAmount := if showCustomAmount then parse(customAmount) else Some(amount);
      if finalAmount.None? || finalAmount.value <= 0.0 {
        effects := DonationEffects(Some(InvalidAmountAlert), None, None);
        isProcessing := false;
        return;
      }
      var step := RecordDonation(props.pageId, finalAmount, donorName, message, outcome);
      var paypalUrl := None;
      if step.result == Some(true) {
        paypalUrl := Some(PayPalLink(format(finalAmount.value)));
      }
      effects := DonationEffects(step.alert, step.insert, paypalUrl);
      isProcessing := false;
    }
  }
}
