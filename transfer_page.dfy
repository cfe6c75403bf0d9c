/** The transfer page: the step machine details -> otp -> success with the
    otp -> details back edge, the form values the details step edits, the
    recipient-name state, the mounted OTP step, and the receipt the success
    dialog shows. */
module TransferFlow {
  import opened Wrappers
  import opened TransferSchema
  import opened TransferDetails
  import opened TransferOtp
  import opened DecimalText

  datatype Step = Details | Otp | Success

  /** What the success dialog shows (apart from its random reference). */
  datatype Receipt = Receipt(amount: JsNumber, recipientName: Option<string>, bank: Option<string>, accountNumber: string)

  const TransactionsRoute: string := "/transactions"

  class TransferPage {
    const banks: seq<string>
    var step: Step
    var form: TransferForm
    const lookup: RecipientLookup
    var challenge: OtpChallenge?
    var navigation: Option<string>

    /** The details form is mounted exactly in the details step and watches
        the form values; the OTP step exists exactly in the otp step; past
        the details step the form is valid, a name is present, and the
        account number and bank are the ones that name was looked up for. */
    ghost predicate Valid()
      reads this, lookup, challenge
    {
      lookup.Valid() &&
      (lookup.mounted <==> step == Details) &&
      (lookup.mounted ==> lookup.input == (form.accountNumber, form.bank)) &&
      (step == Otp <==> challenge != null) &&
      (challenge != null ==> challenge.Valid()) &&
      (step != Details ==>
         FormValid(form) && Truthy(lookup.recipientName) && Resolvable(form.accountNumber, form.bank))
    }

    /** The Next button of the details step is enabled. */
    predicate NextEnabled()
      reads this, lookup
    {
      !NextDisabled(FormValid(form), lookup.recipientName, lookup.isLoadingName)
    }

    /** A new page: details step, empty account number and amount, no bank,
        no name, not loading; the details form mounts and its effect runs. */
    constructor (banks: seq<string>, names: seq<string>)
      requires |banks| > 0 && |names| > 0
      ensures Valid() && fresh(lookup)
      ensures this.banks == banks && lookup.names == names
      ensures step == Details && form == TransferForm(None, "", "")
      ensures lookup.recipientName == None && !lookup.isLoadingName
      ensures challenge == null && navigation == None
    {
      this.banks := banks;
      step := Details;
      form := TransferForm(None, "", "");
      challenge := null;
      navigation := None;
      lookup := new RecipientLookup(names);
      new;
      lookup.Mount("", None);
    }

    /** The form values change while on the details step; the details form re-renders. */
    method ChangeForm(f: TransferForm)
      requires Valid()
      modifies this, lookup
      ensures Valid() && step == old(step) && challenge == old(challenge) && navigation == old(navigation)
      ensures old(step) != Details ==> form == old(form) && unchanged(lookup)
      ensures old(step) == Details ==> form == f
      ensures old(step) == Details && (f.accountNumber, f.bank) == (old(form).accountNumber, old(form).bank) ==>
                unchanged(lookup)
      ensures old(step) == Details && (f.accountNumber, f.bank) != (old(form).accountNumber, old(form).bank) ==>
                lookup.RanEffect(f.accountNumber, f.bank)
    {
      if step == Details {
        form := f;
        lookup.Render(f.accountNumber, f.bank);
      }
    }

    /** A bank is picked from the list. */
    method SelectBank(b: string)
      requires Valid() && b in banks
      modifies this, lookup
      ensures Valid() && step == old(step) && navigation == old(navigation) && challenge == old(challenge)
      ensures old(step) == Details ==> form == old(form).(bank := Some(b))
      ensures old(step) == Details && Some(b) != old(form).bank ==> lookup.RanEffect(form.accountNumber, form.bank)
      ensures old(step) == Details && Some(b) == old(form).bank ==> unchanged(lookup)
      ensures old(step) != Details ==> form == old(form) && unchanged(lookup)
    {
      ChangeForm(form.(bank := Some(b)));
    }

    /** The account number field changes. */
    method EditAccountNumber(s: string)
      requires Valid()
      modifies this, lookup
      ensures Valid() && step == old(step) && navigation == old(navigation) && challenge == old(challenge)
      ensures old(step) == Details ==> form == old(form).(accountNumber := s)
      ensures old(step) == Details && s != old(form).accountNumber ==> lookup.RanEffect(form.accountNumber, form.bank)
      ensures old(step) == Details && s == old(form).accountNumber ==> unchanged(lookup)
      ensures old(step) != Details ==> form == old(form) && unchanged(lookup)
    {
      ChangeForm(form.(accountNumber := s));
    }

    /** The amount field changes: the lookup is neither re-triggered nor cancelled. */
    method EditAmount(s: string)
      requires Valid()
      modifies this, lookup
      ensures Valid() && step == old(step) && navigation == old(navigation) && challenge == old(challenge) && unchanged(lookup)
      ensures old(step) == Details ==> form == old(form).(amount := s)
      ensures old(step) != Details ==> form == old(form)
    {
      ChangeForm(form.(amount := s));
    }

    /** A lookup timer fires. */
    method LookupTimerFires(id: nat)
      requires Valid()
      modifies lookup
      ensures Valid()
      ensures old(lookup.armed) && id == old(lookup.generation) ==>
                lookup.recipientName.Some? && lookup.recipientName.value in lookup.names &&
                !lookup.isLoadingName && !lookup.armed
      ensures !(old(lookup.armed) && id == old(lookup.generation)) ==> unchanged(lookup)
    {
      lookup.TimerFires(id);
    }

    /** Next (or Enter) on the details step: the form is validated, then
        `onDetailsSubmit` moves on only when a name is present. The step
        changes exactly when Next is enabled; the form and name are kept. */
    method SubmitDetails()
      requires Valid()
      modifies this, lookup
      ensures Valid() && form == old(form) && navigation == old(navigation)
      ensures lookup.recipientName == old(lookup.recipientName)
      ensures old(step) == Details ==>
                (step == Otp <==> !NextDisabled(FormValid(old(form)), old(lookup.recipientName), old(lookup.isLoadingName)))
      ensures old(step) == Details && step == Otp ==>
                fresh(challenge) && challenge.otp == "" && challenge.timeLeft == CountdownStart &&
                !challenge.isProcessing
      ensures step != Otp || old(step) != Details ==> step == old(step)
      ensures step == old(step) ==> unchanged(this) && unchanged(lookup)
    {
      if step == Details && !NextDisabled(FormValid(form), lookup.recipientName, lookup.isLoadingName) {
        if FormValid(form) {                      // form.handleSubmit
          if Truthy(lookup.recipientName) {       // onDetailsSubmit
            step := Otp;
            lookup.Unmount();
            challenge := new OtpChallenge();
          }
        }
      }
    }

    /** A change in the code field of the OTP step. */
    method OtpInput(raw: string)
      requires Valid()
      modifies challenge
      ensures Valid() && step == old(step)
      ensures step == Otp ==>
                challenge.otp == Sanitize(raw) && challenge.isProcessing == old(challenge.isProcessing) &&
                challenge.processingArmed == old(challenge.processingArmed) &&
                challenge.timeLeft == old(challenge.timeLeft)
    {
      if step == Otp {
        challenge.Input(raw);
      }
    }

    /** One second passes on the OTP step. */
    method OtpTick()
      requires Valid()
      modifies challenge
      ensures Valid() && step == old(step)
      ensures step == Otp ==>
                challenge.timeLeft == (if old(challenge.timeLeft) > 0 then old(challenge.timeLeft) - 1 else 0) &&
                challenge.otp == old(challenge.otp) && challenge.isProcessing == old(challenge.isProcessing) &&
                challenge.processingArmed == old(challenge.processingArmed)
    {
      if step == Otp {
        challenge.Tick();
      }
    }

    /** Send on the OTP step. */
    method OtpSend()
      requires Valid()
      modifies challenge
      ensures Valid() && step == old(step)
      ensures step == Otp ==>
                challenge.isProcessing ==
                (old(challenge.isProcessing) ||
                 !SendDisabled(old(challenge.otp), old(challenge.isProcessing), old(challenge.timeLeft))) &&
                challenge.otp == old(challenge.otp) && challenge.timeLeft == old(challenge.timeLeft)
    {
      if step == Otp {
        challenge.Send();
      }
    }

    /** The processing timer of the OTP step fires: processing ends and
        `onComplete` (`handleOtpComplete`) moves to the success step. */
    method OtpProcessingDone()
      requires Valid()
      modifies this, challenge
      ensures Valid() && form == old(form) && navigation == old(navigation)
      ensures old(step) == Otp && old(challenge.processingArmed) ==> step == Success && challenge == null
      ensures !(old(step) == Otp && old(challenge.processingArmed)) ==>
                unchanged(this) && (old(challenge) != null ==> unchanged(old(challenge)))
    {
      if step == Otp {
        var completed := challenge.ProcessingDone();
        if completed {
          step := Success;
          challenge := null;
        }
      }
    }

    /** Cancel on the OTP step (`onBack`): back to details with the form and
        name kept and the OTP step discarded. The details form mounts again,
        so its effect runs on the kept values; they are resolvable, so the
        name stays and a new lookup starts. */
    method Cancel()
      requires Valid()
      modifies this, lookup, challenge
      ensures Valid() && form == old(form) && navigation == old(navigation)
      ensures old(step) == Otp && !CancelDisabled(old(challenge.isProcessing)) ==>
                step == Details && challenge == null && lookup.RanEffect(form.accountNumber, form.bank) &&
                lookup.recipientName == old(lookup.recipientName)
      ensures !(old(step) == Otp && !CancelDisabled(old(challenge.isProcessing))) ==>
                unchanged(this) && unchanged(lookup) && (old(challenge) != null ==> unchanged(old(challenge)))
    {
      if step == Otp && !CancelDisabled(challenge.isProcessing) {
        step := Details;
        challenge := null;
        lookup.Mount(form.accountNumber, form.bank);
      }
    }

    /** Done on the success dialog: navigate to the transactions list. */
    method Close()
      requires Valid()
      modifies this
      ensures Valid() && step == old(step) && form == old(form)
      ensures navigation == if old(step) == Success then Some(TransactionsRoute) else old(navigation)
    {
      if step == Success {
        navigation := Some(TransactionsRoute);
      }
    }

    /** The success dialog's fields, read from the form and the name state.
        On the success step they are the captured, validated values. */
    function ShownReceipt(): (r: Receipt)
      reads this, lookup, challenge
      requires Valid()
      ensures step == Success ==>
                r.amount.Num? && r.amount.value > 0.0 &&
                Truthy(r.recipientName) && r.bank.Some? && AccountNumberValid(r.accountNumber)
    {
      Receipt(ToNumber(form.amount), lookup.recipientName, form.bank, form.accountNumber)
    }
  }

  /** The details step of a whole transfer: a new page, the first bank
      picked, a valid account number and amount typed, the lookup completed
      and Next pressed. */
  method FillDetails(banks: seq<string>, names: seq<string>, account: string, amount: string)
    returns (page: TransferPage)
    requires |banks| > 0 && banks[0] != "" && |names| > 0
    requires forall n :: n in names ==> n != ""
    requires AccountNumberValid(account) && AmountValid(amount)
    ensures fresh(page) && fresh(page.lookup) && fresh(page.challenge) && page.Valid()
    ensures page.step == Otp && page.form == TransferForm(Some(banks[0]), account, amount)
    ensures page.lookup.recipientName.Some? && page.lookup.recipientName.value in names
    ensures page.challenge.otp == "" && !page.challenge.isProcessing && page.challenge.timeLeft == CountdownStart
    ensures page.navigation == None
  {
    page := new TransferPage(banks, names);
    page.SelectBank(banks[0]);
    page.EditAccountNumber(account);
    assert page.lookup.armed;
    page.EditAmount(amount);
    assert page.form == TransferForm(Some(banks[0]), account, amount);
    page.LookupTimerFires(page.lookup.generation);
    assert page.lookup.recipientName.value in names;
    assert page.NextEnabled();
    page.SubmitDetails();
  }

  /** A whole transfer: the details step as above, then a six-digit code
      typed and sent, processing completed, and Done pressed. The receipt
      shows the amount, bank and account number typed in, and a name from
      the list; the page then goes to the transactions list. */
  method HappyPath(banks: seq<string>, names: seq<string>, account: string, amount: string, code: string)
    returns (receipt: Receipt, stepReached: Step, navigatedTo: Option<string>)
    requires |banks| > 0 && banks[0] != "" && |names| > 0
    requires forall n :: n in names ==> n != ""
    requires AccountNumberValid(account) && AmountValid(amount)
    requires |code| == OtpLength && AllDigits(code)
    ensures stepReached == Success
    ensures receipt.amount == ToNumber(amount) && receipt.bank == Some(banks[0]) && receipt.accountNumber == account
    ensures receipt.recipientName.Some? && receipt.recipientName.value in names
    ensures navigatedTo == Some(TransactionsRoute)
  {
    var page := FillDetails(banks, names, account, amount);
    SanitizeFixesExactlyShortDigitStrings(code);
    page.OtpInput(code);
    assert !SendDisabled(page.challenge.otp, page.challenge.isProcessing, page.challenge.timeLeft);
    page.OtpSend();
    assert page.challenge.processingArmed;
    page.OtpProcessingDone();
    receipt := page.ShownReceipt();
    stepReached := page.step;
    page.Close();
    navigatedTo := page.navigation;
  }
}
