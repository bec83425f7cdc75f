/**
 * The two-step booking form (src/components/BookingForm.jsx): step 1 takes
 * the renter's details, step 2 the payment method and the terms checkbox.
 * Each step boundary is guarded by a validator that replaces the form's
 * `errors` with exactly the failing fields; submission builds a booking
 * record priced at unit price times duration.
 */
module Booking {
  import opened JsRuntime
  import opened Listing

  // ---------------------------------------------------------------------
  // The e-mail shape `/\S+@\S+\.\S+/`, unanchored
  // ---------------------------------------------------------------------

  /**
   * The pattern matches `s` with its "@" at `at` and its literal "." at
   * `dot`: a non-space character right before the "@", only non-space
   * characters (at least one) between the "@" and the ".", and a non-space
   * character right after the ".". Longer `\S+` runs add nothing, since the
   * pattern is not anchored.
   */
  ghost predicate EmailMatch(s: string, at: int, dot: int) {
    0 < at && at + 1 < dot && dot + 1 < |s|
    && s[at] == '@' && s[dot] == '.'
    && !IsSpace(s[at - 1]) && !IsSpace(s[dot + 1])
    && forall k :: at < k < dot ==> !IsSpace(s[k])
  }

  ghost predicate EmailShaped(s: string) {
    exists at, dot :: EmailMatch(s, at, dot)
  }

  /** A "." at `dot` at or after `j`, with only non-space characters from `j` up to it. */
  ghost predicate DotAt(s: string, j: int, dot: int) {
    0 <= j <= dot && dot + 1 < |s| && s[dot] == '.' && !IsSpace(s[dot + 1])
    && forall k :: j <= k < dot ==> !IsSpace(s[k])
  }

  /** Scans forward from `j` over non-space characters for a "." followed by a non-space character. */
  function DotAhead(s: string, j: nat): bool
    requires j <= |s|
    decreases |s| - j
  {
    if j + 1 >= |s| then false
    else if s[j] == '.' && !IsSpace(s[j + 1]) then true
    else if IsSpace(s[j]) then false
    else DotAhead(s, j + 1)
  }

  /** Tries every "@" at index `i` or later as the pattern's "@". */
  function MatchFrom(s: string, i: nat): bool
    requires i <= |s|
    decreases |s| - i
  {
    if i + 2 >= |s| then false
    else (0 < i && s[i] == '@' && !IsSpace(s[i - 1]) && !IsSpace(s[i + 1]) && DotAhead(s, i + 2))
         || MatchFrom(s, i + 1)
  }

  /**
   * `/\S+@\S+\.\S+/.test(s)`: it accepts exactly the strings the pattern
   * matches somewhere.
   */
  predicate EmailTest(s: string)
    ensures EmailTest(s) <==> EmailShaped(s)
  {
    MatchFromIff(s, 0);
    MatchFrom(s, 0)
  }

  lemma {:induction false} DotAheadIff(s: string, j: nat)
    requires j <= |s|
    ensures DotAhead(s, j) <==> exists dot :: DotAt(s, j, dot)
    decreases |s| - j
  {
    if j + 1 >= |s| {
    } else if s[j] == '.' && !IsSpace(s[j + 1]) {
      assert DotAt(s, j, j);
    } else if IsSpace(s[j]) {
    } else {
      var next := j + 1;
      DotAheadIff(s, next);
      if dot :| DotAt(s, j, dot) {
        assert dot != j;
        assert DotAt(s, next, dot);
      }
      if dot :| DotAt(s, next, dot) {
        assert DotAt(s, j, dot);
      }
    }
  }

  lemma MatchAtIff(s: string, at: nat)
    requires at + 2 < |s|
    ensures (0 < at && s[at] == '@' && !IsSpace(s[at - 1]) && !IsSpace(s[at + 1]) && DotAhead(s, at + 2))
            <==> exists dot :: EmailMatch(s, at, dot)
  {
    DotAheadIff(s, at + 2);
    if dot :| EmailMatch(s, at, dot) {
      assert at < at + 1 < dot;
      assert DotAt(s, at + 2, dot);
    }
    if 0 < at && s[at] == '@' && !IsSpace(s[at - 1]) && !IsSpace(s[at + 1]) && DotAhead(s, at + 2) {
      var dot :| DotAt(s, at + 2, dot);
      assert EmailMatch(s, at, dot);
    }
  }

  lemma {:induction false} MatchFromIff(s: string, i: nat)
    requires i <= |s|
    ensures MatchFrom(s, i) <==> exists at, dot :: i <= at && EmailMatch(s, at, dot)
    decreases |s| - i
  {
    if i + 2 >= |s| {
      if at, dot :| i <= at && EmailMatch(s, at, dot) {
        assert false;
      }
    } else {
      MatchFromIff(s, i + 1);
      MatchAtIff(s, i);
      if at, dot :| i <= at && EmailMatch(s, at, dot) {
        if at != i {
          assert i + 1 <= at;
        }
      }
    }
  }

  /** "a@b.com" has the shape; "a.b.com" (no "@") and "a@b" (no ".") do not. */
  lemma EmailExamples()
    ensures EmailShaped("a@b.com")
    ensures !EmailShaped("a.b.com")
    ensures !EmailShaped("a@b")
  {
    assert EmailTest("a@b.com");
    assert !EmailTest("a.b.com");
    assert !EmailTest("a@b");
  }

  // ---------------------------------------------------------------------
  // Form data, change events and errors
  // ---------------------------------------------------------------------

  datatype Field = FirstName | LastName | Email | Phone | StartDate | Duration
                 | PaymentMethod | CardNumber | CardExpiry | CardCVC | AgreeTerms

  /** The keys of `errors`: a field's name, or `submit`. */
  datatype ErrorKey = On(field: Field) | OnSubmit

  datatype FormData = FormData(
    firstName: string, lastName: string, email: string, phone: string,
    startDate: string, duration: string, paymentMethod: string,
    cardNumber: string, cardExpiry: string, cardCVC: string,
    agreeTerms: bool)

  const InitialForm := FormData("", "", "", "", "", "1", "credit", "", "", "", false)

  /** What an input hands to `handleChange`: its `value`, or `checked` for a checkbox. */
  datatype FieldValue = Text(text: string) | Checked(checked: bool)

  /** A change event: the input's `name` and what it carries. */
  datatype ChangeEvent = ChangeEvent(name: Field, input: FieldValue)

  /** The only checkbox is `agreeTerms`; every other field is fed a text value. */
  predicate KindMatches(ev: ChangeEvent) {
    (ev.name == AgreeTerms) == ev.input.Checked?
  }

  function Get(d: FormData, f: Field): FieldValue {
    match f
    case FirstName => Text(d.firstName)
    case LastName => Text(d.lastName)
    case Email => Text(d.email)
    case Phone => Text(d.phone)
    case StartDate => Text(d.startDate)
    case Duration => Text(d.duration)
    case PaymentMethod => Text(d.paymentMethod)
    case CardNumber => Text(d.cardNumber)
    case CardExpiry => Text(d.cardExpiry)
    case CardCVC => Text(d.cardCVC)
    case AgreeTerms => Checked(d.agreeTerms)
  }

  /** `{...formData, [name]: type === "checkbox" ? checked : value}`. */
  function Applied(d: FormData, ev: ChangeEvent): (r: FormData)
    requires KindMatches(ev)
    ensures Get(r, ev.name) == ev.input
    ensures forall f :: f != ev.name ==> Get(r, f) == Get(d, f)
  {
    match ev.name
    case FirstName => d.(firstName := ev.input.text)
    case LastName => d.(lastName := ev.input.text)
    case Email => d.(email := ev.input.text)
    case Phone => d.(phone := ev.input.text)
    case StartDate => d.(startDate := ev.input.text)
    case Duration => d.(duration := ev.input.text)
    case PaymentMethod => d.(paymentMethod := ev.input.text)
    case CardNumber => d.(cardNumber := ev.input.text)
    case CardExpiry => d.(cardExpiry := ev.input.text)
    case CardCVC => d.(cardCVC := ev.input.text)
    case AgreeTerms => d.(agreeTerms := ev.input.checked)
  }

  /** `if (errors[name]) errors = {...errors, [name]: ""}`: only a set error is blanked. */
  function ClearError(errors: map<ErrorKey, string>, name: Field): (r: map<ErrorKey, string>)
    ensures r.Keys == errors.Keys
    ensures forall k :: k in r && k != On(name) ==> r[k] == errors[k]
    ensures On(name) in r ==> r[On(name)] == ""
  {
    if On(name) in errors && errors[On(name)] != "" then errors[On(name) := ""] else errors
  }

  // ---------------------------------------------------------------------
  // The two validators, as specifications
  // ---------------------------------------------------------------------

  const FirstNameRequired := "First name is required"
  const LastNameRequired := "Last name is required"
  const EmailRequired := "Email is required"
  const EmailInvalid := "Email is invalid"
  const PhoneRequired := "Phone number is required"
  const StartDateRequired := "Start date is required"
  const CardNumberRequired := "Card number is required"
  const ExpiryRequired := "Expiry date is required"
  const CvcRequired := "CVC is required"
  const TermsRequired := "You must agree to the terms"
  const SubmitProblem := "There was a problem processing your booking."

  /** What step 1 demands: the named fields non-blank, a well-shaped e-mail, a start date. */
  predicate Step1Valid(d: FormData) {
    !IsBlank(d.firstName) && !IsBlank(d.lastName)
    && !IsBlank(d.email) && EmailTest(d.email)
    && !IsBlank(d.phone) && d.startDate != ""
  }

  /** `errors` with `message` recorded under `key` when `fails` holds. */
  function Record(errors: map<ErrorKey, string>, fails: bool, key: ErrorKey, message: string): map<ErrorKey, string> {
    if fails then errors[key := message] else errors
  }

  /**
   * Step 1's error map, given which checks fail: one entry per failing field,
   * and the e-mail entry says whether the address is missing or malformed.
   */
  function Step1Map(firstBlank: bool, lastBlank: bool, emailBlank: bool, emailBad: bool,
                    phoneBlank: bool, dateMissing: bool): (e: map<ErrorKey, string>)
    ensures On(FirstName) in e <==> firstBlank
    ensures On(LastName) in e <==> lastBlank
    ensures On(Email) in e <==> emailBlank || emailBad
    ensures On(Email) in e ==> e[On(Email)] == if emailBlank then EmailRequired else EmailInvalid
    ensures On(Phone) in e <==> phoneBlank
    ensures On(StartDate) in e <==> dateMissing
    ensures forall k :: k in e ==> k in {On(FirstName), On(LastName), On(Email), On(Phone), On(StartDate)}
    ensures e == map[] <==> !(firstBlank || lastBlank || emailBlank || emailBad || phoneBlank || dateMissing)
  {
    var e := Record(map[], firstBlank, On(FirstName), FirstNameRequired);
    var e := Record(e, lastBlank, On(LastName), LastNameRequired);
    var e := Record(e, emailBlank || emailBad, On(Email), if emailBlank then EmailRequired else EmailInvalid);
    var e := Record(e, phoneBlank, On(Phone), PhoneRequired);
    Record(e, dateMissing, On(StartDate), StartDateRequired)
  }

  /** Step 1's error map for the form data `d`. */
  function Step1Errors(d: FormData): (e: map<ErrorKey, string>)
    ensures On(FirstName) in e <==> IsBlank(d.firstName)
    ensures On(Email) in e <==> IsBlank(d.email) || !EmailTest(d.email)
    ensures e == map[] <==> Step1Valid(d)
  {
    Step1Map(IsBlank(d.firstName), IsBlank(d.lastName), IsBlank(d.email), !EmailTest(d.email),
             IsBlank(d.phone), d.startDate == "")
  }

  /** What step 2 demands: card details when paying by credit card, and the terms accepted. */
  predicate Step2Valid(d: FormData) {
    (d.paymentMethod == "credit" ==>
       !IsBlank(d.cardNumber) && !IsBlank(d.cardExpiry) && !IsBlank(d.cardCVC))
    && d.agreeTerms
  }

  /** Step 2's error map, given which checks fail: one entry per failing field. */
  function Step2Map(numberBlank: bool, expiryBlank: bool, cvcBlank: bool, termsUnchecked: bool): (e: map<ErrorKey, string>)
    ensures On(CardNumber) in e <==> numberBlank
    ensures On(CardExpiry) in e <==> expiryBlank
    ensures On(CardCVC) in e <==> cvcBlank
    ensures On(AgreeTerms) in e <==> termsUnchecked
    ensures On(AgreeTerms) in e ==> e[On(AgreeTerms)] == TermsRequired
    ensures forall k :: k in e ==> k in {On(CardNumber), On(CardExpiry), On(CardCVC), On(AgreeTerms)}
    ensures e == map[] <==> !(numberBlank || expiryBlank || cvcBlank || termsUnchecked)
  {
    var e := Record(map[], numberBlank, On(CardNumber), CardNumberRequired);
    var e := Record(e, expiryBlank, On(CardExpiry), ExpiryRequired);
    var e := Record(e, cvcBlank, On(CardCVC), CvcRequired);
    Record(e, termsUnchecked, On(AgreeTerms), TermsRequired)
  }

  /** Step 2's error map for the form data `d`: card fields count only for "credit". */
  function Step2Errors(d: FormData): (e: map<ErrorKey, string>)
    ensures On(CardNumber) in e <==> d.paymentMethod == "credit" && IsBlank(d.cardNumber)
    ensures On(AgreeTerms) in e <==> !d.agreeTerms
    ensures e == map[] <==> Step2Valid(d)
  {
    var credit := d.paymentMethod == "credit";
    Step2Map(credit && IsBlank(d.cardNumber), credit && IsBlank(d.cardExpiry),
             credit && IsBlank(d.cardCVC), !d.agreeTerms)
  }

  /** Unchecked terms fail step 2 whatever else the form holds. */
  lemma TermsAlwaysRequired(d: FormData)
    requires !d.agreeTerms
    ensures !Step2Valid(d) && Step2Errors(d)[On(AgreeTerms)] == TermsRequired
  {
  }

  // ---------------------------------------------------------------------
  // Durations, the total and the booking record
  // ---------------------------------------------------------------------

  /** The duration select offers these month counts. */
  const DurationChoices: seq<nat> := [1, 2, 3, 6, 12, 24]

  /** The option values the select hands to `handleChange`. */
  const DurationValues: set<string> := {"1", "2", "3", "6", "12", "24"}

  /** Each option value reads back as its month count. */
  lemma DurationValueParses(v: string)
    requires v in DurationValues
    ensures exists m :: m in DurationChoices && v == DecimalString(m) && ParseInt(v) == Some(m)
  {
    var m: nat :| m in DurationChoices && v == DecimalString(m) by {
      if v == "1" { assert v == DecimalString(1); }
      else if v == "2" { assert v == DecimalString(2); }
      else if v == "3" { assert v == DecimalString(3); }
      else if v == "6" { assert v == DecimalString(6); }
      else if v == "12" { assert v == DecimalString(12); }
      else { assert v == DecimalString(24); }
    }
    ParseDecimalString(m);
  }

  /**
   * `villa.price * parseInt(duration)`; `None` stands for NaN, which a
   * missing price or a duration that does not start with a number yields.
   */
  function Total(price: Option<int>, duration: string): (r: Option<int>)
    ensures r.None? <==> price.None? || ParseInt(duration).None?
    ensures r.Some? ==> r.value == price.value * ParseInt(duration).value
  {
    var months := ParseInt(duration);
    if price.Some? && months.Some? then Some(price.value * months.value) else None
  }

  /** For a priced listing and a month count the select offers, the total is exact. */
  lemma TotalOfChoice(p: int, m: nat)
    requires m in DurationChoices
    ensures Total(Some(p), DecimalString(m)) == Some(p * m)
  {
    ParseDecimalString(m);
  }

  /** An unpriced listing has no total (NaN), whatever the duration. */
  lemma NoPriceNoTotal(duration: string)
    ensures Total(None, duration) == None
  {
  }

  /** `Math.floor(Math.random() * 10000000)` lies below this bound. */
  const BookingIdBound := 10000000

  /** `"BK" + n`: the prefix, then the number in decimal. */
  function BookingId(n: nat): (id: string)
    ensures |id| > 2 && id[..2] == "BK"
    ensures ParseInt(id[2..]) == Some(n)
  {
    var id := "BK" + DecimalString(n);
    assert id[2..] == DecimalString(n);
    ParseDecimalString(n);
    id
  }

  /** The record handed to `onSuccess`: the form, the listing, the total and the id. */
  datatype BookingRecord = BookingRecord(form: FormData, villa: Villa, totalPrice: Option<int>, bookingId: string)

  /** What `handleSubmit` observably did. */
  datatype SubmitResult = NotSubmitted | Emitted(booking: BookingRecord) | Failed

  // ---------------------------------------------------------------------
  // The component
  // ---------------------------------------------------------------------

  class BookingForm {
    /** The `villa` prop. */
    const villa: Villa
    /** Whether the parent passed an `onSuccess` prop at all. */
    const onSuccessGiven: bool

    var step: int
    var formData: FormData
    var errors: map<ErrorKey, string>
    var loading: bool

    ghost predicate Valid()
      reads this
    {
      step == 1 || step == 2
    }

    constructor (villa: Villa, onSuccessGiven: bool)
      ensures Valid() && this.villa == villa && this.onSuccessGiven == onSuccessGiven
      ensures step == 1 && formData == InitialForm && errors == map[] && !loading
    {
      this.villa := villa;
      this.onSuccessGiven := onSuccessGiven;
      step := 1;
      formData := InitialForm;
      errors := map[];
      loading := false;
    }

    /** `handleChange`: writes the named field and blanks its error if one was shown. */
    method Change(ev: ChangeEvent)
      requires Valid() && KindMatches(ev)
      modifies this
      ensures Valid()
      ensures formData == Applied(old(formData), ev)
      ensures errors == ClearError(old(errors), ev.name)
      ensures step == old(step) && loading == old(loading)
    {
      formData := Applied(formData, ev);
      if On(ev.name) in errors && errors[On(ev.name)] != "" {
        errors := errors[On(ev.name) := ""];
      }
    }

    /** `validateStep1`: collects the failing fields, then replaces `errors`. */
    method ValidateStep1() returns (valid: bool)
      modifies this`errors
      ensures errors == Step1Errors(formData)
      ensures valid <==> Step1Valid(formData)
    {
      var newErrors: map<ErrorKey, string> := map[];
      ghost var d := formData;
      if IsBlank(formData.firstName) {
        newErrors := newErrors[On(FirstName) := FirstNameRequired];
      }
      ghost var e1 := newErrors;
      if IsBlank(formData.lastName) {
        newErrors := newErrors[On(LastName) := LastNameRequired];
      }
      ghost var e2 := newErrors;
      assert e2 == Record(e1, IsBlank(d.lastName), On(LastName), LastNameRequired);
      if IsBlank(formData.email) {
        newErrors := newErrors[On(Email) := EmailRequired];
      } else if !EmailTest(formData.email) {
        newErrors := newErrors[On(Email) := EmailInvalid];
      }
      ghost var e3 := newErrors;
      assert e3 == Record(e2, IsBlank(d.email) || !EmailTest(d.email), On(Email),
                          if IsBlank(d.email) then EmailRequired else EmailInvalid);
      if IsBlank(formData.phone) {
        newErrors := newErrors[On(Phone) := PhoneRequired];
      }
      ghost var e4 := newErrors;
      assert e4 == Record(e3, IsBlank(d.phone), On(Phone), PhoneRequired);
      if formData.startDate == "" {
        newErrors := newErrors[On(StartDate) := StartDateRequired];
      }
      assert newErrors == Record(e4, d.startDate == "", On(StartDate), StartDateRequired);
      errors := newErrors;
      valid := |newErrors.Keys| == 0;
    }

    /** `validateStep2`: collects the failing fields, then replaces `errors`. */
    method ValidateStep2() returns (valid: bool)
      modifies this`errors
      ensures errors == Step2Errors(formData)
      ensures valid <==> Step2Valid(formData)
    {
      var newErrors: map<ErrorKey, string> := map[];
      if formData.paymentMethod == "credit" {
        if IsBlank(formData.cardNumber) {
          newErrors := newErrors[On(CardNumber) := CardNumberRequired];
        }
        if IsBlank(formData.cardExpiry) {
          newErrors := newErrors[On(CardExpiry) := ExpiryRequired];
        }
        if IsBlank(formData.cardCVC) {
          newErrors := newErrors[On(CardCVC) := CvcRequired];
        }
      }
      if !formData.agreeTerms {
        newErrors := newErrors[On(AgreeTerms) := TermsRequired];
      }
      assert newErrors.Keys == Step2Errors(formData).Keys;
      errors := newErrors;
      valid := |newErrors.Keys| == 0;
    }

    /** `handleNext`: from step 1, moves on exactly when step 1 validates. */
    method Next()
      requires Valid()
      modifies this
      ensures Valid()
      ensures old(step) == 1 ==>
        errors == Step1Errors(formData) && step == (if Step1Valid(formData) then 2 else 1)
      ensures old(step) != 1 ==> errors == old(errors) && step == old(step)
      ensures formData == old(formData) && loading == old(loading)
    {
      if step == 1 {
        var valid := ValidateStep1();
        if valid {
          step := 2;
        }
      }
    }

    /** `handlePrevious`: back to step 1, keeping everything entered. */
    method Previous()
      requires Valid()
      modifies this
      ensures Valid() && step == 1
      ensures formData == old(formData) && errors == old(errors) && loading == old(loading)
    {
      step := 1;
    }

    /**
     * `handleSubmit`, with the simulated delay elapsed. Outside step 2 it does
     * nothing; at step 2 it validates, and only a valid form is submitted. The
     * submission calls `onSuccess` and then `onClose`; a missing `onSuccess`
     * throws, which replaces `errors` with the submit error and skips
     * `onClose`. `loading` is false again on every path that raised it.
     * `closed` tells whether `onClose` was called.
     */
    method Submit(idNumber: nat) returns (result: SubmitResult, closed: bool)
      requires Valid() && idNumber < BookingIdBound
      modifies this
      ensures Valid() && step == old(step) && formData == old(formData)
      ensures old(step) != 2 ==>
        result == NotSubmitted && !closed && errors == old(errors) && loading == old(loading)
      ensures old(step) == 2 && !Step2Valid(formData) ==>
        result == NotSubmitted && !closed && errors == Step2Errors(formData) && loading == old(loading)
      ensures old(step) == 2 && Step2Valid(formData) && onSuccessGiven ==>
        !loading && closed && errors == map[]
        && result.Emitted? && result.booking.form == formData && result.booking.villa == villa
        && result.booking.totalPrice == Total(villa.price, formData.duration)
        && result.booking.bookingId == BookingId(idNumber)
      ensures old(step) == 2 && Step2Valid(formData) && !onSuccessGiven ==>
        !loading && !closed && result == Failed && errors == map[OnSubmit := SubmitProblem]
    {
      result, closed := NotSubmitted, false;
      if step == 2 {
        var valid := ValidateStep2();
        if valid {
          loading := true;
          if onSuccessGiven {
            var booking := BookingRecord(formData, villa, Total(villa.price, formData.duration), BookingId(idNumber));
            result := Emitted(booking);
            closed := true;
          } else {
            errors := map[OnSubmit := SubmitProblem];
            result := Failed;
          }
          loading := false;
        }
      }
    }

    /** `formatTotal`, before number formatting. */
    function FormattedTotal(): (r: Option<int>)
      reads this
      ensures villa.price.Some? && formData.duration in DurationValues ==>
        exists m :: m in DurationChoices && formData.duration == DecimalString(m)
                    && r == Some(villa.price.value * m)
    {
      if villa.price.Some? && formData.duration in DurationValues then
        DurationValueParses(formData.duration);
        Total(villa.price, formData.duration)
      else Total(villa.price, formData.duration)
    }
  }

  // ---------------------------------------------------------------------
  // What the form's markup can do
  // ---------------------------------------------------------------------

  /**
   * The change events the form's inputs can produce: text for the personal
   * fields, an offered month count for the duration select, "credit" from
   * the single payment radio, and the terms checkbox. No input is named
   * after a card field.
   */
  predicate MarkupEvent(ev: ChangeEvent)
    ensures MarkupEvent(ev) ==> KindMatches(ev)
  {
    match ev.name
    case FirstName => ev.input.Text?
    case LastName => ev.input.Text?
    case Email => ev.input.Text?
    case Phone => ev.input.Text?
    case StartDate => ev.input.Text?
    case Duration => ev.input.Text? && ev.input.text in DurationValues
    case PaymentMethod => ev.input == Text("credit")
    case AgreeTerms => ev.input.Checked?
    case _ => false
  }

  function ApplyAll(d: FormData, evs: seq<ChangeEvent>): FormData
    requires forall k :: 0 <= k < |evs| ==> MarkupEvent(evs[k])
    decreases |evs|
  {
    if evs == [] then d
    else
      assert MarkupEvent(evs[0]);
      ApplyAll(Applied(d, evs[0]), evs[1..])
  }

  /** The form data the markup can reach: credit payment, empty card fields, an offered duration. */
  predicate MarkupReachable(d: FormData) {
    d.paymentMethod == "credit" && d.cardNumber == "" && d.cardExpiry == "" && d.cardCVC == ""
    && d.duration in DurationValues
  }

  lemma {:induction false} MarkupKeepsReachable(d: FormData, evs: seq<ChangeEvent>)
    requires MarkupReachable(d)
    requires forall k :: 0 <= k < |evs| ==> MarkupEvent(evs[k])
    ensures MarkupReachable(ApplyAll(d, evs))
    decreases |evs|
  {
    if evs != [] {
      var d' := Applied(d, evs[0]);
      assert MarkupReachable(d') by {
        assert Get(d', CardNumber) == Get(d, CardNumber);
        assert Get(d', CardExpiry) == Get(d, CardExpiry);
        assert Get(d', CardCVC) == Get(d, CardCVC);
      }
      MarkupKeepsReachable(d', evs[1..]);
    }
  }

  /**
   * Whatever the user does with the form's own inputs, step 2 never
   * validates: the card fields it demands for "credit" stay empty.
   */
  lemma MarkupNeverPassesStep2(evs: seq<ChangeEvent>)
    requires forall k :: 0 <= k < |evs| ==> MarkupEvent(evs[k])
    ensures var d := ApplyAll(InitialForm, evs);
      !Step2Valid(d) && On(CardNumber) in Step2Errors(d)
  {
    MarkupKeepsReachable(InitialForm, evs);
    var d := ApplyAll(InitialForm, evs);
    assert IsBlank(d.cardNumber);
  }

  /** Whatever the user does with the form's inputs, a priced listing has an exact total. */
  lemma MarkupTotalExact(p: int, evs: seq<ChangeEvent>)
    requires forall k :: 0 <= k < |evs| ==> MarkupEvent(evs[k])
    ensures var d := ApplyAll(InitialForm, evs);
      exists m :: m in DurationChoices && d.duration == DecimalString(m)
                  && Total(Some(p), d.duration) == Some(p * m)
  {
    MarkupKeepsReachable(InitialForm, evs);
    var d := ApplyAll(InitialForm, evs);
    DurationValueParses(d.duration);
  }
}
