/**
 * The checkout wizard: a shipping step, a payment step and a review step,
 * the validators that guard each advance, the input formatters for the card
 * number, the expiry date and the phone number, and order placement, which
 * empties the cart.
 */
module CheckoutScreen {
  import opened Wrappers
  import opened Text
  import opened CartContext

  datatype Step = Shipping | Payment | Review

  datatype ShippingForm = ShippingForm(
    fullName: string, address: string, city: string, state: string, zipCode: string, phone: string)

  datatype PaymentForm = PaymentForm(cardNumber: string, expiryDate: string, cvv: string, cardHolderName: string)

  const EmptyShipping := ShippingForm("", "", "", "", "", "")
  const EmptyPayment := PaymentForm("", "", "", "")

  /** At most one message per field; `None` is a field without an error. */
  datatype ShippingErrors = ShippingErrors(
    fullName: Option<string>, address: Option<string>, city: Option<string>,
    state: Option<string>, zipCode: Option<string>, phone: Option<string>)

  datatype PaymentErrors = PaymentErrors(
    cardNumber: Option<string>, expiryDate: Option<string>, cvv: Option<string>, cardHolderName: Option<string>)

  const NoShippingErrors := ShippingErrors(None, None, None, None, None, None)
  const NoPaymentErrors := PaymentErrors(None, None, None, None)

  const FullNameRequired := "Full name is required"
  const AddressRequired := "Address is required"
  const CityRequired := "City is required"
  const StateRequired := "State is required"
  const ZipRequired := "ZIP code is required"
  const ZipInvalid := "Invalid ZIP code format"
  const PhoneRequired := "Phone number is required"
  const PhoneInvalid := "Invalid phone number format"
  const CardRequired := "Card number is required"
  const CardInvalid := "Invalid card number"
  const ExpiryRequired := "Expiry date is required"
  const ExpiryInvalid := "Invalid expiry date format (MM/YY)"
  const CvvRequired := "CVV is required"
  const CvvInvalid := "Invalid CVV"
  const HolderRequired := "Cardholder name is required"

  // ---------------------------------------------------------------------------
  // The regular expressions of the validators

  /** `/^\d{5}(-\d{4})?$/` */
  predicate IsZipCode(s: string) {
    (|s| == 5 && AllDigits(s)) || (|s| == 10 && AllDigits(s[..5]) && s[5] == '-' && AllDigits(s[6..]))
  }

  /** `/^\d{10}$/` */
  predicate IsTenDigits(s: string) {
    |s| == 10 && AllDigits(s)
  }

  /** `/^\d{16}$/` */
  predicate IsSixteenDigits(s: string) {
    |s| == 16 && AllDigits(s)
  }

  /** `0[1-9]|1[0-2]` on a two-character string. */
  predicate IsMonth(s: string)
    requires |s| == 2
  {
    (s[0] == '0' && '1' <= s[1] <= '9') || (s[0] == '1' && '0' <= s[1] <= '2')
  }

  /** `/^(0[1-9]|1[0-2])\/([0-9]{2})$/` */
  predicate IsExpiryDate(s: string) {
    |s| == 5 && IsMonth(s[..2]) && s[2] == '/' && AllDigits(s[3..])
  }

  /** `/^\d{3,4}$/` */
  predicate IsCvv(s: string) {
    (|s| == 3 || |s| == 4) && AllDigits(s)
  }

  // ---------------------------------------------------------------------------
  // Stage validation

  /** A field that only has to be non-blank after `trim`. */
  function RequiredError(value: string, required: string): Option<string> {
    if IsBlank(value) then Some(required) else None
  }

  /** A field that must be non-blank, and only then is tested against its format. */
  function FormatError(value: string, required: string, wellFormed: bool, invalid: string): Option<string> {
    if IsBlank(value) then Some(required) else if wellFormed then None else Some(invalid)
  }

  /** The error record the shipping validator produces. The ZIP code is tested untrimmed. */
  function ShippingErrorsOf(f: ShippingForm): ShippingErrors {
    ShippingErrors(
      RequiredError(f.fullName, FullNameRequired),
      RequiredError(f.address, AddressRequired),
      RequiredError(f.city, CityRequired),
      RequiredError(f.state, StateRequired),
      FormatError(f.zipCode, ZipRequired, IsZipCode(f.zipCode), ZipInvalid),
      FormatError(f.phone, PhoneRequired, IsTenDigits(Digits(f.phone)), PhoneInvalid))
  }

  /** The error record the payment validator produces. Expiry and CVV are tested untrimmed. */
  function PaymentErrorsOf(p: PaymentForm): PaymentErrors {
    PaymentErrors(
      FormatError(p.cardNumber, CardRequired, IsSixteenDigits(StripWhitespace(p.cardNumber)), CardInvalid),
      FormatError(p.expiryDate, ExpiryRequired, IsExpiryDate(p.expiryDate), ExpiryInvalid),
      FormatError(p.cvv, CvvRequired, IsCvv(p.cvv), CvvInvalid),
      RequiredError(p.cardHolderName, HolderRequired))
  }

  /** What the shipping step demands, stated without the error record. */
  predicate ShippingValid(f: ShippingForm) {
    && !IsBlank(f.fullName) && !IsBlank(f.address) && !IsBlank(f.city) && !IsBlank(f.state)
    && IsZipCode(f.zipCode)
    && |Digits(f.phone)| == 10
  }

  /** What the payment step demands, stated without the error record. */
  predicate PaymentValid(p: PaymentForm) {
    && IsSixteenDigits(StripWhitespace(p.cardNumber))
    && IsExpiryDate(p.expiryDate)
    && IsCvv(p.cvv)
    && !IsBlank(p.cardHolderName)
  }

  lemma DigitsAreNotBlank(s: string)
    requires s != [] && AllDigits(s)
    ensures !IsBlank(s)
  {
    assert IsDigit(s[0]);
  }

  /** The shipping step reports no error exactly when its conditions hold. */
  lemma ShippingErrorsNoneIff(f: ShippingForm)
    ensures ShippingErrorsOf(f) == NoShippingErrors <==> ShippingValid(f)
  {
    if IsZipCode(f.zipCode) {
      DigitsAreNotBlank(f.zipCode[..5]);
      assert f.zipCode[..5][0] == f.zipCode[0];
    }
    if IsBlank(f.phone) {
      DigitsOfNonDigits(f.phone);
    }
    DigitsAreDigits(f.phone);
  }

  /** The payment step reports no error exactly when its conditions hold. */
  lemma PaymentErrorsNoneIff(p: PaymentForm)
    ensures PaymentErrorsOf(p) == NoPaymentErrors <==> PaymentValid(p)
  {
    if IsBlank(p.cardNumber) {
      StripWhitespaceOfBlank(p.cardNumber);
    }
    if IsExpiryDate(p.expiryDate) {
      assert p.expiryDate[0] == p.expiryDate[..2][0];
    }
    if IsCvv(p.cvv) {
      DigitsAreNotBlank(p.cvv);
    }
  }

  /** `validateShippingForm`: fills the error record field by field and clears a flag on each failure. */
  method ValidateShippingForm(f: ShippingForm) returns (errors: ShippingErrors, isValid: bool)
    ensures errors == ShippingErrorsOf(f)
    ensures isValid <==> ShippingValid(f)
  {
    errors := NoShippingErrors;
    isValid := true;
    TrimEmptyIffBlank(f.fullName);
    TrimEmptyIffBlank(f.address);
    TrimEmptyIffBlank(f.city);
    TrimEmptyIffBlank(f.state);
    TrimEmptyIffBlank(f.zipCode);
    TrimEmptyIffBlank(f.phone);

    if Trim(f.fullName) == [] {
      errors := errors.(fullName := Some(FullNameRequired));
      isValid := false;
    }
    if Trim(f.address) == [] {
      errors := errors.(address := Some(AddressRequired));
      isValid := false;
    }
    if Trim(f.city) == [] {
      errors := errors.(city := Some(CityRequired));
      isValid := false;
    }
    if Trim(f.state) == [] {
      errors := errors.(state := Some(StateRequired));
      isValid := false;
    }
    if Trim(f.zipCode) == [] {
      errors := errors.(zipCode := Some(ZipRequired));
      isValid := false;
    } else if !IsZipCode(f.zipCode) {
      errors := errors.(zipCode := Some(ZipInvalid));
      isValid := false;
    }
    if Trim(f.phone) == [] {
      errors := errors.(phone := Some(PhoneRequired));
      isValid := false;
    } else if !IsTenDigits(Digits(f.phone)) {
      errors := errors.(phone := Some(PhoneInvalid));
      isValid := false;
    }
    ShippingErrorsNoneIff(f);
  }

  /** `validatePaymentForm`: the same shape over the four payment fields. */
  method ValidatePaymentForm(p: PaymentForm) returns (errors: PaymentErrors, isValid: bool)
    ensures errors == PaymentErrorsOf(p)
    ensures isValid <==> PaymentValid(p)
  {
    errors := NoPaymentErrors;
    isValid := true;
    TrimEmptyIffBlank(p.cardNumber);
    TrimEmptyIffBlank(p.expiryDate);
    TrimEmptyIffBlank(p.cvv);
    TrimEmptyIffBlank(p.cardHolderName);

    if Trim(p.cardNumber) == [] {
      errors := errors.(cardNumber := Some(CardRequired));
      isValid := false;
    } else if !IsSixteenDigits(StripWhitespace(p.cardNumber)) {
      errors := errors.(cardNumber := Some(CardInvalid));
      isValid := false;
    }
    if Trim(p.expiryDate) == [] {
      errors := errors.(expiryDate := Some(ExpiryRequired));
      isValid := false;
    } else if !IsExpiryDate(p.expiryDate) {
      errors := errors.(expiryDate := Some(ExpiryInvalid));
      isValid := false;
    }
    if Trim(p.cvv) == [] {
      errors := errors.(cvv := Some(CvvRequired));
      isValid := false;
    } else if !IsCvv(p.cvv) {
      errors := errors.(cvv := Some(CvvInvalid));
      isValid := false;
    }
    if Trim(p.cardHolderName) == [] {
      errors := errors.(cardHolderName := Some(HolderRequired));
      isValid := false;
    }
    PaymentErrorsNoneIff(p);
  }

  /** The ZIP pattern sees the untrimmed text: a leading space is a format error, not a pass. */
  lemma ZipTestedUntrimmed(f: ShippingForm)
    requires f.zipCode == " 12345"
    ensures ShippingErrorsOf(f).zipCode == Some(ZipInvalid)
    ensures !ShippingValid(f)
  {
    assert !IsWhitespace(f.zipCode[1]);
  }

  // ---------------------------------------------------------------------------
  // Input formatters

  function Min(a: int, b: int): int {
    if a <= b then a else b
  }

  /** `d.replace(/(\d{4})/g, '$1 ')` on a string of digits: a space after every complete group of four. */
  function InsertSpaces(d: string): string {
    if |d| < 4 then d else d[..4] + " " + InsertSpaces(d[4..])
  }

  /** `formatCardNumber`: the digits, spaced in fours, trimmed, cut to 19 characters. */
  function FormatCardNumber(text: string): (r: string)
    ensures |r| <= 19
    ensures Digits(text) == [] ==> r == []
  {
    var spaced := Trim(InsertSpaces(Digits(text)));
    spaced[..Min(19, |spaced|)]
  }

  /** Digits in groups of four separated by single spaces, with no space at either end. */
  function Grouped(d: string): string {
    if |d| <= 4 then d else d[..4] + " " + Grouped(d[4..])
  }

  lemma {:induction false} GroupedAt(d: string)
    requires AllDigits(d)
    ensures |Grouped(d)| == if d == [] then 0 else |d| + (|d| - 1) / 4
    ensures forall i :: 0 <= i < |Grouped(d)| ==>
      if i % 5 == 4 then Grouped(d)[i] == ' ' else i - i / 5 < |d| && Grouped(d)[i] == d[i - i / 5]
  {
    if |d| > 4 {
      var g := Grouped(d[4..]);
      GroupedAt(d[4..]);
      assert Grouped(d) == d[..4] + " " + g;
      forall i | 0 <= i < |Grouped(d)|
        ensures if i % 5 == 4 then Grouped(d)[i] == ' ' else i - i / 5 < |d| && Grouped(d)[i] == d[i - i / 5]
      {
        if i >= 5 {
          assert Grouped(d)[i] == g[i - 5];
          assert (i - 5) % 5 == i % 5 && (i - 5) / 5 == i / 5 - 1;
        }
      }
    }
  }

  lemma {:induction false} InsertSpacesIsGrouped(d: string)
    requires AllDigits(d)
    ensures InsertSpaces(d) == Grouped(d) + (if d != [] && |d| % 4 == 0 then " " else "")
  {
    if |d| > 4 {
      InsertSpacesIsGrouped(d[4..]);
      assert InsertSpaces(d) == d[..4] + " " + InsertSpaces(d[4..]);
    } else if |d| == 4 {
      assert d[4..] == [] && d[..4] == d;
    }
  }

  /** The first `5k - 1` characters of the grouping are the grouping of the first `4k` digits. */
  lemma {:induction false} GroupedPrefix(d: string, k: nat)
    requires 1 <= k && 4 * k <= |d|
    ensures |Grouped(d)| >= 5 * k - 1
    ensures Grouped(d)[..5 * k - 1] == Grouped(d[..4 * k])
  {
    if k == 1 {
      assert Grouped(d[..4]) == d[..4];
    } else {
      GroupedPrefix(d[4..], k - 1);
      assert d[..4 * k][4..] == d[4..][..4 * (k - 1)];
      assert d[..4 * k][..4] == d[..4];
    }
  }

  lemma {:induction false} StripGrouped(d: string)
    requires AllDigits(d)
    ensures StripWhitespace(Grouped(d)) == d
  {
    if |d| <= 4 {
      StripWhitespaceOfDigits(d);
    } else {
      StripGrouped(d[4..]);
      StripWhitespaceAppend(d[..4] + " ", Grouped(d[4..]));
      StripWhitespaceAppend(d[..4], " ");
      StripWhitespaceOfDigits(d[..4]);
      assert d == d[..4] + d[4..];
    }
  }

  lemma {:induction false} GroupedEnds(d: string)
    requires d != []
    ensures Grouped(d) != [] && Grouped(d)[0] == d[0]
    ensures Grouped(d)[|Grouped(d)| - 1] == d[|d| - 1]
  {
    if |d| > 4 {
      GroupedEnds(d[4..]);
    }
  }

  /** Trimming leaves alone a string with no whitespace at either end, and removes a blank tail. */
  lemma {:induction false} TrimEndBlankTail(s: string, w: string)
    requires s != [] && !IsWhitespace(s[|s| - 1]) && IsBlank(w)
    ensures TrimEnd(s + w) == s
  {
    if w == [] {
      assert s + w == s;
    } else {
      assert (s + w)[..|s + w| - 1] == s + w[..|w| - 1];
      TrimEndBlankTail(s, w[..|w| - 1]);
    }
  }

  lemma TrimBlankTail(s: string, w: string)
    requires s != [] && !IsWhitespace(s[0]) && !IsWhitespace(s[|s| - 1]) && IsBlank(w)
    ensures Trim(s + w) == s
  {
    assert (s + w)[0] == s[0];
    assert TrimStart(s + w) == s + w;
    TrimEndBlankTail(s, w);
  }

  lemma TrimGrouped(d: string, sp: string)
    requires AllDigits(d) && IsBlank(sp) && (d != [] || sp == [])
    ensures Trim(Grouped(d) + sp) == Grouped(d)
  {
    if d == [] {
      assert Grouped(d) + sp == [];
    } else {
      GroupedEnds(d);
      TrimBlankTail(Grouped(d), sp);
    }
  }

  lemma GroupedLengthBound(d: string)
    requires AllDigits(d) && |d| < 16
    ensures |Grouped(d)| <= 19
  {
    GroupedAt(d);
  }

  /** Trimming the spaced digits removes the one trailing space a complete last group leaves. */
  lemma TrimSpaced(d: string)
    requires AllDigits(d)
    ensures Trim(InsertSpaces(d)) == Grouped(d)
  {
    InsertSpacesIsGrouped(d);
    TrimGrouped(d, if d != [] && |d| % 4 == 0 then " " else "");
  }

  /** Cutting grouped digits to 19 characters keeps exactly the first four groups. */
  lemma CutGrouped(d: string)
    requires AllDigits(d)
    ensures Grouped(d)[..Min(19, |Grouped(d)|)] == Grouped(d[..Min(16, |d|)])
  {
    if |d| >= 16 {
      GroupedPrefix(d, 4);
    } else {
      GroupedLengthBound(d);
      assert d[..|d|] == d;
    }
  }

  /** The trimmed, cut formatter output is the grouping of the first at most 16 digits. */
  lemma FormatCardNumberIsGrouped(text: string)
    ensures FormatCardNumber(text) == Grouped(Digits(text)[..Min(16, |Digits(text)|)])
  {
    var d := Digits(text);
    DigitsAreDigits(text);
    TrimSpaced(d);
    CutGrouped(d);
  }

  lemma GroupedLastNotSpace(d: string)
    requires AllDigits(d)
    ensures Grouped(d) == [] || Grouped(d)[|Grouped(d)| - 1] != ' '
  {
    if d != [] {
      GroupedEnds(d);
    }
  }

  lemma GroupedLayout(d: string)
    requires AllDigits(d)
    ensures forall i :: 0 <= i < |Grouped(d)| ==>
      if i % 5 == 4 then Grouped(d)[i] == ' ' else IsDigit(Grouped(d)[i])
  {
    GroupedAt(d);
  }

  /**
   * `formatCardNumber` returns at most 19 characters: digits with a space at
   * every fifth position, no trailing space, and the first min(16, n) digits
   * of the input.
   */
  lemma FormatCardNumberShape(text: string)
    ensures |FormatCardNumber(text)| <= 19
    ensures forall i :: 0 <= i < |FormatCardNumber(text)| ==>
      if i % 5 == 4 then FormatCardNumber(text)[i] == ' ' else IsDigit(FormatCardNumber(text)[i])
    ensures FormatCardNumber(text) == [] || FormatCardNumber(text)[|FormatCardNumber(text)| - 1] != ' '
    ensures StripWhitespace(FormatCardNumber(text)) == Digits(text)[..Min(16, |Digits(text)|)]
  {
    var d := Digits(text)[..Min(16, |Digits(text)|)];
    DigitsAreDigits(text);
    FormatCardNumberIsGrouped(text);
    GroupedLayout(d);
    GroupedLastNotSpace(d);
    StripGrouped(d);
  }

  /** The card entry of the payment record depends on the card number alone. */
  lemma CardErrorOf(p: PaymentForm)
    ensures PaymentErrorsOf(p).cardNumber
      == FormatError(p.cardNumber, CardRequired, IsSixteenDigits(StripWhitespace(p.cardNumber)), CardInvalid)
  {
  }

  /** A string whose non-space characters are the first at most 16 of some digits passes the card check exactly when there were 16. */
  lemma CardVerdict(r: string, d: string)
    requires AllDigits(d) && StripWhitespace(r) == d[..Min(16, |d|)]
    ensures FormatError(r, CardRequired, IsSixteenDigits(StripWhitespace(r)), CardInvalid) == None <==> |d| >= 16
  {
    if |d| >= 16 {
      DigitsAreNotBlank(StripWhitespace(r));
      if IsBlank(r) {
        StripWhitespaceOfBlank(r);
      }
    }
  }

  /** A formatted card number passes the card check exactly when the input held at least 16 digits. */
  lemma FormattedCardValidIff(text: string)
    ensures PaymentErrorsOf(PaymentForm(FormatCardNumber(text), "", "", "")).cardNumber == None
      <==> |Digits(text)| >= 16
  {
    FormatCardNumberShape(text);
    DigitsAreDigits(text);
    CardErrorOf(PaymentForm(FormatCardNumber(text), "", "", ""));
    CardVerdict(FormatCardNumber(text), Digits(text));
  }

  /** `formatExpiryDate`. */
  function FormatExpiryDate(text: string): (r: string)
    ensures |r| <= 5 && |r| <= |Digits(text)| + 1
    ensures |Digits(text)| < 2 ==> r == Digits(text)
  {
    var cleaned := Digits(text);
    if |cleaned| >= 2 then cleaned[..2] + "/" + cleaned[2..Min(4, |cleaned|)] else cleaned
  }

  /**
   * Fewer than two digits come back unchanged; otherwise the first two
   * digits, a slash and up to two more digits, at most five characters in all.
   */
  lemma FormatExpiryDateShape(text: string)
    ensures |Digits(text)| < 2 ==> FormatExpiryDate(text) == Digits(text)
    ensures |Digits(text)| >= 2 ==>
      && |FormatExpiryDate(text)| <= 5
      && FormatExpiryDate(text)[..2] == Digits(text)[..2]
      && FormatExpiryDate(text)[2] == '/'
      && FormatExpiryDate(text)[3..] == Digits(text)[2..Min(4, |Digits(text)|)]
  {
  }

  /** A formatted expiry passes the MM/YY check exactly when the input holds four digits starting with a month. */
  lemma FormattedExpiryValidIff(text: string)
    ensures IsExpiryDate(FormatExpiryDate(text))
      <==> |Digits(text)| >= 4 && IsMonth(Digits(text)[..2])
  {
    var d := Digits(text);
    DigitsAreDigits(text);
    var r := FormatExpiryDate(text);
    if |d| >= 2 {
      assert r[..2] == d[..2];
      if |d| >= 4 {
        assert r[3..] == d[2..4];
      }
    }
  }

  /** `formatPhoneNumber`: ten digits become `(ddd) ddd-dddd`; anything else comes back as typed. */
  function FormatPhoneNumber(text: string): string {
    var cleaned := Digits(text);
    if IsTenDigits(cleaned) then "(" + cleaned[..3] + ") " + cleaned[3..6] + "-" + cleaned[6..] else text
  }

  /**
   * Ten digits are laid out as `(ddd) ddd-dddd`: an opening parenthesis, the
   * first three digits, a closing parenthesis and a space, the next three, a
   * hyphen and the last four, so the result holds the same digits in the same
   * order. Any other input comes back unchanged.
   */
  lemma FormatPhoneNumberShape(text: string)
    ensures |Digits(text)| == 10 ==>
      var r, c := FormatPhoneNumber(text), Digits(text);
      && |r| == 14
      && r[0] == '(' && r[1..4] == c[..3] && r[4..6] == ") "
      && r[6..9] == c[3..6] && r[9] == '-' && r[10..] == c[6..]
      && Digits(r) == c
    ensures |Digits(text)| != 10 ==> FormatPhoneNumber(text) == text
  {
    var c := Digits(text);
    DigitsAreDigits(text);
    if |c| == 10 {
      var r := FormatPhoneNumber(text);
      assert r == "(" + c[..3] + ") " + c[3..6] + "-" + c[6..];
      SixPartSlices("(", c[..3], ") ", c[3..6], "-", c[6..]);
      assert r[0] == r[..1][0];
      assert r[9] == r[9..10][0];
      PhoneLayoutDigits(c[..3], c[3..6], c[6..]);
      assert c[..3] + c[3..6] + c[6..] == c;
    }
  }

  /** Each part of a six-part concatenation is recovered by slicing at the running lengths. */
  lemma SixPartSlices(p: string, a: string, q: string, b: string, t: string, e: string)
    ensures
      var s := p + a + q + b + t + e;
      var i1 := |p|;
      var i2 := i1 + |a|;
      var i3 := i2 + |q|;
      var i4 := i3 + |b|;
      var i5 := i4 + |t|;
      && s[..i1] == p && s[i1..i2] == a && s[i2..i3] == q
      && s[i3..i4] == b && s[i4..i5] == t && s[i5..] == e
  {
  }

  /** The punctuation of the `(ddd) ddd-dddd` layout adds no digits. */
  lemma PhoneLayoutDigits(a: string, b: string, e: string)
    requires AllDigits(a) && AllDigits(b) && AllDigits(e)
    ensures Digits("(" + a + ") " + b + "-" + e) == a + b + e
  {
    DigitsOfNonDigits("(");
    DigitsOfNonDigits(") ");
    DigitsOfNonDigits("-");
    DigitsBetweenPunctuation("(", a, ") ", b, "-", e);
  }

  /** Digits interleaved with digit-free separators keep only the digits. */
  lemma DigitsBetweenPunctuation(p: string, a: string, q: string, b: string, t: string, e: string)
    requires Digits(p) == [] && Digits(q) == [] && Digits(t) == []
    requires AllDigits(a) && AllDigits(b) && AllDigits(e)
    ensures Digits(p + a + q + b + t + e) == a + b + e
  {
    DigitsOfDigits(a);
    DigitsOfDigits(b);
    DigitsOfDigits(e);
    DigitsAppend(p, a);
    assert Digits(p + a) == a;
    DigitsAppend(p + a, q);
    assert Digits(p + a + q) == a;
    DigitsAppend(p + a + q, b);
    assert Digits(p + a + q + b) == a + b;
    DigitsAppend(p + a + q + b, t);
    assert Digits(p + a + q + b + t) == a + b;
    DigitsAppend(p + a + q + b + t, e);
  }

  /** The phone entry of the shipping record depends on the phone field alone. */
  lemma PhoneErrorOf(f: ShippingForm)
    ensures ShippingErrorsOf(f).phone == FormatError(f.phone, PhoneRequired, IsTenDigits(Digits(f.phone)), PhoneInvalid)
  {
  }

  /** A string holding digits is not blank, since no digit is whitespace. */
  lemma DigitsNotBlank(s: string)
    requires Digits(s) != []
    ensures !IsBlank(s)
  {
    if IsBlank(s) {
      DigitsOfNonDigits(s);
    }
  }

  /** Formatting a phone number never changes the verdict of the phone check, and a formatted ten-digit number passes it. */
  lemma FormatPhoneKeepsVerdict(text: string)
    ensures ShippingErrorsOf(EmptyShipping.(phone := FormatPhoneNumber(text))).phone
         == ShippingErrorsOf(EmptyShipping.(phone := text)).phone
    ensures |Digits(text)| == 10 ==> ShippingErrorsOf(EmptyShipping.(phone := FormatPhoneNumber(text))).phone == None
  {
    var r := FormatPhoneNumber(text);
    FormatPhoneNumberShape(text);
    PhoneErrorOf(EmptyShipping.(phone := r));
    PhoneErrorOf(EmptyShipping.(phone := text));
    if |Digits(text)| == 10 {
      DigitsAreDigits(text);
      DigitsNotBlank(r);
      DigitsNotBlank(text);
    }
  }

  // ---------------------------------------------------------------------------
  // The wizard

  datatype ShippingField = FullName | Address | City | State | ZipCode | Phone
  datatype PaymentField = CardNumber | ExpiryDate | Cvv | CardHolderName

  function SetShippingField(f: ShippingForm, field: ShippingField, text: string): ShippingForm {
    match field
    case FullName => f.(fullName := text)
    case Address => f.(address := text)
    case City => f.(city := text)
    case State => f.(state := text)
    case ZipCode => f.(zipCode := text)
    case Phone => f.(phone := text)
  }

  function SetPaymentField(p: PaymentForm, field: PaymentField, text: string): PaymentForm {
    match field
    case CardNumber => p.(cardNumber := text)
    case ExpiryDate => p.(expiryDate := text)
    case Cvv => p.(cvv := text)
    case CardHolderName => p.(cardHolderName := text)
  }

  class Wizard {
    var step: Step
    var shipping: ShippingForm
    var payment: PaymentForm
    var shippingErrors: ShippingErrors
    var paymentErrors: PaymentErrors
    var loading: bool

    /** Every step past a stage was reached through that stage's validator. */
    ghost predicate Valid()
      reads this
    {
      && (step != Shipping ==> ShippingValid(shipping))
      && (step == Review ==> PaymentValid(payment))
    }

    constructor ()
      ensures Valid()
      ensures step == Shipping && shipping == EmptyShipping && payment == EmptyPayment
      ensures shippingErrors == NoShippingErrors && paymentErrors == NoPaymentErrors && !loading
    {
      step := Shipping;
      shipping := EmptyShipping;
      payment := EmptyPayment;
      shippingErrors := NoShippingErrors;
      paymentErrors := NoPaymentErrors;
      loading := false;
    }

    /**
     * Typing into a shipping field (the form is shown only on the shipping
     * step). Only the full-name field clears its own error.
     */
    method EditShipping(field: ShippingField, text: string)
      requires Valid() && step == Shipping
      modifies this
      ensures Valid()
      ensures shipping == SetShippingField(old(shipping), field, text)
      ensures shippingErrors == if field == FullName then old(shippingErrors).(fullName := None) else old(shippingErrors)
      ensures step == old(step) && payment == old(payment) && paymentErrors == old(paymentErrors)
      ensures loading == old(loading)
    {
      shipping := SetShippingField(shipping, field, text);
      if field == FullName {
        shippingErrors := shippingErrors.(fullName := None);
      }
    }

    /**
     * Typing into a payment field (shown only on the payment step). The card
     * number is stored formatted and clears its own error; the other fields
     * are stored as typed.
     */
    method EditPayment(field: PaymentField, text: string)
      requires Valid() && step == Payment
      modifies this
      ensures Valid()
      ensures payment == SetPaymentField(old(payment), field,
        if field == CardNumber then FormatCardNumber(text) else text)
      ensures paymentErrors == if field == CardNumber then old(paymentErrors).(cardNumber := None) else old(paymentErrors)
      ensures step == old(step) && shipping == old(shipping) && shippingErrors == old(shippingErrors)
      ensures loading == old(loading)
    {
      if field == CardNumber {
        payment := SetPaymentField(payment, field, FormatCardNumber(text));
        paymentErrors := paymentErrors.(cardNumber := None);
      } else {
        payment := SetPaymentField(payment, field, text);
      }
    }

    /**
     * `handleNext`: shipping advances to payment and payment to review, each
     * only when its validator passes, clearing every error when it advances;
     * a failed validation keeps the step and stores that stage's errors. On
     * the review step nothing happens.
     */
    method Next()
      requires Valid()
      modifies this
      ensures Valid()
      ensures shipping == old(shipping) && payment == old(payment) && loading == old(loading)
      ensures old(step) == Shipping ==>
        if ShippingValid(shipping) then
          step == Payment && shippingErrors == NoShippingErrors && paymentErrors == NoPaymentErrors
        else
          step == Shipping && shippingErrors == ShippingErrorsOf(shipping) && paymentErrors == old(paymentErrors)
      ensures old(step) == Payment ==>
        if PaymentValid(payment) then
          step == Review && shippingErrors == NoShippingErrors && paymentErrors == NoPaymentErrors
        else
          step == Payment && paymentErrors == PaymentErrorsOf(payment) && shippingErrors == old(shippingErrors)
      ensures old(step) == Review ==>
        step == Review && shippingErrors == old(shippingErrors) && paymentErrors == old(paymentErrors)
    {
      if step == Shipping {
        var errors, ok := ValidateShippingForm(shipping);
        shippingErrors := errors;
        if ok {
          step := Payment;
          shippingErrors, paymentErrors := NoShippingErrors, NoPaymentErrors;
        }
      } else if step == Payment {
        var errors, ok := ValidatePaymentForm(payment);
        paymentErrors := errors;
        if ok {
          step := Review;
          shippingErrors, paymentErrors := NoShippingErrors, NoPaymentErrors;
        }
      }
    }

    /**
     * `handlePlaceOrder`: after the simulated delay, empties the cart and
     * hands the order id (random in the application, a parameter here) to
     * the confirmation screen.
     */
    method PlaceOrder(cart: CartChannel, orderId: string) returns (confirmedId: string)
      requires Valid()
      modifies this, cart
      ensures Valid()
      ensures cart.calls == old(cart.calls) + [ClearCart]
      ensures confirmedId == orderId && !loading
      ensures step == old(step) && shipping == old(shipping) && payment == old(payment)
      ensures shippingErrors == old(shippingErrors) && paymentErrors == old(paymentErrors)
    {
      loading := true;
      cart.ClearCart();
      confirmedId := orderId;
      loading := false;
    }
  }
}
