/**
 * The payment page: the card form's input shaping (card number in groups of four,
 * MM/YY expiry, three-digit CVV), its ordered validation, and the confirmation step
 * that ends the purchase by clearing the staged records from storage.
 */
module Payment {
  import opened Wrappers
  import opened Text
  import opened Validation
  import opened Records
  import opened Storage
  import opened ApiService

  // ---------------------------------------------------------------- card number

  /**
   * `s.replace(/(\d{4})/g, '$1 ')`: scanning left to right, every run of four digits
   * is copied followed by a space; any other character is copied as it is.
   */
  function GroupDigits(s: string): string
    decreases |s|
  {
    if |s| >= 4 && AllDigits(s[..4]) then s[..4] + " " + GroupDigits(s[4..])
    else if s == [] then []
    else [s[0]] + GroupDigits(s[1..])
  }

  /** The card field's formatting: strip white space, group the digits, trim. */
  function FormatCardNumber(value: string): string {
    Trim(GroupDigits(StripSpaces(value)))
  }

  /** Grouping only inserts spaces. */
  lemma {:induction false} StripSpacesOfGroupDigits(s: string)
    requires NoSpaces(s)
    ensures StripSpaces(GroupDigits(s)) == s
    decreases |s|
  {
    if |s| >= 4 && AllDigits(s[..4]) {
      StripSpacesOfGroupDigits(s[4..]);
      StripSpacesAppend(s[..4] + " ", GroupDigits(s[4..]));
      StripSpacesAppend(s[..4], " ");
      StripSpacesOfNoSpaces(s[..4]);
      assert StripSpaces(" ") == [];
      assert s[..4] + s[4..] == s;
    } else if s != [] {
      StripSpacesOfGroupDigits(s[1..]);
      StripSpacesAppend([s[0]], GroupDigits(s[1..]));
      StripSpacesOfNoSpaces([s[0]]);
      assert [s[0]] + s[1..] == s;
    }
  }

  /** Removing the spaces from a formatted card number gives back the white-space-free input. */
  lemma CardSpacesRoundTrip(value: string)
    ensures StripSpaces(FormatCardNumber(value)) == StripSpaces(value)
  {
    var g := GroupDigits(StripSpaces(value));
    StripSpacesTrim(g);
    StripSpacesOfGroupDigits(StripSpaces(value));
  }

  /** Formatting an already formatted card number changes nothing. */
  lemma CardFormatIdempotent(value: string)
    ensures FormatCardNumber(FormatCardNumber(value)) == FormatCardNumber(value)
  {
    CardSpacesRoundTrip(value);
  }

  /** Fewer than four characters are never grouped. */
  lemma {:induction false} ShortUngrouped(s: string)
    requires |s| < 4
    ensures GroupDigits(s) == s
    decreases |s|
  {
    if s != [] {
      ShortUngrouped(s[1..]);
      assert [s[0]] + s[1..] == s;
    }
  }

  /** Digits come out in groups of four, each followed by a space. */
  lemma {:induction false} GroupedDigitsShape(s: string)
    requires AllDigits(s)
    ensures |GroupDigits(s)| == |s| + |s| / 4
    ensures s != [] ==> IsDigit(GroupDigits(s)[0])
    ensures s != [] && |s| % 4 == 0 ==>
      GroupDigits(s)[|GroupDigits(s)| - 1] == ' ' && IsDigit(GroupDigits(s)[|GroupDigits(s)| - 2])
    ensures |s| % 4 != 0 ==> IsDigit(GroupDigits(s)[|GroupDigits(s)| - 1])
    decreases |s|
  {
    if |s| >= 4 {
      GroupedDigitsShape(s[4..]);
      assert GroupDigits(s) == s[..4] + " " + GroupDigits(s[4..]);
    } else {
      ShortUngrouped(s);
    }
  }

  lemma TrimEndDropsOneSpace(g: string)
    requires |g| >= 2 && g[|g| - 1] == ' ' && !IsSpace(g[|g| - 2])
    ensures TrimEnd(g) == g[..|g| - 1]
  {
    var h := g[..|g| - 1];
    assert h[|h| - 1] == g[|g| - 2];
    assert TrimEnd(h) == h;
  }

  lemma GroupCountArithmetic(n: nat)
    requires n > 0
    ensures n % 4 == 0 ==> n + n / 4 - 1 == n + (n - 1) / 4
    ensures n % 4 != 0 ==> n / 4 == (n - 1) / 4
    ensures n + (n - 1) / 4 <= 19 <==> n <= 16
  {
  }

  /** Trimming grouped digits removes only the space after a final full group. */
  lemma TrimGroupedDigits(s: string)
    requires AllDigits(s) && s != []
    ensures var g := GroupDigits(s);
      Trim(g) == if |s| % 4 == 0 then g[..|g| - 1] else g
  {
    var g := GroupDigits(s);
    GroupedDigitsShape(s);
    DigitIsNotSpace(g[0]);
    assert TrimStart(g) == g;
    if |s| % 4 == 0 {
      DigitIsNotSpace(g[|g| - 2]);
      TrimEndDropsOneSpace(g);
    } else {
      DigitIsNotSpace(g[|g| - 1]);
      assert TrimEnd(g) == g;
    }
  }

  /** `n` digits format to `n + (n - 1) / 4` characters: the groups and the spaces between them. */
  lemma DigitCardLength(s: string)
    requires AllDigits(s) && s != []
    ensures |FormatCardNumber(s)| == |s| + (|s| - 1) / 4
  {
    DigitsHaveNoSpaces(s);
    StripSpacesOfNoSpaces(s);
    TrimGroupedDigits(s);
    GroupedDigitsShape(s);
    GroupCountArithmetic(|s|);
  }

  // ---------------------------------------------------------------- expiry and CVV

  /** The expiry field's formatting: digits only, a '/' after the first two, at most two after it. */
  function FormatExpiry(value: string): (r: string)
    ensures |r| <= 5
    ensures |KeepDigits(value)| < 2 ==> r == KeepDigits(value)
    ensures |KeepDigits(value)| >= 2 ==> |r| >= 3 && r[2] == '/' && AllDigits(r[..2]) && AllDigits(r[3..])
  {
    var digits := KeepDigits(value);
    if |digits| >= 2 then
      digits[..2] + "/" + digits[2..if |digits| < 4 then |digits| else 4]
    else
      digits
  }

  lemma KeepDigitsOfSlash()
    ensures KeepDigits("/") == []
  {
    assert "/"[1..] == [];
  }

  lemma KeepDigitsAroundSlash(a: string, b: string)
    requires AllDigits(a) && AllDigits(b)
    ensures KeepDigits(a + "/" + b) == a + b
  {
    KeepDigitsAppend(a + "/", b);
    KeepDigitsAppend(a, "/");
    KeepDigitsOfDigits(a);
    KeepDigitsOfDigits(b);
    KeepDigitsOfSlash();
    assert KeepDigits(a + "/") == a + [];
    assert a + [] == a;
  }

  /** The digits kept by the expiry field are the first four of the input's. */
  lemma ExpiryKeepsFourDigits(value: string)
    ensures var d := KeepDigits(value);
      KeepDigits(FormatExpiry(value)) == d[..if |d| < 4 then |d| else 4]
  {
    var d := KeepDigits(value);
    var k := if |d| < 4 then |d| else 4;
    if |d| >= 2 {
      assert FormatExpiry(value) == d[..2] + "/" + d[2..k];
      KeepDigitsAroundSlash(d[..2], d[2..k]);
      assert d[..2] + d[2..k] == d[..k];
    } else {
      KeepDigitsOfDigits(d);
      assert d[..k] == d;
    }
  }

  /** Formatting an already formatted expiry changes nothing. */
  lemma ExpiryFormatIdempotent(value: string)
    ensures FormatExpiry(FormatExpiry(value)) == FormatExpiry(value)
  {
    ExpiryKeepsFourDigits(value);
    var d := KeepDigits(value);
    var e := KeepDigits(FormatExpiry(value));
    if |d| >= 2 {
      assert e[..2] == d[..2];
      assert e[2..] == d[2..if |d| < 4 then |d| else 4];
    }
  }

  /** Erasing the '/' of `MM/` brings it straight back: the edit `MM` is shaped to `MM/` again. */
  lemma SlashComesBack(value: string)
    requires |KeepDigits(value)| == 2
    ensures FormatExpiry(value) == KeepDigits(value) + "/"
    ensures FormatExpiry(FormatExpiry(value)[..2]) == FormatExpiry(value)
  {
    var d := KeepDigits(value);
    assert FormatExpiry(value)[..2] == d;
    KeepDigitsOfDigits(d);
  }

  // ---------------------------------------------------------------- the form

  datatype Field = CardNumber | CardName | ExpiryDate | Cvv

  datatype PaymentForm = PaymentForm(cardNumber: string, cardName: string, expiryDate: string, cvv: string)

  const EmptyForm := PaymentForm("", "", "", "")

  function FieldValue(form: PaymentForm, field: Field): string {
    match field
    case CardNumber => form.cardNumber
    case CardName => form.cardName
    case ExpiryDate => form.expiryDate
    case Cvv => form.cvv
  }

  function WithField(form: PaymentForm, field: Field, value: string): PaymentForm {
    match field
    case CardNumber => form.(cardNumber := value)
    case CardName => form.(cardName := value)
    case ExpiryDate => form.(expiryDate := value)
    case Cvv => form.(cvv := value)
  }

  /** The value an edit of `field` stores, or None when the edit is rejected and the form left as it was. */
  function FormattedInput(field: Field, value: string): (r: Option<string>)
    ensures field == CardNumber ==> (r.Some? <==> |FormatCardNumber(value)| <= 19)
    ensures field == CardNumber && r.Some? ==> r.value == FormatCardNumber(value)
    ensures field == CardName ==> r == Some(value)
    ensures field == ExpiryDate ==> r == Some(FormatExpiry(value))
    ensures field == Cvv ==> (r.Some? <==> |KeepDigits(value)| <= 3)
    ensures field == Cvv && r.Some? ==> r.value == KeepDigits(value)
  {
    match field
    case CardNumber =>
      var formatted := FormatCardNumber(value);
      if |formatted| > 19 then None else Some(formatted)
    case ExpiryDate =>
      var formatted := FormatExpiry(value);
      if |formatted| > 5 then None else Some(formatted)
    case Cvv =>
      var formatted := KeepDigits(value);
      if |formatted| > 3 then None else Some(formatted)
    case CardName => Some(value)
  }

  /** The form after `handleInputChange` for an edit of `field` to `value`. */
  function ApplyInput(form: PaymentForm, field: Field, value: string): PaymentForm {
    match FormattedInput(field, value)
    case Some(formatted) => WithField(form, field, formatted)
    case None => form
  }

  /** An edit changes only the named field, and changes it only when it is accepted. */
  lemma ApplyInputChangesOnlyItsField(form: PaymentForm, field: Field, value: string, other: Field)
    ensures other != field ==> FieldValue(ApplyInput(form, field, value), other) == FieldValue(form, other)
    ensures FieldValue(ApplyInput(form, field, value), field) ==
      if FormattedInput(field, value).Some? then FormattedInput(field, value).value else FieldValue(form, field)
  {
  }

  /** A card number typed as digits is accepted exactly up to sixteen digits. */
  lemma DigitCardAcceptedUpTo16(digits: string)
    requires AllDigits(digits)
    ensures FormattedInput(CardNumber, digits).Some? <==> |digits| <= 16
    ensures FormattedInput(CardNumber, digits).Some? ==>
      |StripSpaces(FormattedInput(CardNumber, digits).value)| == |digits|
  {
    var formatted := FormatCardNumber(digits);
    assert FormattedInput(CardNumber, digits) == if |formatted| <= 19 then Some(formatted) else None;
    if digits != [] {
      DigitCardLength(digits);
      GroupCountArithmetic(|digits|);
    } else {
      assert formatted == [];
    }
    CardSpacesRoundTrip(digits);
    DigitsHaveNoSpaces(digits);
    StripSpacesOfNoSpaces(digits);
  }

  // ---------------------------------------------------------------- validation

  const CardMessage := "Número de tarjeta inválido"
  const NameMessage := "Nombre del titular es requerido"
  const ExpiryMessage := "Fecha de expiración inválida"
  const CvvMessage := "CVV inválido"

  function PaymentChecks(form: PaymentForm): seq<Check> {
    [
      Check(!(form.cardNumber == "" || |StripSpaces(form.cardNumber)| < 16), CardMessage),
      Check(form.cardName != "", NameMessage),
      Check(!(form.expiryDate == "" || |form.expiryDate| < 5), ExpiryMessage),
      Check(!(form.cvv == "" || |form.cvv| < 3), CvvMessage)
    ]
  }

  /** `validateForm()`: None when the form may be sent, otherwise the message of the first failing check. */
  function ValidateForm(form: PaymentForm): (r: Option<string>)
    ensures r.None? <==>
      |StripSpaces(form.cardNumber)| >= 16 && form.cardName != "" && |form.expiryDate| >= 5 && |form.cvv| >= 3
    ensures r.Some? ==> r.value in {CardMessage, NameMessage, ExpiryMessage, CvvMessage}
  {
    var checks := PaymentChecks(form);
    assert StripSpaces("") == [];
    assert (forall i :: 0 <= i < |checks| ==> checks[i].passes) <==>
      checks[0].passes && checks[1].passes && checks[2].passes && checks[3].passes;
    FirstFailure(checks)
  }

  /** The checks run in order: card number, holder's name, expiry, CVV; only the first failure is told. */
  lemma ValidationOrder(form: PaymentForm)
    ensures |StripSpaces(form.cardNumber)| < 16 ==> ValidateForm(form) == Some(CardMessage)
    ensures |StripSpaces(form.cardNumber)| >= 16 && form.cardName == "" ==>
      ValidateForm(form) == Some(NameMessage)
    ensures |StripSpaces(form.cardNumber)| >= 16 && form.cardName != "" && |form.expiryDate| < 5 ==>
      ValidateForm(form) == Some(ExpiryMessage)
    ensures |StripSpaces(form.cardNumber)| >= 16 && form.cardName != "" && |form.expiryDate| >= 5 && |form.cvv| < 3 ==>
      ValidateForm(form) == Some(CvvMessage)
  {
    var checks := PaymentChecks(form);
    if |StripSpaces(form.cardNumber)| < 16 {
      FirstFailureAt(checks, 0);
    } else if form.cardName == "" {
      FirstFailureAt(checks, 1);
    } else if |form.expiryDate| < 5 {
      FirstFailureAt(checks, 2);
    } else if |form.cvv| < 3 {
      FirstFailureAt(checks, 3);
    }
  }

  /**
   * A form filled in through the field shaping passes validation exactly when the card has
   * sixteen digits, the name is given, the expiry has four digits and the CVV three.
   */
  lemma ShapedFormValidity(card: string, name: string, expiry: string, cvv: string)
    requires AllDigits(card) && |card| <= 16
    requires |KeepDigits(cvv)| <= 3
    ensures
      var form := ApplyInput(ApplyInput(ApplyInput(ApplyInput(EmptyForm,
        CardNumber, card), CardName, name), ExpiryDate, expiry), Cvv, cvv);
      ValidateForm(form).None? <==>
        |card| == 16 && name != "" && |KeepDigits(expiry)| >= 4 && |KeepDigits(cvv)| == 3
  {
    DigitCardAcceptedUpTo16(card);
    var number := FormattedInput(CardNumber, card).value;
    assert |StripSpaces(number)| == |card|;
    var f1 := ApplyInput(EmptyForm, CardNumber, card);
    assert f1 == PaymentForm(number, "", "", "");
    var f2 := ApplyInput(f1, CardName, name);
    assert f2 == PaymentForm(number, name, "", "");
    var f3 := ApplyInput(f2, ExpiryDate, expiry);
    assert f3 == PaymentForm(number, name, FormatExpiry(expiry), "");
    var f4 := ApplyInput(f3, Cvv, cvv);
    assert f4 == PaymentForm(number, name, FormatExpiry(expiry), KeepDigits(cvv));
    var d := KeepDigits(expiry);
    assert |FormatExpiry(expiry)| >= 5 <==> |d| >= 4 by {
      if |d| >= 2 {
        assert |FormatExpiry(expiry)| == 3 + (if |d| < 4 then |d| else 4) - 2;
      }
    }
  }

  // ---------------------------------------------------------------- the page

  const PaymentFallback := "Error al procesar el pago. Intenta nuevamente."

  /** The argument of the order-confirmation call: the staged `orderId`. */
  datatype ConfirmRequest = ConfirmRequest(orderId: Option<int>)

  /** The staged payment record that `loadPaymentData` finds, if any. */
  function StoredPayment(items: map<string, Item>): (p: Option<StagedPayment>)
    ensures p.Some? <==> "paymentData" in items && items["paymentData"].PaymentJson?
    ensures p.Some? ==> items["paymentData"] == PaymentJson(p.value)
  {
    match GetItem(items, "paymentData")
    case Some(PaymentJson(p)) => Some(p)
    case _ => None
  }

  /** The storage once a confirmation has succeeded. */
  function AfterConfirm(items: map<string, Item>): map<string, Item> {
    items - {"paymentData", "checkoutData"}
  }

  /** A successful confirmation clears both staged records and keeps every other key. */
  lemma ConfirmClearsStagedRecords(items: map<string, Item>)
    ensures StoredPayment(AfterConfirm(items)).None?
    ensures GetItem(AfterConfirm(items), "checkoutData").None?
    ensures forall k :: k != "paymentData" && k != "checkoutData" ==> GetItem(AfterConfirm(items), k) == GetItem(items, k)
  {
  }

  class PaymentPage {
    const store: LocalStorage
    var paymentData: Option<StagedPayment>
    var loading: bool
    var processing: bool
    var error: string
    var paymentSuccess: bool
    var orderDetails: Option<Order>
    var form: PaymentForm
    var navigatedTo: Option<string>

    constructor (store: LocalStorage)
      ensures this.store == store
      ensures paymentData.None? && loading && !processing && error == ""
      ensures !paymentSuccess && orderDetails.None? && form == EmptyForm && navigatedTo.None?
    {
      this.store := store;
      paymentData := None;
      loading := true;
      processing := false;
      error := "";
      paymentSuccess := false;
      orderDetails := None;
      form := EmptyForm;
      navigatedTo := None;
    }

    /** `loadPaymentData()`: a missing or unreadable staged payment sends the visitor to `/concerts`. */
    method LoadPaymentData()
      modifies this`paymentData, this`loading, this`navigatedTo
      ensures !loading
      ensures StoredPayment(store.items).Some? ==>
        paymentData == StoredPayment(store.items) && navigatedTo == old(navigatedTo)
      ensures StoredPayment(store.items).None? ==>
        paymentData == old(paymentData) && navigatedTo == Some("/concerts")
    {
      var data := GetItem(store.items, "paymentData");
      if data.None? || data == Some(Text("")) {
        navigatedTo := Some("/concerts");
      } else if data.value.PaymentJson? {
        paymentData := Some(data.value.payment);
      } else {
        // JSON.parse throws
        navigatedTo := Some("/concerts");
      }
      loading := false;
    }

    /** `handleInputChange` */
    method HandleInputChange(field: Field, value: string)
      modifies this`form
      ensures form == ApplyInput(old(form), field, value)
    {
      var formatted := FormattedInput(field, value);
      if formatted.Some? {
        form := WithField(form, field, formatted.value);
      }
    }

    /** The confirmed branch of `handlePayment`: show the order and clear both staged records. */
    method ShowConfirmation(order: Order)
      modifies this`paymentSuccess, this`orderDetails, store
      ensures paymentSuccess && orderDetails == Some(order)
      ensures store.items == AfterConfirm(old(store.items))
    {
      orderDetails := Some(order);
      paymentSuccess := true;
      store.RemoveItem("paymentData");
      store.RemoveItem("checkoutData");
      assert store.items == AfterConfirm(old(store.items));
    }

    /**
     * `handlePayment`, given the settled reply of the confirmation call. The form is only
     * shown once a staged payment is loaded. Returns the confirmation request sent, if any.
     */
    method HandlePayment(reply: Result<Order, ErrorBody>) returns (request: Option<ConfirmRequest>)
      requires paymentData.Some?
      modifies this`processing, this`error, this`paymentSuccess, this`orderDetails, store
      ensures ValidateForm(form).Some? ==>
        request.None? && error == ValidateForm(form).value && processing == old(processing) &&
        paymentSuccess == old(paymentSuccess) && orderDetails == old(orderDetails) &&
        store.items == old(store.items)
      ensures ValidateForm(form).None? ==> request == Some(ConfirmRequest(paymentData.value.orderId))
      ensures ValidateForm(form).None? && reply.Success? ==>
        processing && error == "" && paymentSuccess && orderDetails == Some(reply.value) &&
        store.items == AfterConfirm(old(store.items))
      ensures ValidateForm(form).None? && reply.Failure? ==>
        !processing && error == MessageOr(reply.error, PaymentFallback) &&
        paymentSuccess == old(paymentSuccess) && orderDetails == old(orderDetails) &&
        store.items == old(store.items)
    {
      var failure := ValidateForm(form);
      if failure.Some? {
        error := failure.value;
        return None;
      }
      processing := true;
      error := "";
      request := Some(ConfirmRequest(paymentData.value.orderId));
      match reply {
        case Success(order) =>
          ShowConfirmation(order);
        case Failure(e) =>
          error := MessageOr(e, PaymentFallback);
          processing := false;
      }
      assert form == old(form);
    }
  }
}
