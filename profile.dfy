/** The form rules of the profile page (src/app/profile/page.tsx): the checks
    made before an address or a payment method is sent, the form state
    handlers, the order status labels, the bonus arithmetic and the tab
    chosen from the URL. */
module Profile {
  import opened Wrappers
  import opened Text

  // ---------------------------------------------------------------------------
  // Pure rules
  // ---------------------------------------------------------------------------

  const AddressRequiredError := "Адрес и город обязательны для заполнения"
  const CardFieldsRequiredError := "Все поля карты обязательны для заполнения"

  /** The address form; the saved address may lack fields (`None`). */
  datatype AddressForm = AddressForm(street: string, city: string, postalCode: string)
  datatype Address = Address(street: Option<string>, city: Option<string>, postalCode: Option<string>,
                             contactPerson: Option<string>)
  datatype AddressField = Street | City | PostalCode

  /** The body of the address update request. */
  datatype AddressRequest = AddressRequest(street: string, city: string, postalCode: string)

  /** The checks of `saveAddress` before the request: street and city must
      not be blank; the request carries the trimmed fields. */
  function CheckAddress(form: AddressForm): (r: Result<AddressRequest, string>)
    ensures r.Err? <==> IsBlank(form.street) || IsBlank(form.city)
    ensures r.Err? ==> r.error == AddressRequiredError
    ensures r.Ok? ==> r.value.street != "" && r.value.city != ""
    ensures r.Ok? ==> r.value == AddressRequest(Trim(form.street), Trim(form.city), Trim(form.postalCode))
  {
    if IsBlank(form.street) || IsBlank(form.city) then Err(AddressRequiredError)
    else Ok(AddressRequest(Trim(form.street), Trim(form.city), Trim(form.postalCode)))
  }

  /** A stored address, or a proposed one, whose street and city carry text. */
  lemma CheckedAddressHasText(form: AddressForm)
    requires CheckAddress(form).Ok?
    ensures exists i :: 0 <= i < |form.street| && !IsWhitespace(form.street[i])
    ensures exists i :: 0 <= i < |form.city| && !IsWhitespace(form.city[i])
  {
    BlankIffAllWhitespace(form.street);
    BlankIffAllWhitespace(form.city);
  }

  /** Trimming the request again changes nothing: the fields sent are already
      trimmed. */
  lemma CheckAddressIdempotent(form: AddressForm)
    requires CheckAddress(form).Ok?
    ensures var q := CheckAddress(form).value;
      CheckAddress(AddressForm(q.street, q.city, q.postalCode)) == Ok(q)
  {
    TrimIdempotent(form.street);
    TrimIdempotent(form.city);
    TrimIdempotent(form.postalCode);
  }

  /** `userAddress.x || ''`. */
  function OrEmpty(s: Option<string>): string {
    if s.Some? then s.value else ""
  }

  /** The address form restored from the saved address on cancel. */
  function RestoredForm(saved: Address): (r: AddressForm)
    ensures saved.street.Some? ==> r.street == saved.street.value
    ensures saved.street.None? ==> r.street == ""
    ensures saved.city.Some? ==> r.city == saved.city.value
    ensures saved.city.None? ==> r.city == ""
    ensures saved.postalCode.Some? ==> r.postalCode == saved.postalCode.value
    ensures saved.postalCode.None? ==> r.postalCode == ""
  {
    AddressForm(OrEmpty(saved.street), OrEmpty(saved.city), OrEmpty(saved.postalCode))
  }

  /** `handleAddressChange`'s updater: one field takes the value. */
  function SetAddressField(form: AddressForm, field: AddressField, value: string): (r: AddressForm)
    ensures r.street == (if field == Street then value else form.street)
    ensures r.city == (if field == City then value else form.city)
    ensures r.postalCode == (if field == PostalCode then value else form.postalCode)
  {
    match field
    case Street => form.(street := value)
    case City => form.(city := value)
    case PostalCode => form.(postalCode := value)
  }

  /** The payment form; `kind` is the form's `type` ('card', 'cash' or
      'online'). */
  datatype PaymentForm = PaymentForm(kind: string, cardNumber: string, cardHolder: string, cardExpiry: string,
                                     isDefault: bool)

  /** One `handlePaymentChange(field, value)` call. */
  datatype PaymentEdit =
    | SetKind(kind: string)
    | SetCardNumber(cardNumber: string)
    | SetCardHolder(cardHolder: string)
    | SetCardExpiry(cardExpiry: string)
    | SetDefault(isDefault: bool)

  /** A saved payment method; only how many there are matters here. */
  datatype PaymentMethod = PaymentMethod(id: string, kind: string, isDefault: bool)

  /** The body of the add-payment-method request. */
  datatype PaymentRequest = PaymentRequest(kind: string, cardNumber: string, cardHolder: string, cardExpiry: string,
                                           isDefault: bool)

  /** The check of `addPaymentMethod` before the request: a card needs a
      number, a holder and an expiry that are not blank; other kinds need
      nothing. The request carries the fields as typed. */
  function CheckPayment(form: PaymentForm): (r: Result<PaymentRequest, string>)
    ensures r.Err? <==>
      form.kind == "card" && (IsBlank(form.cardNumber) || IsBlank(form.cardHolder) || IsBlank(form.cardExpiry))
    ensures r.Err? ==> r.error == CardFieldsRequiredError
    ensures form.kind != "card" ==> r.Ok?
    ensures r.Ok? ==> r.value == PaymentRequest(form.kind, form.cardNumber, form.cardHolder, form.cardExpiry,
                                                form.isDefault)
  {
    if form.kind == "card" && (IsBlank(form.cardNumber) || IsBlank(form.cardHolder) || IsBlank(form.cardExpiry)) then
      Err(CardFieldsRequiredError)
    else
      Ok(PaymentRequest(form.kind, form.cardNumber, form.cardHolder, form.cardExpiry, form.isDefault))
  }

  /** The form `startAddingPayment` opens: an empty card form, the default
      method exactly when there is none yet. */
  function FreshPaymentForm(methods: seq<PaymentMethod>): (r: PaymentForm)
    ensures r.kind == "card" && r.cardNumber == "" && r.cardHolder == "" && r.cardExpiry == ""
    ensures r.isDefault <==> |methods| == 0
  {
    PaymentForm("card", "", "", "", |methods| == 0)
  }

  /** A fresh card form is refused until the card fields are filled in. */
  lemma FreshFormRefused(methods: seq<PaymentMethod>)
    ensures CheckPayment(FreshPaymentForm(methods)) == Err(CardFieldsRequiredError)
  {
    assert IsBlank("");
  }

  /** `handlePaymentChange`'s updater: one field takes the value. */
  function EditPayment(form: PaymentForm, edit: PaymentEdit): (r: PaymentForm)
    ensures r.kind == (if edit.SetKind? then edit.kind else form.kind)
    ensures r.cardNumber == (if edit.SetCardNumber? then edit.cardNumber else form.cardNumber)
    ensures r.cardHolder == (if edit.SetCardHolder? then edit.cardHolder else form.cardHolder)
    ensures r.cardExpiry == (if edit.SetCardExpiry? then edit.cardExpiry else form.cardExpiry)
    ensures r.isDefault == (if edit.SetDefault? then edit.isDefault else form.isDefault)
  {
    match edit
    case SetKind(k) => form.(kind := k)
    case SetCardNumber(n) => form.(cardNumber := n)
    case SetCardHolder(h) => form.(cardHolder := h)
    case SetCardExpiry(e) => form.(cardExpiry := e)
    case SetDefault(d) => form.(isDefault := d)
  }

  /** `getStatusText`: the label of an order status. */
  function StatusText(status: string): (r: string)
    ensures status == "доставлен" ==> r == "Доставлен"
    ensures status == "в_пути" ==> r == "В пути"
    ensures status == "обработка" ==> r == "Обработка"
    ensures status !in {"доставлен", "в_пути", "обработка"} ==> r == status
  {
    match status
    case "доставлен" => "Доставлен"
    case "в_пути" => "В пути"
    case "обработка" => "Обработка"
    case _ => status
  }

  /** The points of a bonus level. */
  const LevelSize := 2000

  /** `Math.trunc(a / b)` for `b > 0`: the quotient rounded toward zero. */
  function JsQuot(a: int, b: int): int
    requires b > 0
  {
    if a >= 0 then a / b else -((-a) / b)
  }

  /** JavaScript's `a % b` for `b > 0`: the remainder of the quotient
      rounded toward zero, so it takes the sign of `a`. The clauses together
      determine it: `a` is the truncated quotient times `b` plus the
      remainder, which has the sign of `a` and is smaller than `b` in
      magnitude. */
  function JsRem(a: int, b: int): (r: int)
    requires b > 0
    ensures a >= 0 ==> 0 <= r < b
    ensures a < 0 ==> -b < r <= 0
    ensures a == JsQuot(a, b) * b + r
  {
    if a >= 0 then a % b
    else
      var q := (-a) / b;
      assert -a == q * b + (-a) % b;
      assert (-q) * b == -(q * b);
      -((-a) % b)
  }

  /** `bonusPoints || 0`: a missing balance counts as zero. */
  function Balance(bonusPoints: Option<int>): int {
    if bonusPoints.Some? then bonusPoints.value else 0
  }

  /** `2000 - ((bonusPoints || 0) % 2000)`: the points still missing to the
      next level. Adding them to the balance reaches a multiple of 2000. */
  function PointsToNextLevel(bonusPoints: Option<int>): (r: int)
    ensures (Balance(bonusPoints) + r) % LevelSize == 0
    ensures bonusPoints.None? ==> r == LevelSize
    ensures r > 0
  {
    LevelSize - JsRem(Balance(bonusPoints), LevelSize)
  }

  /** For a non-negative balance the missing points lie in 1..2000 and lead
      exactly to the next multiple of 2000. */
  lemma PointsToNextLevelBounds(points: int)
    requires points >= 0
    ensures 1 <= PointsToNextLevel(Some(points)) <= LevelSize
    ensures (points + PointsToNextLevel(Some(points))) % LevelSize == 0
    ensures PointsToNextLevel(Some(points)) == LevelSize <==> points % LevelSize == 0
  {
  }

  /** For a negative balance the truncating remainder is not positive, so the
      figure is at least 2000 and below 4000. */
  lemma PointsToNextLevelNegative(points: int)
    requires points < 0
    ensures LevelSize <= PointsToNextLevel(Some(points)) < 2 * LevelSize
    ensures (points + PointsToNextLevel(Some(points))) % LevelSize == 0
  {
  }

  /** The profile page tabs. */
  datatype Tab = ProfileTab | OrdersTab

  /** The `tab` URL parameter: 'profile' and 'orders' switch to that tab, any
      other value or none keeps the current tab. */
  function TabFromUrl(param: Option<string>, current: Tab): (r: Tab)
    ensures param == Some("profile") ==> r == ProfileTab
    ensures param == Some("orders") ==> r == OrdersTab
    ensures param !in {Some("profile"), Some("orders")} ==> r == current
  {
    if param.Some? && param.value in ["profile", "orders"] then
      (if param.value == "profile" then ProfileTab else OrdersTab)
    else current
  }

  // ---------------------------------------------------------------------------
  // Form state
  // ---------------------------------------------------------------------------

  /** The address and payment-method state of the profile page. */
  class ProfileForms {
    var userAddress: Address
    var isEditingAddress: bool
    var addressForm: AddressForm
    var addressUpdating: bool
    var addressError: string
    var paymentMethods: seq<PaymentMethod>
    var isAddingPayment: bool
    var paymentForm: PaymentForm
    var paymentLoading: bool
    var paymentError: string

    constructor ()
      ensures userAddress == Address(Some(""), Some(""), Some(""), Some(""))
      ensures !isEditingAddress && addressForm == AddressForm("", "", "") && !addressUpdating && addressError == ""
      ensures paymentMethods == [] && !isAddingPayment && !paymentLoading && paymentError == ""
      ensures paymentForm == PaymentForm("card", "", "", "", false)
    {
      userAddress := Address(Some(""), Some(""), Some(""), Some(""));
      isEditingAddress := false;
      addressForm := AddressForm("", "", "");
      addressUpdating := false;
      addressError := "";
      paymentMethods := [];
      isAddingPayment := false;
      paymentForm := PaymentForm("card", "", "", "", false);
      paymentLoading := false;
      paymentError := "";
    }

    /** `startEditingAddress`. */
    method StartEditingAddress()
      modifies this`isEditingAddress, this`addressError
      ensures isEditingAddress && addressError == ""
    {
      isEditingAddress := true;
      addressError := "";
    }

    /** `cancelEditingAddress`: leave edit mode and restore the form from the
        saved address. */
    method CancelEditingAddress()
      modifies this`isEditingAddress, this`addressError, this`addressForm
      ensures !isEditingAddress && addressError == ""
      ensures addressForm == RestoredForm(userAddress)
    {
      isEditingAddress := false;
      addressError := "";
      addressForm := AddressForm(OrEmpty(userAddress.street), OrEmpty(userAddress.city),
                                 OrEmpty(userAddress.postalCode));
    }

    /** `handleAddressChange`. */
    method HandleAddressChange(field: AddressField, value: string)
      modifies this`addressForm
      ensures addressForm == SetAddressField(old(addressForm), field, value)
    {
      match field
      case Street => addressForm := addressForm.(street := value);
      case City => addressForm := addressForm.(city := value);
      case PostalCode => addressForm := addressForm.(postalCode := value);
    }

    /** `saveAddress` up to the request: on a blank street or city it sets
        the error and sends nothing; otherwise it marks the update as running
        and returns the request to send. */
    method SaveAddress() returns (request: Option<AddressRequest>)
      modifies this`addressError, this`addressUpdating
      ensures CheckAddress(addressForm).Err? ==>
        request.None? && addressError == AddressRequiredError && addressUpdating == old(addressUpdating)
      ensures CheckAddress(addressForm).Ok? ==>
        request == Some(CheckAddress(addressForm).value) && addressUpdating && addressError == ""
    {
      if IsBlank(addressForm.street) || IsBlank(addressForm.city) {
        addressError := AddressRequiredError;
        return None;
      }
      addressUpdating := true;
      addressError := "";
      request := Some(AddressRequest(Trim(addressForm.street), Trim(addressForm.city), Trim(addressForm.postalCode)));
    }

    /** `startAddingPayment`. */
    method StartAddingPayment()
      modifies this`isAddingPayment, this`paymentError, this`paymentForm
      ensures isAddingPayment && paymentError == ""
      ensures paymentForm == FreshPaymentForm(paymentMethods)
    {
      isAddingPayment := true;
      paymentError := "";
      paymentForm := PaymentForm("card", "", "", "", |paymentMethods| == 0);
    }

    /** `cancelAddingPayment`. */
    method CancelAddingPayment()
      modifies this`isAddingPayment, this`paymentError
      ensures !isAddingPayment && paymentError == ""
    {
      isAddingPayment := false;
      paymentError := "";
    }

    /** `handlePaymentChange`. */
    method HandlePaymentChange(edit: PaymentEdit)
      modifies this`paymentForm
      ensures paymentForm == EditPayment(old(paymentForm), edit)
    {
      match edit
      case SetKind(k) => paymentForm := paymentForm.(kind := k);
      case SetCardNumber(n) => paymentForm := paymentForm.(cardNumber := n);
      case SetCardHolder(h) => paymentForm := paymentForm.(cardHolder := h);
      case SetCardExpiry(e) => paymentForm := paymentForm.(cardExpiry := e);
      case SetDefault(d) => paymentForm := paymentForm.(isDefault := d);
    }

    /** `addPaymentMethod` up to the request: an incomplete card sets the
        error and sends nothing; otherwise it marks the request as running and
        returns what to send. */
    method AddPaymentMethod() returns (request: Option<PaymentRequest>)
      modifies this`paymentError, this`paymentLoading
      ensures CheckPayment(paymentForm).Err? ==>
        request.None? && paymentError == CardFieldsRequiredError && paymentLoading == old(paymentLoading)
      ensures CheckPayment(paymentForm).Ok? ==>
        request == Some(CheckPayment(paymentForm).value) && paymentLoading && paymentError == ""
    {
      if paymentForm.kind == "card" {
        if IsBlank(paymentForm.cardNumber) || IsBlank(paymentForm.cardHolder) || IsBlank(paymentForm.cardExpiry) {
          paymentError := CardFieldsRequiredError;
          return None;
        }
      }
      paymentLoading := true;
      paymentError := "";
      request := Some(PaymentRequest(paymentForm.kind, paymentForm.cardNumber, paymentForm.cardHolder,
                                     paymentForm.cardExpiry, paymentForm.isDefault));
    }
  }
}
