/**
 * The checkout form (frontend/src/store/slices/orderSlice.ts): the customer
 * fields, their error and touched maps, the field validator, and the submit and
 * fetch request flags. The HTTP thunks are left out; their fulfilled and
 * rejected reducers take the payload as a parameter.
 */
module OrderSlice {
  import opened Wrappers
  import opened Text
  import opened ShopTypes

  // ---------------------------------------------------------------- messages

  const FirstNameRequired: string := "שם פרטי הוא שדה חובה"
  const FirstNameTooShort: string := "שם פרטי חייב להכיל לפחות 2 תווים"
  const LastNameRequired: string := "שם משפחה הוא שדה חובה"
  const LastNameTooShort: string := "שם משפחה חייב להכיל לפחות 2 תווים"
  const EmailRequired: string := "כתובת מייל היא שדה חובה"
  const EmailInvalid: string := "כתובת מייל לא תקינה"
  const AddressRequired: string := "כתובת מלאה היא שדה חובה"
  const AddressTooShort: string := "כתובת חייבת להכיל לפחות 10 תווים"

  /** The empty form. */
  const EmptyCustomer := CustomerInfo("", "", "", "")

  // ---------------------------------------------------------------- the validator

  /** Why a field fails: blank, too short once trimmed, or not an email address. */
  datatype Fault = Missing | TooShort | Malformed

  /** The four form fields, in the order `validateForm` checks them. */
  datatype Field = FirstName | LastName | Email | Address

  /** The key a field has in the error and touched maps. */
  function FieldKey(f: Field): (key: string)
    ensures key in {"firstName", "lastName", "email", "address"}
  {
    match f
    case FirstName => "firstName"
    case LastName => "lastName"
    case Email => "email"
    case Address => "address"
  }

  /** Distinct fields have distinct keys. */
  lemma FieldKeysDistinct(f: Field, g: Field)
    ensures FieldKey(f) == FieldKey(g) <==> f == g
  {
    assert "firstName"[0] != "lastName"[0] && "firstName"[0] != "email"[0] && "firstName"[0] != "address"[0];
    assert "lastName"[0] != "email"[0] && "lastName"[0] != "address"[0] && "email"[0] != "address"[0];
  }

  /** The message a field shows for a fault. */
  function Message(f: Field, fault: Fault): string {
    match (f, fault)
    case (FirstName, Missing) => FirstNameRequired
    case (FirstName, _) => FirstNameTooShort
    case (LastName, Missing) => LastNameRequired
    case (LastName, _) => LastNameTooShort
    case (Email, Missing) => EmailRequired
    case (Email, _) => EmailInvalid
    case (Address, Missing) => AddressRequired
    case (Address, _) => AddressTooShort
  }

  /** A text field's check: missing when blank after `trim`, else too short below `minLength` trimmed characters. */
  function TextFault(value: string, minLength: nat): Option<Fault> {
    if Trim(value) == "" then Some(Missing)
    else if |Trim(value)| < minLength then Some(TooShort)
    else None
  }

  /** A text field is missing exactly when it is blank, too short exactly when its trimmed text is, and fine otherwise. */
  lemma TextFaultMeaning(value: string, minLength: nat)
    ensures TextFault(value, minLength) == Some(Missing) <==> IsJsBlank(value)
    ensures TextFault(value, minLength) == Some(TooShort) <==> !IsJsBlank(value) && |Trim(value)| < minLength
    ensures TextFault(value, minLength).None? <==> !IsJsBlank(value) && |Trim(value)| >= minLength
  {
    TrimEmptyIffBlank(value);
  }

  /** The email check: missing when blank after `trim`, else malformed unless the untrimmed text matches the pattern. */
  function EmailFault(email: string): Option<Fault> {
    if Trim(email) == "" then Some(Missing)
    else if !MatchesEmailRegex(email) then Some(Malformed)
    else None
  }

  /** The email is missing exactly when blank, malformed exactly when it is not blank and lacks the shape, and fine otherwise. */
  lemma EmailFaultMeaning(email: string)
    ensures EmailFault(email) == Some(Missing) <==> IsJsBlank(email)
    ensures EmailFault(email) == Some(Malformed) <==> !IsJsBlank(email) && !HasEmailShape(email)
    ensures EmailFault(email).None? <==> HasEmailShape(email)
  {
    TrimEmptyIffBlank(email);
    EmailRegexIsShape(email);
    if HasEmailShape(email) {
      assert !IsJsBlank(email) by {
        var at :| 0 < at < |email| && email[at] == '@';
        assert !IsJsWhitespace(email[at]);
      }
    }
  }

  /** The verdict on one field of the form. */
  function FieldFault(c: CustomerInfo, f: Field): Option<Fault> {
    match f
    case FirstName => TextFault(c.firstName, 2)
    case LastName => TextFault(c.lastName, 2)
    case Email => EmailFault(c.email)
    case Address => TextFault(c.address, 10)
  }

  /** Adds the field's message under its key when the field's verdict is a fault. */
  function WithError(errors: map<string, string>, f: Field, fault: Option<Fault>): map<string, string> {
    if fault.Some? then errors[FieldKey(f) := Message(f, fault.value)] else errors
  }

  /** The `errors` object `validateForm` builds, one field after the other. */
  function FormErrors(c: CustomerInfo): map<string, string> {
    WithError(
      WithError(
        WithError(
          WithError(map[], FirstName, FieldFault(c, FirstName)),
          LastName, FieldFault(c, LastName)),
        Email, FieldFault(c, Email)),
      Address, FieldFault(c, Address))
  }

  /** The form as the checkout page accepts it, stated without the validator. */
  predicate FormAcceptable(c: CustomerInfo) {
    && |Trim(c.firstName)| >= 2 && !IsJsBlank(c.firstName)
    && |Trim(c.lastName)| >= 2 && !IsJsBlank(c.lastName)
    && HasEmailShape(c.email)
    && |Trim(c.address)| >= 10 && !IsJsBlank(c.address)
  }

  /** One step of the error object: the field's key is added or overwritten, every other key kept. */
  lemma WithErrorEntries(e: map<string, string>, f: Field, fault: Option<Fault>)
    ensures forall k :: k in WithError(e, f, fault) <==> k in e || (k == FieldKey(f) && fault.Some?)
    ensures forall k | k in e && k != FieldKey(f) :: WithError(e, f, fault)[k] == e[k]
    ensures fault.Some? ==> WithError(e, f, fault)[FieldKey(f)] == Message(f, fault.value)
  {
  }

  /** A field has an entry exactly when it fails, and the entry is the message of its first failing check. */
  lemma FormErrorsAt(c: CustomerInfo, f: Field)
    ensures FieldKey(f) in FormErrors(c) <==> FieldFault(c, f).Some?
    ensures FieldFault(c, f).Some? ==> FormErrors(c)[FieldKey(f)] == Message(f, FieldFault(c, f).value)
  {
    var e0 := WithError(map[], FirstName, FieldFault(c, FirstName));
    var e1 := WithError(e0, LastName, FieldFault(c, LastName));
    var e2 := WithError(e1, Email, FieldFault(c, Email));
    WithErrorEntries(map[], FirstName, FieldFault(c, FirstName));
    WithErrorEntries(e0, LastName, FieldFault(c, LastName));
    WithErrorEntries(e1, Email, FieldFault(c, Email));
    WithErrorEntries(e2, Address, FieldFault(c, Address));
    FieldKeysDistinct(f, FirstName);
    FieldKeysDistinct(f, LastName);
    FieldKeysDistinct(f, Email);
    FieldKeysDistinct(f, Address);
  }

  /** The error object has no key other than the four fields'. */
  lemma FormErrorsOnlyFieldKeys(c: CustomerInfo)
    ensures forall k | k in FormErrors(c) :: k == FieldKey(FirstName) || k == FieldKey(LastName) || k == FieldKey(Email) || k == FieldKey(Address)
  {
    var e0 := WithError(map[], FirstName, FieldFault(c, FirstName));
    var e1 := WithError(e0, LastName, FieldFault(c, LastName));
    var e2 := WithError(e1, Email, FieldFault(c, Email));
    WithErrorEntries(map[], FirstName, FieldFault(c, FirstName));
    WithErrorEntries(e0, LastName, FieldFault(c, LastName));
    WithErrorEntries(e1, Email, FieldFault(c, Email));
    WithErrorEntries(e2, Address, FieldFault(c, Address));
  }

  /** No field of the form has a fault. */
  predicate NoFieldFails(c: CustomerInfo) {
    FieldFault(c, FirstName).None? && FieldFault(c, LastName).None? && FieldFault(c, Email).None? && FieldFault(c, Address).None?
  }

  /** The error object is empty exactly when no field fails. */
  lemma FormErrorsEmptyIffNoFault(c: CustomerInfo)
    ensures FormErrors(c) == map[] <==> NoFieldFails(c)
  {
    FormErrorsOnlyFieldKeys(c);
    FormErrorsAt(c, FirstName);
    FormErrorsAt(c, LastName);
    FormErrorsAt(c, Email);
    FormErrorsAt(c, Address);
    if FormErrors(c) != map[] {
      var k :| k in FormErrors(c);
    }
  }

  /** The validator reports nothing exactly when the form is acceptable. */
  lemma FormErrorsEmptyIffAcceptable(c: CustomerInfo)
    ensures FormErrors(c) == map[] <==> FormAcceptable(c)
  {
    FormErrorsEmptyIffNoFault(c);
    TextFaultMeaning(c.firstName, 2);
    TextFaultMeaning(c.lastName, 2);
    EmailFaultMeaning(c.email);
    TextFaultMeaning(c.address, 10);
    assert NoFieldFails(c) <==> FormAcceptable(c);
  }

  /** Every message the validator can produce is non-empty. */
  lemma MessagesNonEmpty(f: Field, fault: Fault)
    ensures Message(f, fault) != ""
  {
  }

  // ---------------------------------------------------------------- patches

  /** A `Partial<CustomerInfo>` payload: the fields it carries. */
  datatype CustomerPatch = CustomerPatch(firstName: Option<string>, lastName: Option<string>, email: Option<string>, address: Option<string>)

  /** `Object.keys(payload)`. */
  function PatchKeys(p: CustomerPatch): seq<string> {
    (if p.firstName.Some? then ["firstName"] else [])
    + (if p.lastName.Some? then ["lastName"] else [])
    + (if p.email.Some? then ["email"] else [])
    + (if p.address.Some? then ["address"] else [])
  }

  /** The payload's keys are exactly the fields it carries. */
  lemma PatchKeysListsPresentFields(p: CustomerPatch)
    ensures "firstName" in PatchKeys(p) <==> p.firstName.Some?
    ensures "lastName" in PatchKeys(p) <==> p.lastName.Some?
    ensures "email" in PatchKeys(p) <==> p.email.Some?
    ensures "address" in PatchKeys(p) <==> p.address.Some?
    ensures forall k | k in PatchKeys(p) :: k in {"firstName", "lastName", "email", "address"}
  {
    assert |"firstName"| == 9 && |"lastName"| == 8 && |"email"| == 5 && |"address"| == 7;
  }

  /** `{ ...customerInfo, ...payload }`. */
  function Patched(c: CustomerInfo, p: CustomerPatch): CustomerInfo {
    CustomerInfo(p.firstName.GetOr(c.firstName), p.lastName.GetOr(c.lastName), p.email.GetOr(c.email), p.address.GetOr(c.address))
  }

  /** The error map after the truthy entries under `keys` are deleted. */
  function ErrorsWithout(errors: map<string, string>, keys: seq<string>): map<string, string> {
    map k | k in errors && !(k in keys && errors[k] != "") :: errors[k]
  }

  /** One more key: its entry goes when it is truthy, and nothing else changes. */
  lemma ErrorsWithoutStep(errors: map<string, string>, keys: seq<string>, field: string)
    ensures var before := ErrorsWithout(errors, keys);
      ErrorsWithout(errors, keys + [field]) ==
        if field in before && before[field] != "" then before - {field} else before
  {
  }

  /** With non-empty messages, the patched fields lose their errors and the others keep theirs. */
  lemma PatchClearsExactlyItsFields(errors: map<string, string>, p: CustomerPatch)
    requires forall k | k in errors :: errors[k] != ""
    ensures var e := ErrorsWithout(errors, PatchKeys(p));
      && (forall k :: k in e <==> k in errors && k !in PatchKeys(p))
      && (forall k | k in e :: e[k] == errors[k])
  {
  }

  // ---------------------------------------------------------------- the slice state

  /** The order slice's state as a value. */
  datatype OrderForm = OrderForm(
    customerInfo: CustomerInfo,
    submitting: bool,
    submitError: Option<string>,
    submitSuccess: bool,
    lastOrder: Option<Json>,
    customerOrders: seq<Json>,
    selectedOrder: Option<Json>,
    loading: bool,
    error: Option<string>,
    formErrors: map<string, string>,
    formTouched: map<string, bool>)

  const InitialForm := OrderForm(EmptyCustomer, false, None, false, None, [], None, false, None, map[], map[])

  /** A submission in flight has neither an error nor a success recorded. */
  predicate SubmitFlagsConsistent(f: OrderForm) {
    f.submitting ==> f.submitError.None? && !f.submitSuccess
  }

  function AfterUpdateCustomerInfo(f: OrderForm, p: CustomerPatch): OrderForm {
    f.(customerInfo := Patched(f.customerInfo, p), formErrors := ErrorsWithout(f.formErrors, PatchKeys(p)))
  }

  function AfterSetFieldTouched(f: OrderForm, field: string, touched: Option<bool>): OrderForm {
    f.(formTouched := f.formTouched[field := touched.GetOr(true)])
  }

  function AfterValidateForm(f: OrderForm): OrderForm {
    f.(formErrors := FormErrors(f.customerInfo))
  }

  function AfterClearForm(f: OrderForm): OrderForm {
    f.(customerInfo := EmptyCustomer, formErrors := map[], formTouched := map[], submitError := None, submitSuccess := false)
  }

  function AfterClearError(f: OrderForm): OrderForm {
    f.(error := None, submitError := None)
  }

  function AfterSetSelectedOrder(f: OrderForm, order: Option<Json>): OrderForm {
    f.(selectedOrder := order)
  }

  function AfterSubmitPending(f: OrderForm): OrderForm {
    f.(submitting := true, submitError := None, submitSuccess := false)
  }

  function AfterSubmitFulfilled(f: OrderForm, data: Json): OrderForm {
    f.(submitting := false, submitSuccess := true, lastOrder := Some(data),
       customerInfo := EmptyCustomer, formErrors := map[], formTouched := map[])
  }

  function AfterSubmitRejected(f: OrderForm, message: string): OrderForm {
    f.(submitting := false, submitError := Some(message), submitSuccess := false)
  }

  function AfterFetchPending(f: OrderForm): OrderForm {
    f.(loading := true, error := None)
  }

  function AfterFetchFulfilled(f: OrderForm, order: Json): OrderForm {
    f.(loading := false, selectedOrder := Some(order))
  }

  function AfterFetchRejected(f: OrderForm, message: string): OrderForm {
    f.(loading := false, error := Some(message))
  }

  // ---------------------------------------------------------------- what the reducers promise

  /** Validation replaces the error map by the validator's verdict and leaves the fields alone. */
  lemma ValidateFormReplacesErrors(f: OrderForm)
    ensures var g := AfterValidateForm(f);
      && g.customerInfo == f.customerInfo
      && (g.formErrors == map[] <==> FormAcceptable(f.customerInfo))
      && g.(formErrors := f.formErrors) == f
  {
    FormErrorsEmptyIffAcceptable(f.customerInfo);
  }

  /** Touching a field sets its flag, true by default, and no other. */
  lemma SetFieldTouchedOnlyThatField(f: OrderForm, field: string, touched: Option<bool>)
    ensures var g := AfterSetFieldTouched(f, field, touched);
      && g.formTouched[field] == (touched != Some(false))
      && (forall k | k != field :: (k in g.formTouched <==> k in f.formTouched))
      && (forall k | k != field && k in f.formTouched :: g.formTouched[k] == f.formTouched[k])
  {
  }

  /** Clearing the form resets the fields, errors, touched flags and submit outcome, and keeps the last order. */
  lemma ClearFormResets(f: OrderForm)
    ensures var g := AfterClearForm(f);
      && g.customerInfo == EmptyCustomer && g.formErrors == map[] && g.formTouched == map[]
      && g.submitError.None? && !g.submitSuccess && g.lastOrder == f.lastOrder
      && (forall f :: FieldFault(g.customerInfo, f) == Some(Missing))
  {
    assert IsJsBlank("");
  }

  /** The submit reducers move the flags as a small state machine. */
  lemma SubmitStateMachine(f: OrderForm, data: Json, message: string)
    ensures var p := AfterSubmitPending(f); p.submitting && p.submitError.None? && !p.submitSuccess
    ensures var s := AfterSubmitFulfilled(f, data);
      !s.submitting && s.submitSuccess && s.lastOrder == Some(data) && s.customerInfo == EmptyCustomer && s.formErrors == map[]
    ensures var r := AfterSubmitRejected(f, message); !r.submitting && !r.submitSuccess && r.submitError == Some(message)
    ensures var s := AfterSubmitFulfilled(AfterSubmitPending(f), data); s.submitSuccess && s.submitError.None?
  {
  }

  /** The form reducers keep a submission in flight free of a recorded outcome. */
  lemma FormReducersKeepSubmitFlags(f: OrderForm, p: CustomerPatch, field: string, touched: Option<bool>, order: Option<Json>)
    requires SubmitFlagsConsistent(f)
    ensures SubmitFlagsConsistent(AfterUpdateCustomerInfo(f, p))
    ensures SubmitFlagsConsistent(AfterSetFieldTouched(f, field, touched))
    ensures SubmitFlagsConsistent(AfterValidateForm(f))
    ensures SubmitFlagsConsistent(AfterClearForm(f))
    ensures SubmitFlagsConsistent(AfterClearError(f))
    ensures SubmitFlagsConsistent(AfterSetSelectedOrder(f, order))
  {
    assert AfterUpdateCustomerInfo(f, p).(customerInfo := f.customerInfo, formErrors := f.formErrors) == f;
    assert AfterValidateForm(f).(formErrors := f.formErrors) == f;
  }

  /** The submission and fetch reducers keep a submission in flight free of a recorded outcome. */
  lemma RequestReducersKeepSubmitFlags(f: OrderForm, data: Json, message: string)
    requires SubmitFlagsConsistent(f)
    ensures SubmitFlagsConsistent(AfterSubmitPending(f))
    ensures SubmitFlagsConsistent(AfterSubmitFulfilled(f, data))
    ensures SubmitFlagsConsistent(AfterSubmitRejected(f, message))
    ensures SubmitFlagsConsistent(AfterFetchPending(f))
    ensures SubmitFlagsConsistent(AfterFetchFulfilled(f, data))
    ensures SubmitFlagsConsistent(AfterFetchRejected(f, message))
  {
  }

  /** The fetch reducers touch only the loading flag, the error and the selected order. */
  lemma FetchReducersStayApart(f: OrderForm, order: Json, message: string)
    ensures AfterFetchPending(f).loading && AfterFetchPending(f).error.None?
    ensures !AfterFetchFulfilled(f, order).loading && AfterFetchFulfilled(f, order).selectedOrder == Some(order)
    ensures !AfterFetchRejected(f, message).loading && AfterFetchRejected(f, message).error == Some(message)
    ensures AfterFetchFulfilled(f, order).(loading := f.loading, selectedOrder := f.selectedOrder) == f
  {
  }

  // ---------------------------------------------------------------- the slice

  /** The order slice's draft state, updated in place by the reducers. */
  class OrderState {
    var customerInfo: CustomerInfo
    var submitting: bool
    var submitError: Option<string>
    var submitSuccess: bool
    var lastOrder: Option<Json>
    var customerOrders: seq<Json>
    var selectedOrder: Option<Json>
    var loading: bool
    var error: Option<string>
    var formErrors: map<string, string>
    var formTouched: map<string, bool>

    /** The state as a value. */
    function State(): OrderForm
      reads this
    {
      OrderForm(customerInfo, submitting, submitError, submitSuccess, lastOrder, customerOrders,
                selectedOrder, loading, error, formErrors, formTouched)
    }

    /** `initialState`. */
    constructor()
      ensures State() == InitialForm
    {
      customerInfo := EmptyCustomer;
      submitting := false;
      submitError := None;
      submitSuccess := false;
      lastOrder := None;
      customerOrders := [];
      selectedOrder := None;
      loading := false;
      error := None;
      formErrors := map[];
      formTouched := map[];
    }

    /** `updateCustomerInfo`: merge the payload, then delete the truthy errors of its keys one by one. */
    method UpdateCustomerInfo(p: CustomerPatch)
      modifies this
      ensures State() == AfterUpdateCustomerInfo(old(State()), p)
    {
      customerInfo := Patched(customerInfo, p);
      var keys := PatchKeys(p);
      var i := 0;
      while i < |keys|
        invariant 0 <= i <= |keys|
        invariant formErrors == ErrorsWithout(old(formErrors), keys[..i])
        modifies this`formErrors
      {
        var field := keys[i];
        ErrorsWithoutStep(old(formErrors), keys[..i], field);
        if field in formErrors && formErrors[field] != "" {
          formErrors := formErrors - {field};
        }
        assert keys[..i + 1] == keys[..i] + [field];
        i := i + 1;
      }
      assert keys[..i] == keys;
    }

    /** `setFieldTouched`. */
    method SetFieldTouched(field: string, touched: Option<bool>)
      modifies this
      ensures State() == AfterSetFieldTouched(old(State()), field, touched)
    {
      formTouched := formTouched[field := touched.GetOr(true)];
    }

    /** `validateForm`: the error object, built field by field by `FormErrors`, replaces the old one. */
    method ValidateForm()
      modifies this
      ensures State() == AfterValidateForm(old(State()))
    {
      var errors := FormErrors(customerInfo);
      formErrors := errors;
    }

    /** `clearForm`. */
    method ClearForm()
      modifies this
      ensures State() == AfterClearForm(old(State()))
    {
      customerInfo := EmptyCustomer;
      formErrors := map[];
      formTouched := map[];
      submitError := None;
      submitSuccess := false;
    }

    /** `clearError`. */
    method ClearError()
      modifies this
      ensures State() == AfterClearError(old(State()))
    {
      error := None;
      submitError := None;
    }

    /** `setSelectedOrder`. */
    method SetSelectedOrder(order: Option<Json>)
      modifies this
      ensures State() == AfterSetSelectedOrder(old(State()), order)
    {
      selectedOrder := order;
    }

    /** `submitOrder.pending`. */
    method SubmitPending()
      modifies this
      ensures State() == AfterSubmitPending(old(State()))
    {
      submitting := true;
      submitError := None;
      submitSuccess := false;
    }

    /** `submitOrder.fulfilled`, with the response's `data` field. */
    method SubmitFulfilled(data: Json)
      modifies this
      ensures State() == AfterSubmitFulfilled(old(State()), data)
    {
      submitting := false;
      submitSuccess := true;
      lastOrder := Some(data);
      customerInfo := EmptyCustomer;
      formErrors := map[];
      formTouched := map[];
    }

    /** `submitOrder.rejected`, with the rejection's message. */
    method SubmitRejected(message: string)
      modifies this
      ensures State() == AfterSubmitRejected(old(State()), message)
    {
      submitting := false;
      submitError := Some(message);
      submitSuccess := false;
    }

    /** `fetchOrderById.pending`. */
    method FetchPending()
      modifies this
      ensures State() == AfterFetchPending(old(State()))
    {
      loading := true;
      error := None;
    }

    /** `fetchOrderById.fulfilled`, with the fetched order. */
    method FetchFulfilled(order: Json)
      modifies this
      ensures State() == AfterFetchFulfilled(old(State()), order)
    {
      loading := false;
      selectedOrder := Some(order);
    }

    /** `fetchOrderById.rejected`, with the rejection's message. */
    method FetchRejected(message: string)
      modifies this
      ensures State() == AfterFetchRejected(old(State()), message)
    {
      loading := false;
      error := Some(message);
    }
  }
}
