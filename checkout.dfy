/**
 * The checkout form (`CartForm`): its event handlers and the submit button's
 * handler, which scans the required controls, decides whether the order may
 * be sent, sends it, and replaces the local cart when the server answers with
 * a different one.
 *
 * The browser is reduced to what the handler observes: `checkValidity` of a
 * required text input is the parameter `textValid`, a required checkbox is
 * valid exactly when it is ticked, `JSON.stringify` of a cart is the parameter
 * `stringify`, and the server's answer is the parameter `response`.
 */
module Checkout {
  import opened Wrappers
  import opened OrderDraft
  import opened CartWire

  /** The position of a required text input within one `DataForm`, in
      document order. Switching a form between a company and a person keeps
      the input element at each position, whichever field it then shows. */
  type Slot = k: nat | k < 7

  /** A required control of the form, identified by its element: the text
      input at a position of the billing or the shipping `DataForm`, or the
      terms checkbox. */
  datatype Control = Input(shipping: bool, slot: Slot) | TermsBox

  /** The required text inputs one `DataForm` renders, in document order. */
  function RequiredInputs(d: PartyData): (r: seq<DataField>)
    ensures |r| == 7
    ensures d.isCompany ==> r[0] == CompanyName && r[1] == Oib
    ensures !d.isCompany ==> r[0] == FirstName && r[1] == LastName
    ensures r[2..] == [Address, PostalCode, City, EmailAdress, PhoneNumber]
  {
    (if d.isCompany then [CompanyName, Oib] else [FirstName, LastName])
      + [Address, PostalCode, City, EmailAdress, PhoneNumber]
  }

  /** The address record a `DataForm` edits. */
  function Party(o: Order, shipping: bool): PartyData {
    if shipping then o.shippingData else o.paymentData
  }

  /** The field the input at `slot` of a `DataForm` shows; never the company
      flag, which is a pair of radio buttons. */
  function Shown(o: Order, shipping: bool, slot: Slot): (f: DataField)
    ensures f != IsCompany && f != Country
  {
    RequiredInputs(Party(o, shipping))[slot]
  }

  /** The required text inputs of one `DataForm`. */
  function Inputs(shipping: bool): (r: seq<Control>)
    ensures |r| == 7
    ensures forall k :: 0 <= k < 7 ==> r[k] == Input(shipping, k)
  {
    seq(7, k requires 0 <= k < 7 => Input(shipping, k))
  }

  /** `querySelectorAll("[required]")` on the form: the billing inputs, the
      shipping inputs when the shipping form is shown, and the terms checkbox
      once a failed attempt has marked it required. */
  function RequiredControls(o: Order, termsRequired: bool): (r: seq<Control>)
    ensures TermsBox in r <==> termsRequired
    ensures termsRequired ==> r[|r| - 1] == TermsBox
    ensures forall shipping: bool, k: Slot :: Input(shipping, k) in r <==> !shipping || o.useShippingData
  {
    var billing, shown := Inputs(false), if o.useShippingData then Inputs(true) else [];
    var r := billing + shown + (if termsRequired then [TermsBox] else []);
    assert forall shipping: bool, k: Slot :: !shipping ==> Input(shipping, k) == billing[k];
    assert forall shipping: bool, k: Slot :: shipping && o.useShippingData ==> Input(shipping, k) == shown[k];
    r
  }

  /** The text an input of the form shows. */
  function InputText(o: Order, shipping: bool, f: DataField): string {
    var v := DataGet(Party(o, shipping), f);
    if v.Text? then v.text else ""
  }

  /** `n.checkValidity()` of one required control. */
  function Check(o: Order, textValid: (DataField, string) -> bool, c: Control): bool {
    match c
    case TermsBox => o.terms
    case Input(shipping, slot) =>
      var f := Shown(o, shipping, slot);
      textValid(f, InputText(o, shipping, f))
  }

  /** Typing into one input of a `DataForm` changes the check of that input
      only: the terms checkbox, the other form and the other inputs of the
      same form check as before. */
  lemma EditChangesOnlyItsOwnCheck(o: Order, shipping: bool, f: DataField, text: string,
                                   textValid: (DataField, string) -> bool, c: Control)
    requires f != IsCompany
    requires c.Input? ==> c.shipping != shipping || Shown(o, shipping, c.slot) != f
    ensures Check(SetPartyField(o, shipping, f, Text(text)), textValid, c) == Check(o, textValid, c)
  {
    var o' := SetPartyField(o, shipping, f, Text(text));
    if c.Input? {
      assert Party(o', c.shipping).isCompany == Party(o, c.shipping).isCompany by {
        assert DataGet(Party(o', c.shipping), IsCompany) == DataGet(Party(o, c.shipping), IsCompany);
      }
      var g := Shown(o, c.shipping, c.slot);
      assert DataGet(Party(o', c.shipping), g) == DataGet(Party(o, c.shipping), g);
    }
  }

  function Checks(o: Order, textValid: (DataField, string) -> bool, controls: seq<Control>): (r: seq<bool>)
    ensures |r| == |controls|
    ensures forall i :: 0 <= i < |r| ==> r[i] == Check(o, textValid, controls[i])
  {
    if controls == [] then []
    else [Check(o, textValid, controls[0])] + Checks(o, textValid, controls[1..])
  }

  /** Whether a submit attempt gets past the validity scan. */
  predicate FormValid(o: Order, termsRequired: bool, textValid: (DataField, string) -> bool) {
    forall c :: c in RequiredControls(o, termsRequired) ==> Check(o, textValid, c)
  }

  /** The validity scan of the submit handler (the `forEach` over the required
      controls). It reports whether every check passed, the first failing
      position (the only control scrolled into view) and every failing
      position (each one marked `~critical`). */
  method Scan(checks: seq<bool>) returns (valid: bool, first: Option<nat>, failing: set<int>)
    ensures valid <==> forall i :: 0 <= i < |checks| ==> checks[i]
    ensures failing == set i | 0 <= i < |checks| && !checks[i]
    ensures first.Some? <==> !valid
    ensures first.Some? ==> first.value < |checks| && !checks[first.value]
    ensures first.Some? ==> forall j :: 0 <= j < first.value ==> checks[j]
  {
    var scrolled := false;
    valid, first, failing := true, None, {};
    var i := 0;
    while i < |checks|
      invariant 0 <= i <= |checks|
      invariant scrolled <==> first.Some?
      invariant valid <==> forall j :: 0 <= j < i ==> checks[j]
      invariant first.Some? <==> !valid
      invariant failing == set j | 0 <= j < i && !checks[j]
      invariant first.Some? ==> first.value < i && !checks[first.value]
      invariant first.Some? ==> forall j :: 0 <= j < first.value ==> checks[j]
    {
      if !checks[i] {
        if !scrolled {
          first := Some(i);
          scrolled := true;
        }
        failing := failing + {i};
        valid := false;
      }
      i := i + 1;
    }
  }

  /** The submit button's label. */
  function SubmitLabel(paymentMethod: string): string {
    if paymentMethod == "kartica" then "Plati karticom" else "Naruči"
  }

  const ReconcilePrefix: string :=
    "Cijene proizvoda ažurirane. Molimo da provjerite nove cijene i ponovo kliknete tipku "

  /** The text of the alert raised when the server rewrote the cart. */
  function ReconcileMessage(paymentMethod: string): string {
    ReconcilePrefix + (if paymentMethod == "kartica" then "\"Plati karticom\"" else "\"Naruči\"")
  }

  /** The alert asks the user to press the submit button again and names it by
      the label the button shows: "Plati karticom" exactly for card payment. */
  lemma ReconcileMessageNamesButton(paymentMethod: string)
    ensures ReconcileMessage(paymentMethod) == ReconcilePrefix + "\"" + SubmitLabel(paymentMethod) + "\""
    ensures SubmitLabel(paymentMethod) == "Plati karticom" <==> paymentMethod == "kartica"
    ensures SubmitLabel(paymentMethod) == "Naruči" <==> paymentMethod != "kartica"
  {
  }

  datatype Alert = Alert(Message: string, Severity: string, Icon: string, Timeout: int)

  /** The alert raised when the server rewrote the cart: critical, with the
      alert-circle icon, shown for ten seconds, naming the submit button. */
  function ReconcileAlert(paymentMethod: string): (a: Alert)
    ensures a.Message == ReconcilePrefix + "\"" + SubmitLabel(paymentMethod) + "\""
    ensures a.Severity == "critical" && a.Icon == "AlertCircle" && a.Timeout == 10000
  {
    Alert(ReconcileMessage(paymentMethod), "critical", "AlertCircle", 10000)
  }

  /** The body of `POST /checkout/`: the order's fields and the cart string. */
  datatype CheckoutRequest = CheckoutRequest(order: Order, cart: string)

  datatype Outcome =
    | Blocked     // a required control failed its check; nothing was sent
    | Failed      // the request was sent but no answer could be read
    | Confirmed   // the server returned the cart that was sent
    | Reconciled  // the server returned another cart, which replaced the local one

  /** When the carts' serialisations are compared with an injective `stringify`,
      the cart is replaced exactly when the server's cart differs from the local one. */
  lemma ReconcileIffCartsDiffer(stringify: Cart -> string, local: Cart, server: Cart)
    requires forall a: Cart, b: Cart :: stringify(a) == stringify(b) ==> a == b
    ensures stringify(local) != stringify(server) <==> local != server
  {
  }

  /** A required terms checkbox blocks every attempt until it is ticked. */
  lemma RequiredTermsMustBeTicked(o: Order, textValid: (DataField, string) -> bool)
    requires FormValid(o, true, textValid)
    ensures o.terms
  {
    assert TermsBox in RequiredControls(o, true);
  }

  /** While the terms checkbox is not required, ticking or unticking it does not
      change the outcome of the scan. */
  lemma UnrequiredTermsIgnored(o: Order, textValid: (DataField, string) -> bool, b: bool)
    ensures FormValid(o, false, textValid) <==> FormValid(o.(terms := b), false, textValid)
  {
    var o' := o.(terms := b);
    assert RequiredControls(o', false) == RequiredControls(o, false);
    forall c | c in RequiredControls(o, false)
      ensures Check(o, textValid, c) == Check(o', textValid, c)
    {
      assert c != TermsBox;
    }
  }

  /** The terms quirk: with every text input valid and the terms unticked, the
      first attempt passes the scan (the checkbox is marked required only after
      it), and the same order is blocked on the next attempt. */
  lemma UntickedTermsBlockNextAttempt(o: Order, textValid: (DataField, string) -> bool)
    requires forall c :: c in RequiredControls(o, false) ==> Check(o, textValid, c)
    requires !o.terms
    ensures FormValid(o, false, textValid)
    ensures !FormValid(o, true, textValid)
  {
    assert TermsBox in RequiredControls(o, true);
  }

  /** The required controls that fail their check. */
  function Failing(o: Order, textValid: (DataField, string) -> bool, controls: seq<Control>): set<Control> {
    set c | c in controls && !Check(o, textValid, c)
  }

  /** `k` is the position of the first control that fails its check. */
  predicate FirstFailing(o: Order, textValid: (DataField, string) -> bool, controls: seq<Control>, k: int) {
    && 0 <= k < |controls|
    && !Check(o, textValid, controls[k])
    && forall j :: 0 <= j < k ==> Check(o, textValid, controls[j])
  }

  /** What the scan's positions mean for the controls themselves. */
  lemma ScanResult(o: Order, textValid: (DataField, string) -> bool, controls: seq<Control>,
                   checks: seq<bool>, valid: bool, failing: set<int>)
    requires checks == Checks(o, textValid, controls)
    requires valid <==> forall i :: 0 <= i < |checks| ==> checks[i]
    requires failing == set i | 0 <= i < |checks| && !checks[i]
    ensures (set i | i in failing :: controls[i]) == Failing(o, textValid, controls)
    ensures valid <==> forall c :: c in controls ==> Check(o, textValid, c)
  {
  }

  /** The marks on billing inputs and the terms checkbox. */
  function BillingMarks(marks: set<Control>): (r: set<Control>)
    ensures forall c :: c in r <==> c in marks && !(c.Input? && c.shipping)
  {
    set c | c in marks && !(c.Input? && c.shipping)
  }

  /** The state the form's handlers act on: the cart and order held by the
      page, the flags the handlers set on controls, and what went out of the
      form (saved carts, scrolls, requests, alerts). */
  class CheckoutForm {
    var cart: Cart
    var order: Order
    /** The cart last handed to `cartSave`, if any. */
    var savedCart: Option<Cart>
    /** Whether the terms checkbox carries the `required` attribute. */
    var termsRequired: bool
    /** The controls whose class list holds `~critical`. */
    var critical: set<Control>
    /** Every control scrolled into view, in order. */
    var scrolled: seq<Control>
    /** Every checkout request sent, in order. */
    var requests: seq<CheckoutRequest>
    /** Every alert dispatched, in order. */
    var alerts: seq<Alert>

    /** Marks sit only on controls that are in the document: a shipping input
        carries one only while the shipping form is shown. */
    predicate MarksMounted()
      reads this
    {
      forall c :: c in critical ==> c.Input? && c.shipping ==> order.useShippingData
    }

    constructor (cart: Cart, order: Order)
      ensures MarksMounted()
      ensures this.cart == cart && this.order == order
      ensures savedCart == None && !termsRequired && critical == {}
      ensures scrolled == [] && requests == [] && alerts == []
    {
      this.cart := cart;
      this.order := order;
      savedCart := None;
      termsRequired := false;
      critical := {};
      scrolled := [];
      requests := [];
      alerts := [];
    }

    /** `setOrderProperty(property)(data)`, as the shipping checkbox, the notes,
        the payment-method radios, the card selects, the coupon and the save
        checkbox call it. Hiding the shipping form unmounts its inputs, and
        their marks go with them. */
    method SetProperty(f: OrderField, v: Value)
      requires OrderFits(f, v)
      modifies this`order, this`critical
      ensures MarksMounted()
      ensures order == SetOrderProperty(old(order), f, v)
      ensures critical == if order.useShippingData then old(critical) else BillingMarks(old(critical))
    {
      order := SetOrderProperty(order, f, v);
      if !order.useShippingData {
        critical := BillingMarks(critical);
      }
    }

    /** A radio button or select of a `DataForm` (`isCompany`, `country`). The
        marks stay where they are: after a company/person switch the mark of
        an input is on the same element, which now shows the other field. */
    method EditData(shipping: bool, f: DataField, v: Value)
      requires DataFits(f, v)
      requires MarksMounted()
      modifies this`order
      ensures MarksMounted()
      ensures order == SetPartyField(old(order), shipping, f, v)
    {
      order := SetPartyField(order, shipping, f, v);
      assert order.useShippingData == old(order).useShippingData by {
        assert OrderGet(order, UseShippingData) == OrderGet(old(order), UseShippingData);
      }
    }

    /** The `TextInput` at `slot` of a `DataForm`: stores the text in the field
        the input shows and clears the input's `~critical` mark once the new
        text passes its check. */
    method EditInput(shipping: bool, slot: Slot, text: string, textValid: (DataField, string) -> bool)
      requires MarksMounted()
      modifies this`order, this`critical
      ensures MarksMounted()
      ensures order == SetPartyField(old(order), shipping, Shown(old(order), shipping, slot), Text(text))
      ensures critical ==
        if textValid(Shown(old(order), shipping, slot), text) then old(critical) - {Input(shipping, slot)}
        else old(critical)
    {
      var f := Shown(order, shipping, slot);
      order := SetPartyField(order, shipping, f, Text(text));
      assert order.useShippingData == old(order).useShippingData by {
        assert OrderGet(order, UseShippingData) == OrderGet(old(order), UseShippingData);
      }
      if textValid(f, text) {
        critical := critical - {Input(shipping, slot)};
      }
    }

    /** The terms checkbox: flips `terms` and drops its `required` attribute. */
    method ToggleTerms()
      requires MarksMounted()
      modifies this`order, this`termsRequired
      ensures MarksMounted()
      ensures order == SetOrderProperty(old(order), Terms, Flag(!old(order).terms))
      ensures !termsRequired
    {
      order := SetOrderProperty(order, Terms, Flag(!order.terms));
      termsRequired := false;
    }

    /** The validity scan with its effects on the controls: every failing
        control is marked `~critical` and the first one is scrolled into view. */
    method MarkInvalid(textValid: (DataField, string) -> bool) returns (valid: bool)
      requires MarksMounted()
      modifies this`critical, this`scrolled
      ensures MarksMounted()
      ensures valid <==> FormValid(order, termsRequired, textValid)
      ensures critical == old(critical) + Failing(order, textValid, RequiredControls(order, termsRequired))
      ensures !valid ==> exists k ::
        && FirstFailing(order, textValid, RequiredControls(order, termsRequired), k)
        && scrolled == old(scrolled) + [RequiredControls(order, termsRequired)[k]]
      ensures valid ==> scrolled == old(scrolled)
    {
      var controls := RequiredControls(order, termsRequired);
      var checks := Checks(order, textValid, controls);
      var first, failing;
      valid, first, failing := Scan(checks);
      ScanResult(order, textValid, controls, checks, valid, failing);
      if first.Some? {
        scrolled := scrolled + [controls[first.value]];
        assert FirstFailing(order, textValid, controls, first.value);
      }
      critical := critical + (set i | i in failing :: controls[i]);
    }

    /** Sending the order and reading the answer: one request with the cart
        string; when the server's cart serialises differently from the local
        one, the local cart is replaced, saved, and one alert is dispatched. */
    method Send(stringify: Cart -> string, response: Option<Cart>) returns (outcome: Outcome)
      modifies this`requests, this`cart, this`savedCart, this`alerts
      ensures requests == old(requests) + [CheckoutRequest(order, Serialize(old(cart)))]
      ensures outcome != Blocked
      ensures outcome == Failed <==> response.None?
      ensures outcome == Reconciled <==> response.Some? && stringify(old(cart)) != stringify(response.value)
      ensures outcome == Reconciled ==>
        && cart == response.value
        && savedCart == Some(response.value)
        && alerts == old(alerts) + [ReconcileAlert(order.paymentMethod)]
      ensures outcome != Reconciled ==>
        cart == old(cart) && savedCart == old(savedCart) && alerts == old(alerts)
    {
      requests := requests + [CheckoutRequest(order, Serialize(cart))];
      if response.None? {
        return Failed;
      }
      var serverCart := response.value;
      if stringify(cart) != stringify(serverCart) {
        savedCart := Some(serverCart);
        cart := serverCart;
        alerts := alerts + [ReconcileAlert(order.paymentMethod)];
        return Reconciled;
      }
      return Confirmed;
    }

    /** The submit button's handler. */
    method Submit(textValid: (DataField, string) -> bool, stringify: Cart -> string, response: Option<Cart>)
      returns (outcome: Outcome)
      requires MarksMounted()
      modifies this
      ensures MarksMounted()
      ensures order == old(order)
      // the scan runs over the controls required when the button is pressed
      ensures outcome == Blocked <==> !old(FormValid(order, termsRequired, textValid))
      ensures critical == old(critical) + Failing(order, textValid, old(RequiredControls(order, termsRequired)))
      // exactly the first failing control is scrolled into view
      ensures outcome == Blocked ==> exists k ::
        && FirstFailing(order, textValid, old(RequiredControls(order, termsRequired)), k)
        && scrolled == old(scrolled) + [old(RequiredControls(order, termsRequired))[k]]
      ensures outcome != Blocked ==> scrolled == old(scrolled)
      // the terms checkbox becomes required only after the scan
      ensures termsRequired == (old(termsRequired) || !order.terms)
      // a blocked attempt sends nothing and changes neither the cart nor the alerts
      ensures outcome == Blocked ==>
        cart == old(cart) && savedCart == old(savedCart) && requests == old(requests) && alerts == old(alerts)
      // otherwise exactly one request goes out
      ensures outcome != Blocked ==> requests == old(requests) + [CheckoutRequest(order, Serialize(old(cart)))]
      ensures outcome == Failed <==> outcome != Blocked && response.None?
      // reconciliation
      ensures outcome == Reconciled <==>
        outcome != Blocked && response.Some? && stringify(old(cart)) != stringify(response.value)
      ensures outcome == Reconciled ==>
        && cart == response.value
        && savedCart == Some(response.value)
        && alerts == old(alerts) + [ReconcileAlert(order.paymentMethod)]
      ensures outcome != Reconciled ==>
        cart == old(cart) && savedCart == old(savedCart) && alerts == old(alerts)
    {
      var valid := MarkInvalid(textValid);
      if !order.terms {
        termsRequired := true;
      }
      if !valid {
        return Blocked;
      }
      outcome := Send(stringify, response);
    }
  }
}
