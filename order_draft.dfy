/**
 * The order draft edited by the checkout form: the billing ("payment") and
 * shipping address records and the order record that holds them.
 *
 * The form updates both records by spread-copy (`{ ...order, [property]: data }`),
 * keyed by a property name. Here the property names are enumerations and the
 * values a tagged union, so a setter is one function per record whose
 * contract says: the named field takes the new value, every other field keeps
 * its old one.
 */
module OrderDraft {

  /** A value that can be stored in a field of the order or of an address record. */
  datatype Value = Party(party: PartyData) | Flag(flag: bool) | Text(text: string) | Number(number: int)

  /** The address record edited by one `DataForm`. */
  datatype PartyData = PartyData(
    isCompany: bool,
    companyName: string,
    oib: string,
    firstName: string,
    lastName: string,
    address: string,
    postalCode: string,
    city: string,
    country: string,
    emailAdress: string,
    phoneNumber: string)

  datatype DataField =
    | IsCompany | CompanyName | Oib | FirstName | LastName
    | Address | PostalCode | City | Country | EmailAdress | PhoneNumber

  /** Reads one field of an address record. */
  function DataGet(d: PartyData, f: DataField): Value {
    match f
    case IsCompany => Flag(d.isCompany)
    case CompanyName => Text(d.companyName)
    case Oib => Text(d.oib)
    case FirstName => Text(d.firstName)
    case LastName => Text(d.lastName)
    case Address => Text(d.address)
    case PostalCode => Text(d.postalCode)
    case City => Text(d.city)
    case Country => Text(d.country)
    case EmailAdress => Text(d.emailAdress)
    case PhoneNumber => Text(d.phoneNumber)
  }

  /** The kind of value a field of an address record holds. */
  predicate DataFits(f: DataField, v: Value) {
    if f == IsCompany then v.Flag? else v.Text?
  }

  /** `setData({ ...data, [property]: value })`: replace one field, keep the rest. */
  function SetDataProperty(d: PartyData, f: DataField, v: Value): (r: PartyData)
    requires DataFits(f, v)
    ensures DataGet(r, f) == v
    ensures forall g :: g != f ==> DataGet(r, g) == DataGet(d, g)
  {
    match f
    case IsCompany => d.(isCompany := v.flag)
    case CompanyName => d.(companyName := v.text)
    case Oib => d.(oib := v.text)
    case FirstName => d.(firstName := v.text)
    case LastName => d.(lastName := v.text)
    case Address => d.(address := v.text)
    case PostalCode => d.(postalCode := v.text)
    case City => d.(city := v.text)
    case Country => d.(country := v.text)
    case EmailAdress => d.(emailAdress := v.text)
    case PhoneNumber => d.(phoneNumber := v.text)
  }

  /** Two address records that agree on every field are the same record, so the
      two ensures of SetDataProperty determine its result. */
  lemma DataExtensionality(a: PartyData, b: PartyData)
    requires forall f :: DataGet(a, f) == DataGet(b, f)
    ensures a == b
  {
    assert DataGet(a, IsCompany) == DataGet(b, IsCompany);
    assert DataGet(a, CompanyName) == DataGet(b, CompanyName);
    assert DataGet(a, Oib) == DataGet(b, Oib);
    assert DataGet(a, FirstName) == DataGet(b, FirstName);
    assert DataGet(a, LastName) == DataGet(b, LastName);
    assert DataGet(a, Address) == DataGet(b, Address);
    assert DataGet(a, PostalCode) == DataGet(b, PostalCode);
    assert DataGet(a, City) == DataGet(b, City);
    assert DataGet(a, Country) == DataGet(b, Country);
    assert DataGet(a, EmailAdress) == DataGet(b, EmailAdress);
    assert DataGet(a, PhoneNumber) == DataGet(b, PhoneNumber);
  }

  /** The checkout form's order record. `paymentMethod` is one of
      "uplata-po-ponudi", "pouzece" or "kartica" once a radio button was used;
      `cardType` and `installments` only matter for "kartica". */
  datatype Order = Order(
    paymentData: PartyData,
    useShippingData: bool,
    shippingData: PartyData,
    additionalInfo: string,
    paymentMethod: string,
    cardType: string,
    installments: int,
    coupon: string,
    save: bool,
    terms: bool)

  datatype OrderField =
    | PaymentData | UseShippingData | ShippingData | AdditionalInfo | PaymentMethod
    | CardType | Installments | Coupon | Save | Terms

  /** Reads one field of the order. */
  function OrderGet(o: Order, f: OrderField): Value {
    match f
    case PaymentData => Party(o.paymentData)
    case UseShippingData => Flag(o.useShippingData)
    case ShippingData => Party(o.shippingData)
    case AdditionalInfo => Text(o.additionalInfo)
    case PaymentMethod => Text(o.paymentMethod)
    case CardType => Text(o.cardType)
    case Installments => Number(o.installments)
    case Coupon => Text(o.coupon)
    case Save => Flag(o.save)
    case Terms => Flag(o.terms)
  }

  /** The kind of value a field of the order holds. */
  predicate OrderFits(f: OrderField, v: Value) {
    match f
    case PaymentData | ShippingData => v.Party?
    case UseShippingData | Save | Terms => v.Flag?
    case Installments => v.Number?
    case AdditionalInfo | PaymentMethod | CardType | Coupon => v.Text?
  }

  /** `setOrderProperty(property)(data)`: the order with field `f` set to `v`
      and every other field as it was. */
  function SetOrderProperty(o: Order, f: OrderField, v: Value): (r: Order)
    requires OrderFits(f, v)
    ensures OrderGet(r, f) == v
    ensures forall g :: g != f ==> OrderGet(r, g) == OrderGet(o, g)
  {
    match f
    case PaymentData => o.(paymentData := v.party)
    case UseShippingData => o.(useShippingData := v.flag)
    case ShippingData => o.(shippingData := v.party)
    case AdditionalInfo => o.(additionalInfo := v.text)
    case PaymentMethod => o.(paymentMethod := v.text)
    case CardType => o.(cardType := v.text)
    case Installments => o.(installments := v.number)
    case Coupon => o.(coupon := v.text)
    case Save => o.(save := v.flag)
    case Terms => o.(terms := v.flag)
  }

  /** Two orders that agree on every field are the same order. */
  lemma OrderExtensionality(a: Order, b: Order)
    requires forall f :: OrderGet(a, f) == OrderGet(b, f)
    ensures a == b
  {
    assert OrderGet(a, PaymentData) == OrderGet(b, PaymentData);
    assert OrderGet(a, UseShippingData) == OrderGet(b, UseShippingData);
    assert OrderGet(a, ShippingData) == OrderGet(b, ShippingData);
    assert OrderGet(a, AdditionalInfo) == OrderGet(b, AdditionalInfo);
    assert OrderGet(a, PaymentMethod) == OrderGet(b, PaymentMethod);
    assert OrderGet(a, CardType) == OrderGet(b, CardType);
    assert OrderGet(a, Installments) == OrderGet(b, Installments);
    assert OrderGet(a, Coupon) == OrderGet(b, Coupon);
    assert OrderGet(a, Save) == OrderGet(b, Save);
    assert OrderGet(a, Terms) == OrderGet(b, Terms);
  }

  /** An edit inside one address form: the order's `PaymentData` or
      `ShippingData` record with one of its fields replaced. */
  function SetPartyField(o: Order, shipping: bool, f: DataField, v: Value): (r: Order)
    requires DataFits(f, v)
    ensures shipping ==> r.shippingData == SetDataProperty(o.shippingData, f, v) && r.paymentData == o.paymentData
    ensures !shipping ==> r.paymentData == SetDataProperty(o.paymentData, f, v) && r.shippingData == o.shippingData
    ensures forall g :: g != PaymentData && g != ShippingData ==> OrderGet(r, g) == OrderGet(o, g)
  {
    if shipping then SetOrderProperty(o, ShippingData, Party(SetDataProperty(o.shippingData, f, v)))
    else SetOrderProperty(o, PaymentData, Party(SetDataProperty(o.paymentData, f, v)))
  }

  /** The "same data for shipping" checkbox: flips `useShippingData`, keeps the
      shipping record, and flipping twice gives back the order it started from. */
  lemma ToggleShippingKeepsShippingData(o: Order)
    ensures var r := SetOrderProperty(o, UseShippingData, Flag(!o.useShippingData));
      && r.useShippingData == !o.useShippingData
      && r.shippingData == o.shippingData
      && SetOrderProperty(r, UseShippingData, Flag(!r.useShippingData)) == o
  {
  }

  /** Choosing a payment method keeps the card type and the number of
      installments, whatever method is chosen. */
  lemma PaymentMethodKeepsCardFields(o: Order, m: string)
    ensures var r := SetOrderProperty(o, PaymentMethod, Text(m));
      && r.paymentMethod == m
      && r.cardType == o.cardType
      && r.installments == o.installments
  {
  }
}
