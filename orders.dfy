/** The order vocabulary and the customer identity rule of an order create
    request (app/schemas/orders.py). */
module Orders {
  import opened Wrappers
  import opened Text

  // ---------------------------------------------------------------------------
  // Enumerations
  // ---------------------------------------------------------------------------

  /** `OrderStatus` */
  datatype OrderStatus =
    | New | Received | Accepted | InPreparation | AwaitingShipment | AwaitingCollection
    | InDelivery | Completed | Rejected | Cancelled | DeliveryFailed

  /** `ServiceType` */
  datatype ServiceType = Delivery | Collection | EatIn

  function StatusLiteral(s: OrderStatus): string {
    match s
    case New => "new"
    case Received => "received"
    case Accepted => "accepted"
    case InPreparation => "in_preparation"
    case AwaitingShipment => "awaiting_shipment"
    case AwaitingCollection => "awaiting_collection"
    case InDelivery => "in_delivery"
    case Completed => "completed"
    case Rejected => "rejected"
    case Cancelled => "cancelled"
    case DeliveryFailed => "delivery_failed"
  }

  const StatusLiterals: set<string> := {
    "new", "received", "accepted", "in_preparation", "awaiting_shipment", "awaiting_collection",
    "in_delivery", "completed", "rejected", "cancelled", "delivery_failed"}

  /** Accepts a status string exactly when it is one of the eleven values. */
  function ParseStatus(s: string): (r: Option<OrderStatus>)
    ensures r.Some? <==> s in StatusLiterals
    ensures r.Some? ==> StatusLiteral(r.value) == s
  {
    if s == "new" then Some(New)
    else if s == "received" then Some(Received)
    else if s == "accepted" then Some(Accepted)
    else if s == "in_preparation" then Some(InPreparation)
    else if s == "awaiting_shipment" then Some(AwaitingShipment)
    else if s == "awaiting_collection" then Some(AwaitingCollection)
    else if s == "in_delivery" then Some(InDelivery)
    else if s == "completed" then Some(Completed)
    else if s == "rejected" then Some(Rejected)
    else if s == "cancelled" then Some(Cancelled)
    else if s == "delivery_failed" then Some(DeliveryFailed)
    else None
  }

  /** Every status is read back from its literal, so literals are distinct. */
  lemma StatusRoundTrip(s: OrderStatus)
    ensures ParseStatus(StatusLiteral(s)) == Some(s)
  {
  }

  function ServiceTypeLiteral(t: ServiceType): string {
    match t
    case Delivery => "delivery"
    case Collection => "collection"
    case EatIn => "eat_in"
  }

  /** Accepts a service type string exactly when it is one of the three values. */
  function ParseServiceType(s: string): (r: Option<ServiceType>)
    ensures r.Some? <==> s in {"delivery", "collection", "eat_in"}
    ensures r.Some? ==> ServiceTypeLiteral(r.value) == s
  {
    if s == "delivery" then Some(Delivery)
    else if s == "collection" then Some(Collection)
    else if s == "eat_in" then Some(EatIn)
    else None
  }

  lemma ServiceTypeRoundTrip(t: ServiceType)
    ensures ParseServiceType(ServiceTypeLiteral(t)) == Some(t)
  {
  }

  // ---------------------------------------------------------------------------
  // String fields
  // ---------------------------------------------------------------------------

  /** The characters `str_strip_whitespace` trims, restricted to ASCII: tab
      through carriage return, and space. */
  const SchemaWhitespace: set<char> := {'\t', '\n', '\U{0B}', '\U{0C}', '\r', ' '}

  /** A string field as stored: trimmed at both ends. The stored value is the
      slice of the given one that starts at its first non-whitespace
      character; everything cut off is whitespace, and the kept slice neither
      starts nor ends with whitespace. */
  function StripField(s: Option<string>): (r: Option<string>)
    ensures r.Some? <==> s.Some?
    ensures r.Some? ==> |r.value| <= |s.value|
    ensures r.Some? ==>
      var lead := LeadingIn(s.value, SchemaWhitespace);
      && lead + |r.value| <= |s.value|
      && r.value == s.value[lead..lead + |r.value|]
      && (forall i :: 0 <= i < |s.value| && (i < lead || lead + |r.value| <= i) ==> s.value[i] in SchemaWhitespace)
      && (r.value == [] || (r.value[0] !in SchemaWhitespace && r.value[|r.value| - 1] !in SchemaWhitespace))
  {
    if s.Some? then Some(StripChars(s.value, SchemaWhitespace)) else None
  }

  /** Python truthiness of an optional string. */
  predicate Truthy(s: Option<string>) {
    s.Some? && s.value != []
  }

  /** A field given only as whitespace is stored as "" and so counts as absent. */
  lemma BlankFieldIsAbsent(s: string)
    requires forall i :: 0 <= i < |s| ==> s[i] in SchemaWhitespace
    ensures !Truthy(StripField(Some(s)))
  {
  }

  /** A field with a character outside the trimmed set stays present. */
  lemma NonBlankFieldIsPresent(s: string, k: nat)
    requires k < |s| && s[k] !in SchemaWhitespace
    ensures Truthy(StripField(Some(s)))
  {
    var r := StripChars(s, SchemaWhitespace);
    var lead := LeadingIn(s, SchemaWhitespace);
    assert lead <= k < lead + |r|;
  }

  // ---------------------------------------------------------------------------
  // OrderCreate and _customer_identity_rule
  // ---------------------------------------------------------------------------

  /** The guest customer object; its own fields are not examined by the rule. */
  datatype Customer = Customer(fields: map<string, string>)

  /** The fields of `OrderCreate` the validation reads. */
  datatype OrderCreate = OrderCreate(
    status: OrderStatus,
    serviceType: Option<ServiceType>,
    customerId: Option<string>,
    customerListId: Option<string>,
    customerPrivateRef: Option<string>,
    customer: Option<Customer>)

  predicate HasId(o: OrderCreate) {
    Truthy(o.customerId)
  }

  /** The list pair counts only when both halves are non-empty. */
  predicate HasListPair(o: OrderCreate) {
    Truthy(o.customerListId) && Truthy(o.customerPrivateRef)
  }

  /** Any customer object counts, even one with no fields set. */
  predicate HasGuest(o: OrderCreate) {
    o.customer.Some?
  }

  function Count(b: bool): nat {
    if b then 1 else 0
  }

  const IdentityConflictMessage: string :=
    "Provide only one of: customer_id, (customer_list_id + customer_private_ref), or customer."

  /** `_customer_identity_rule`: more than one identity form is an error; the
      order is otherwise returned as it is. */
  function CustomerIdentityRule(o: OrderCreate): (r: Result<OrderCreate, string>)
    ensures r.Success? <==>
      !(HasId(o) && HasListPair(o)) && !(HasId(o) && HasGuest(o)) && !(HasListPair(o) && HasGuest(o))
    ensures r.Success? ==> r.value == o
    ensures r.Failure? ==> r.error == IdentityConflictMessage
  {
    if Count(HasId(o)) + Count(HasListPair(o)) + Count(HasGuest(o)) > 1 then Failure(IdentityConflictMessage)
    else Success(o)
  }

  /** The order request as it arrives; absent and null are both None. */
  datatype OrderCreateInput = OrderCreateInput(
    status: Option<string>,
    serviceType: Option<string>,
    customerId: Option<string>,
    customerListId: Option<string>,
    customerPrivateRef: Option<string>,
    customer: Option<Customer>)

  datatype OrderError = MissingStatus | InvalidStatus | InvalidServiceType | IdentityConflict

  function StatusErrors(status: Option<string>): set<OrderError> {
    if status.None? then {MissingStatus}
    else if ParseStatus(status.value).None? then {InvalidStatus}
    else {}
  }

  function ServiceTypeErrors(serviceType: Option<string>): set<OrderError> {
    if serviceType.Some? && ParseServiceType(serviceType.value).None? then {InvalidServiceType} else {}
  }

  /** Validation of an order create request: field errors are reported
      together; only a request without them reaches the identity rule, which
      sees the trimmed string fields. */
  function ValidateOrderCreate(input: OrderCreateInput): (r: Result<OrderCreate, set<OrderError>>)
    ensures r.Failure? ==> r.error != {}
    ensures r.Failure? ==>
      && (MissingStatus in r.error <==> input.status.None?)
      && (InvalidStatus in r.error <==> input.status.Some? && input.status.value !in StatusLiterals)
      && (InvalidServiceType in r.error <==>
            input.serviceType.Some? && input.serviceType.value !in {"delivery", "collection", "eat_in"})
      && (IdentityConflict in r.error ==> r.error == {IdentityConflict})
    ensures r.Success? ==>
      && input.status.Some? && StatusLiteral(r.value.status) == input.status.value
      && (r.value.serviceType.Some? <==> input.serviceType.Some?)
      && (r.value.serviceType.Some? ==> ServiceTypeLiteral(r.value.serviceType.value) == input.serviceType.value)
      && r.value.customerId == StripField(input.customerId)
      && r.value.customerListId == StripField(input.customerListId)
      && r.value.customerPrivateRef == StripField(input.customerPrivateRef)
      && r.value.customer == input.customer
    ensures r.Success? || IdentityConflict in r.error <==>
      && input.status.Some? && input.status.value in StatusLiterals
      && (input.serviceType.Some? ==> input.serviceType.value in {"delivery", "collection", "eat_in"})
    ensures input.status.Some? && input.status.value in StatusLiterals
            && (input.serviceType.Some? ==> input.serviceType.value in {"delivery", "collection", "eat_in"}) ==>
      var trimmed := OrderCreate(
        ParseStatus(input.status.value).value,
        if input.serviceType.Some? then ParseServiceType(input.serviceType.value) else None,
        StripField(input.customerId), StripField(input.customerListId),
        StripField(input.customerPrivateRef), input.customer);
      && (r.Success? <==> CustomerIdentityRule(trimmed).Success?)
      && (r.Success? ==> r.value == trimmed)
      && (r.Failure? ==> r.error == {IdentityConflict})
  {
    var errors := StatusErrors(input.status) + ServiceTypeErrors(input.serviceType);
    if errors != {} then Failure(errors)
    else
      var o := OrderCreate(
        ParseStatus(input.status.value).value,
        if input.serviceType.Some? then ParseServiceType(input.serviceType.value) else None,
        StripField(input.customerId),
        StripField(input.customerListId),
        StripField(input.customerPrivateRef),
        input.customer);
      match CustomerIdentityRule(o)
      case Success(v) => Success(v)
      case Failure(_) => Failure({IdentityConflict})
  }

  /** No identity at all, or exactly one form, is accepted. */
  lemma AtMostOneIdentityAccepted(o: OrderCreate)
    ensures Count(HasId(o)) + Count(HasListPair(o)) + Count(HasGuest(o)) <= 1
            <==> CustomerIdentityRule(o) == Success(o)
  {
  }

  /** Half of the list pair is no identity: it never conflicts with another form. */
  lemma HalfListPairNeverConflicts(o: OrderCreate)
    requires !Truthy(o.customerPrivateRef)
    requires !(HasId(o) && HasGuest(o))
    ensures CustomerIdentityRule(o) == Success(o)
  {
  }

  /** A customer id of only whitespace is trimmed to "" before the rule runs,
      so it does not conflict with a guest customer. */
  lemma BlankCustomerIdBesideGuest(input: OrderCreateInput)
    requires input.status.Some? && input.status.value in StatusLiterals
    requires input.serviceType.None?
    requires input.customerId.Some?
    requires forall i :: 0 <= i < |input.customerId.value| ==> input.customerId.value[i] in SchemaWhitespace
    requires input.customerListId.None? && input.customer.Some?
    ensures ValidateOrderCreate(input).Success?
  {
    BlankFieldIsAbsent(input.customerId.value);
  }
}
