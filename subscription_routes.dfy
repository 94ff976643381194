/** The subscription routes: each one turns its typed, mostly optional
    arguments into a flat parameter dictionary, one conditional insert at a
    time, and picks an HTTP method and a path under `subscriptions`. */
module SubscriptionRoutes {
  import opened Wire
  import opened FormKeys

  /** NIO's `HTTPHeaders`: an ordered list of name/value pairs. */
  type Headers = seq<(string, string)>

  type SubscriptionRequest = Request<string, Headers>

  /** Swift `Any`, as the `trialEnd` argument receives it: a `Date`, a
      `String` (such as `now`) or anything else. */
  datatype AnyValue = DateValue(date: Date) | StringValue(s: string) | OtherValue(v: Value)

  /** The trial end when it is a date. */
  function AsDate(t: Option<AnyValue>): Option<Date> {
    if t.Some? && t.value.DateValue? then Some(t.value.date) else None
  }

  /** The trial end when it is a string. */
  function AsString(t: Option<AnyValue>): Option<string> {
    if t.Some? && t.value.StringValue? then Some(t.value.s) else None
  }

  // ---------------------------------------------------------------------
  // The three string-backed enumerations the routes send by raw value.

  datatype StripeInvoiceCollectionMethod = ChargeAutomatically | SendInvoice

  datatype StripeSubscriptionPaymentBehavior = AllowIncomplete | ErrorIfIncomplete | PendingIfIncomplete

  datatype StripeSubscriptionProrationBehavior = CreateProrations | NoProrations | AlwaysInvoice

  function CollectionMethodRaw(c: StripeInvoiceCollectionMethod): string {
    match c
    case ChargeAutomatically => "charge_automatically"
    case SendInvoice => "send_invoice"
  }

  /** `StripeInvoiceCollectionMethod(rawValue:)` */
  function ParseCollectionMethod(s: string): Option<StripeInvoiceCollectionMethod> {
    if s == "charge_automatically" then Some(ChargeAutomatically)
    else if s == "send_invoice" then Some(SendInvoice)
    else None
  }

  function PaymentBehaviorRaw(p: StripeSubscriptionPaymentBehavior): string {
    match p
    case AllowIncomplete => "allow_incomplete"
    case ErrorIfIncomplete => "error_if_incomplete"
    case PendingIfIncomplete => "pending_if_incomplete"
  }

  /** `StripeSubscriptionPaymentBehavior(rawValue:)` */
  function ParsePaymentBehavior(s: string): Option<StripeSubscriptionPaymentBehavior> {
    if s == "allow_incomplete" then Some(AllowIncomplete)
    else if s == "error_if_incomplete" then Some(ErrorIfIncomplete)
    else if s == "pending_if_incomplete" then Some(PendingIfIncomplete)
    else None
  }

  function ProrationBehaviorRaw(p: StripeSubscriptionProrationBehavior): string {
    match p
    case CreateProrations => "create_prorations"
    case NoProrations => "none"
    case AlwaysInvoice => "always_invoice"
  }

  /** `StripeSubscriptionProrationBehavior(rawValue:)` */
  function ParseProrationBehavior(s: string): Option<StripeSubscriptionProrationBehavior> {
    if s == "create_prorations" then Some(CreateProrations)
    else if s == "none" then Some(NoProrations)
    else if s == "always_invoice" then Some(AlwaysInvoice)
    else None
  }

  /** Each raw value reads back as the case it came from, and only a raw value
      reads back at all. No route parses raw values; the point of this lemma
      is that the raw values of each enumeration are pairwise distinct, so
      the string sent names one case. */
  lemma RawValuesRoundTrip(c: StripeInvoiceCollectionMethod, p: StripeSubscriptionPaymentBehavior, q: StripeSubscriptionProrationBehavior, s: string)
    ensures ParseCollectionMethod(CollectionMethodRaw(c)) == Some(c)
    ensures ParsePaymentBehavior(PaymentBehaviorRaw(p)) == Some(p)
    ensures ParseProrationBehavior(ProrationBehaviorRaw(q)) == Some(q)
    ensures ParseCollectionMethod(s).Some? ==> CollectionMethodRaw(ParseCollectionMethod(s).value) == s
    ensures ParsePaymentBehavior(s).Some? ==> PaymentBehaviorRaw(ParsePaymentBehavior(s).value) == s
    ensures ParseProrationBehavior(s).Some? ==> ProrationBehaviorRaw(ParseProrationBehavior(s).value) == s
  {
  }

  /** `collectionMethod.rawValue` when given. */
  function OptCollectionMethod(o: Option<StripeInvoiceCollectionMethod>): Option<Value> {
    if o.Some? then Some(Str(CollectionMethodRaw(o.value))) else None
  }

  function OptPaymentBehavior(o: Option<StripeSubscriptionPaymentBehavior>): Option<Value> {
    if o.Some? then Some(Str(PaymentBehaviorRaw(o.value))) else None
  }

  function OptProrationBehavior(o: Option<StripeSubscriptionProrationBehavior>): Option<Value> {
    if o.Some? then Some(Str(ProrationBehaviorRaw(o.value))) else None
  }

  function OptStrValues(o: Option<map<string, string>>): Option<Params> {
    if o.Some? then Some(StrValues(o.value)) else None
  }

  // ---------------------------------------------------------------------
  // The arguments of `create`, `update` and `cancel`, one field per Swift
  // parameter after the subscription id.

  datatype CreateArgs = CreateArgs(
    customer: string,
    addInvoiceItems: Option<seq<Params>>,
    applicationFeePercent: Option<real>,
    backdateStartDate: Option<Date>,
    billingCycleAnchor: Option<Date>,
    billingThresholds: Option<Params>,
    cancelAt: Option<Date>,
    cancelAtPeriodEnd: Option<bool>,
    collectionMethod: Option<StripeInvoiceCollectionMethod>,
    coupon: Option<string>,
    daysUntilDue: Option<int>,
    defaultPaymentMethod: Option<string>,
    defaultSource: Option<string>,
    defaultTaxRates: Option<seq<string>>,
    items: seq<Params>,
    metadata: Option<map<string, string>>,
    offSession: Option<bool>,
    paymentBehavior: Option<StripeSubscriptionPaymentBehavior>,
    pendingInvoiceItemInterval: Option<Params>,
    prorationBehavior: Option<StripeSubscriptionProrationBehavior>,
    transferData: Option<Params>,
    trialEnd: Option<AnyValue>,
    trialFromPlan: Option<bool>,
    trialPeriodDays: Option<int>,
    expand: Option<seq<string>>)

  datatype UpdateArgs = UpdateArgs(
    addInvoiceItems: Option<seq<Params>>,
    applicationFeePercent: Option<real>,
    billingCycleAnchor: Option<string>,
    billingThresholds: Option<Params>,
    cancelAt: Option<Date>,
    cancelAtPeriodEnd: Option<bool>,
    collectionMethod: Option<StripeInvoiceCollectionMethod>,
    coupon: Option<string>,
    daysUntilDue: Option<int>,
    defaultPaymentMethod: Option<string>,
    defaultSource: Option<string>,
    defaultTaxRates: Option<seq<string>>,
    items: Option<seq<Params>>,
    metadata: Option<map<string, string>>,
    offSession: Option<bool>,
    pauseCollection: Option<Params>,
    paymentBehavior: Option<StripeSubscriptionPaymentBehavior>,
    pendingInvoiceItemInterval: Option<Params>,
    prorationBehavior: Option<StripeSubscriptionProrationBehavior>,
    prorationDate: Option<Date>,
    transferData: Option<Params>,
    trialEnd: Option<AnyValue>,
    trialFromPlan: Option<bool>,
    expand: Option<seq<string>>)

  datatype CancelArgs = CancelArgs(
    invoiceNow: Option<bool>,
    prorate: Option<bool>,
    expand: Option<seq<string>>)

  // ---------------------------------------------------------------------
  // The plain parameter names the routes write.

  /** Every plain (unbracketed) body parameter of `create`, `update` and `cancel`. */
  datatype Param =
    | Customer | Items | AddInvoiceItems | ApplicationFeePercent | BackdateStartDate
    | BillingCycleAnchor | CancelAt | CancelAtPeriodEnd | CollectionMethod | Coupon
    | DaysUntilDue | DefaultPaymentMethod | DefaultSource | DefaultTaxRates | OffSession
    | PaymentBehavior | ProrationBehavior | ProrationDate | TrialEnd | TrialFromPlan
    | TrialPeriodDays | Expand | InvoiceNow | Prorate

  /** The key a parameter is sent under. */
  function Name(p: Param): string {
    match p
    case Customer => "customer"
    case Items => "items"
    case AddInvoiceItems => "add_invoice_items"
    case ApplicationFeePercent => "application_fee_percent"
    case BackdateStartDate => "backdate_start_date"
    case BillingCycleAnchor => "billing_cycle_anchor"
    case CancelAt => "cancel_at"
    case CancelAtPeriodEnd => "cancel_at_period_end"
    case CollectionMethod => "collection_method"
    case Coupon => "coupon"
    case DaysUntilDue => "days_until_due"
    case DefaultPaymentMethod => "default_payment_method"
    case DefaultSource => "default_source"
    case DefaultTaxRates => "default_tax_rates"
    case OffSession => "off_session"
    case PaymentBehavior => "payment_behavior"
    case ProrationBehavior => "proration_behavior"
    case ProrationDate => "proration_date"
    case TrialEnd => "trial_end"
    case TrialFromPlan => "trial_from_plan"
    case TrialPeriodDays => "trial_period_days"
    case Expand => "expand"
    case InvoiceNow => "invoice_now"
    case Prorate => "prorate"
  }

  /** The parameter a plain key names, if any (decided by the key's length
      first, then by its text). */
  function ParamOf(s: string): Option<Param> {
    if |s| == 5 then if s == "items" then Some(Items) else None
    else if |s| == 6 then if s == "coupon" then Some(Coupon) else if s == "expand" then Some(Expand) else None
    else if |s| == 7 then if s == "prorate" then Some(Prorate) else None
    else if |s| == 8 then if s == "customer" then Some(Customer) else None
    else if |s| == 9 then if s == "cancel_at" then Some(CancelAt) else if s == "trial_end" then Some(TrialEnd) else None
    else if |s| == 11 then if s == "off_session" then Some(OffSession) else if s == "invoice_now" then Some(InvoiceNow) else None
    else if |s| == 14 then if s == "days_until_due" then Some(DaysUntilDue) else if s == "default_source" then Some(DefaultSource) else if s == "proration_date" then Some(ProrationDate) else None
    else if |s| == 15 then if s == "trial_from_plan" then Some(TrialFromPlan) else None
    else if |s| == 16 then if s == "payment_behavior" then Some(PaymentBehavior) else None
    else if |s| == 17 then if s == "add_invoice_items" then Some(AddInvoiceItems) else if s == "collection_method" then Some(CollectionMethod) else if s == "default_tax_rates" then Some(DefaultTaxRates) else if s == "trial_period_days" then Some(TrialPeriodDays) else None
    else if |s| == 18 then if s == "proration_behavior" then Some(ProrationBehavior) else None
    else if |s| == 19 then if s == "backdate_start_date" then Some(BackdateStartDate) else None
    else if |s| == 20 then if s == "billing_cycle_anchor" then Some(BillingCycleAnchor) else if s == "cancel_at_period_end" then Some(CancelAtPeriodEnd) else None
    else if |s| == 22 then if s == "default_payment_method" then Some(DefaultPaymentMethod) else None
    else if |s| == 23 then if s == "application_fee_percent" then Some(ApplicationFeePercent) else None
    else None
  }

  /** Every parameter reads back from its key; so distinct parameters are
      sent under distinct keys. */
  lemma ParamOfName(p: Param)
    ensures ParamOf(Name(p)) == Some(p)
  {
  }

  /** No parameter is sent under a bracket key. */
  lemma NamePlain(p: Param)
    ensures Plain(Name(p))
  {
  }

  /** Hence no two parameters share a key, and none is a bracket key. */
  lemma NamesDistinct()
    ensures forall p, q {:trigger Name(p), Name(q)} :: Name(p) == Name(q) ==> p == q
    ensures forall p {:trigger Name(p)} :: Plain(Name(p))
  {
    forall p, q | Name(p) == Name(q) ensures p == q {
      ParamOfName(p);
      ParamOfName(q);
    }
    forall p ensures Plain(Name(p)) {
      NamePlain(p);
    }
  }

  // ---------------------------------------------------------------------
  // A body as a value: the plain parameters that were given, joined with
  // the flattened dictionaries.

  /** What a call sends under each plain parameter; `None`: not sent. */
  datatype Fields = Fields(
    customer: Option<Value>,
    items: Option<Value>,
    addInvoiceItems: Option<Value>,
    applicationFeePercent: Option<Value>,
    backdateStartDate: Option<Value>,
    billingCycleAnchor: Option<Value>,
    cancelAt: Option<Value>,
    cancelAtPeriodEnd: Option<Value>,
    collectionMethod: Option<Value>,
    coupon: Option<Value>,
    daysUntilDue: Option<Value>,
    defaultPaymentMethod: Option<Value>,
    defaultSource: Option<Value>,
    defaultTaxRates: Option<Value>,
    offSession: Option<Value>,
    paymentBehavior: Option<Value>,
    prorationBehavior: Option<Value>,
    prorationDate: Option<Value>,
    trialEnd: Option<Value>,
    trialFromPlan: Option<Value>,
    trialPeriodDays: Option<Value>,
    expand: Option<Value>,
    invoiceNow: Option<Value>,
    prorate: Option<Value>
  )

  /** A call that sends no plain parameter. */
  const NoFields: Fields := Fields(None, None, None, None, None, None, None, None, None, None, None, None, None, None, None, None, None, None, None, None, None, None, None, None)

  /** What a call sends under parameter `p`. */
  function Field(f: Fields, p: Param): Option<Value> {
    match p
    case Customer => f.customer
    case Items => f.items
    case AddInvoiceItems => f.addInvoiceItems
    case ApplicationFeePercent => f.applicationFeePercent
    case BackdateStartDate => f.backdateStartDate
    case BillingCycleAnchor => f.billingCycleAnchor
    case CancelAt => f.cancelAt
    case CancelAtPeriodEnd => f.cancelAtPeriodEnd
    case CollectionMethod => f.collectionMethod
    case Coupon => f.coupon
    case DaysUntilDue => f.daysUntilDue
    case DefaultPaymentMethod => f.defaultPaymentMethod
    case DefaultSource => f.defaultSource
    case DefaultTaxRates => f.defaultTaxRates
    case OffSession => f.offSession
    case PaymentBehavior => f.paymentBehavior
    case ProrationBehavior => f.prorationBehavior
    case ProrationDate => f.prorationDate
    case TrialEnd => f.trialEnd
    case TrialFromPlan => f.trialFromPlan
    case TrialPeriodDays => f.trialPeriodDays
    case Expand => f.expand
    case InvoiceNow => f.invoiceNow
    case Prorate => f.prorate
  }

  /** The given values among the parameters `ps`, under their names. */
  function Sent(f: Fields, ps: set<Param>): (r: Params)
    ensures forall p {:trigger Lookup(r, Name(p))} :: Lookup(r, Name(p)) == if p in ps then Field(f, p) else None
    ensures forall key :: key in r ==> exists p :: p in ps && Name(p) == key
  {
    NamesDistinct();
    map p | p in ps && Field(f, p).Some? :: Name(p) := Field(f, p).value
  }

  /** One `if let` insert of parameter `p`, on a body made of the parameters
      `ps` written so far and the flattened dictionaries `flat`. */
  lemma FieldWrite(f: Fields, ps: set<Param>, flat: Params, body: Params, p: Param, v: Option<Value>)
    requires body == Sent(f, ps) + flat && NoPlainKeys(flat) && v == Field(f, p)
    ensures Put(body, Name(p), v) == Sent(f, ps + {p}) + flat
  {
    forall key
      ensures Lookup(Put(body, Name(p), v), key) == Lookup(Sent(f, ps + {p}) + flat, key)
    {
      FieldWriteAt(f, ps, flat, p, key);
    }
    SameLookups(Put(body, Name(p), v), Sent(f, ps + {p}) + flat);
  }

  lemma FieldWriteAt(f: Fields, ps: set<Param>, flat: Params, p: Param, key: string)
    requires NoPlainKeys(flat)
    ensures Lookup(Put(Sent(f, ps) + flat, Name(p), Field(f, p)), key) == Lookup(Sent(f, ps + {p}) + flat, key)
  {
    if Plain(key) {
      assert key !in flat;
      FieldWritePlain(f, ps, p, key);
    } else {
      SentPlain(f, ps);
      SentPlain(f, ps + {p});
      NamePlain(p);
    }
  }

  /** FieldWriteAt for a plain key, which no flattened dictionary holds. */
  lemma FieldWritePlain(f: Fields, ps: set<Param>, p: Param, key: string)
    ensures Lookup(Put(Sent(f, ps), Name(p), Field(f, p)), key) == Lookup(Sent(f, ps + {p}), key)
  {
    if key in Sent(f, ps + {p}) {
      var q :| q in ps + {p} && Name(q) == key;
    }
  }

  /** Only plain names are sent under plain parameters. */
  lemma SentPlain(f: Fields, ps: set<Param>)
    ensures forall key :: key in Sent(f, ps) ==> Plain(key)
  {
    forall key | key in Sent(f, ps)
      ensures Plain(key)
    {
      var q :| q in ps && Name(q) == key;
      NamePlain(q);
    }
  }

  /** One conditional write of parameter `p`, on a body made of the
      parameters `ps` written before and the flattened dictionaries `flat`. */
  method Write(body: Params, f: Fields, p: Param, ghost ps: set<Param>, ghost flat: Params)
    returns (r: Params)
    requires body == Sent(f, ps) + flat && NoPlainKeys(flat)
    ensures r == Sent(f, ps + {p}) + flat
  {
    FieldWrite(f, ps, flat, body, p, Field(f, p));
    r := Insert(body, Name(p), Field(f, p));
  }

  /** A route body before its first write. */
  lemma SentNothing(f: Fields)
    ensures Sent(f, {}) + map[] == map[]
  {
    assert Sent(f, {}) == map[];
  }

  // ---------------------------------------------------------------------
  // The bodies, as values.

  /** `create` accepts a trial end as a date (sent as seconds) or as a string
      (sent as is); anything else is not sent. */
  function CreateTrialEnd(t: Option<AnyValue>): Option<Value> {
    match t
    case Some(DateValue(d)) => Some(Int(d.secondsSince1970))
    case Some(StringValue(s)) => Some(Str(s))
    case _ => None
  }

  /** The two `trial_end` writes of `create` (the date case, then the string case)
      act as one write of CreateTrialEnd. */
  lemma CreateTrialEndWrites(body: Params, t: Option<AnyValue>)
    ensures Put(Put(body, Name(TrialEnd), OptDate(AsDate(t))), Name(TrialEnd), OptStr(AsString(t)))
         == Put(body, Name(TrialEnd), CreateTrialEnd(t))
  {
    Overwrite(body, Name(TrialEnd), OptDate(AsDate(t)), OptStr(AsString(t)));
  }

  /** The `trial_end` writes of `create`: seconds when the trial end is a
      date, then the text when it is a string. */
  method WriteTrialEnd(body: Params, f: Fields, t: Option<AnyValue>, ghost ps: set<Param>, ghost flat: Params)
    returns (r: Params)
    requires body == Sent(f, ps) + flat && NoPlainKeys(flat) && f.trialEnd == CreateTrialEnd(t)
    ensures r == Sent(f, ps + {TrialEnd}) + flat
  {
    CreateTrialEndWrites(body, t);
    FieldWrite(f, ps, flat, body, TrialEnd, CreateTrialEnd(t));
    r := Insert(body, Name(TrialEnd), OptDate(AsDate(t)));
    r := Insert(r, Name(TrialEnd), OptStr(AsString(t)));
  }

  /** What `create` sends under each plain parameter. */
  function CreateFields(a: CreateArgs): Fields {
    NoFields.(
      customer := Some(Str(a.customer)),
      items := Some(Dicts(a.items)),
      addInvoiceItems := OptDicts(a.addInvoiceItems),
      applicationFeePercent := OptReal(a.applicationFeePercent),
      backdateStartDate := OptDate(a.backdateStartDate),
      billingCycleAnchor := OptDate(a.billingCycleAnchor),
      cancelAt := OptDate(a.cancelAt),
      cancelAtPeriodEnd := OptBool(a.cancelAtPeriodEnd),
      collectionMethod := OptCollectionMethod(a.collectionMethod),
      coupon := OptStr(a.coupon),
      daysUntilDue := OptInt(a.daysUntilDue),
      defaultPaymentMethod := OptStr(a.defaultPaymentMethod),
      defaultSource := OptStr(a.defaultSource),
      defaultTaxRates := OptStrings(a.defaultTaxRates),
      offSession := OptBool(a.offSession),
      paymentBehavior := OptPaymentBehavior(a.paymentBehavior),
      prorationBehavior := OptProrationBehavior(a.prorationBehavior),
      trialEnd := CreateTrialEnd(a.trialEnd),
      trialFromPlan := OptBool(a.trialFromPlan),
      trialPeriodDays := OptInt(a.trialPeriodDays),
      expand := OptStrings(a.expand)
    )
  }

  /** The plain parameters `create` writes, in the order it writes them. */
  const CreateParams: set<Param> :=
    {} + {Customer} + {Items} + {AddInvoiceItems} + {ApplicationFeePercent}
     + {BackdateStartDate} + {BillingCycleAnchor} + {CancelAt} + {CancelAtPeriodEnd}
     + {CollectionMethod} + {Coupon} + {DaysUntilDue} + {DefaultPaymentMethod}
     + {DefaultSource} + {DefaultTaxRates} + {OffSession} + {PaymentBehavior}
     + {ProrationBehavior} + {TrialEnd} + {TrialFromPlan} + {TrialPeriodDays} + {Expand}

  /** The dictionary arguments `create` flattens into bracket keys. */
  function CreateFlattened(a: CreateArgs): Params {
    Flattened("billing_thresholds", a.billingThresholds)
    + Flattened("metadata", OptStrValues(a.metadata))
    + Flattened("pending_invoice_item_interval", a.pendingInvoiceItemInterval)
    + Flattened("transfer_data", a.transferData)
  }

  /** The body `create` sends. */
  function CreateBody(a: CreateArgs): Params {
    Sent(CreateFields(a), CreateParams) + CreateFlattened(a)
  }

  /** What `update` sends under each plain parameter. A trial end is sent only when it is a date. */
  function UpdateFields(a: UpdateArgs): Fields {
    NoFields.(
      addInvoiceItems := OptDicts(a.addInvoiceItems),
      applicationFeePercent := OptReal(a.applicationFeePercent),
      billingCycleAnchor := OptStr(a.billingCycleAnchor),
      cancelAt := OptDate(a.cancelAt),
      cancelAtPeriodEnd := OptBool(a.cancelAtPeriodEnd),
      collectionMethod := OptCollectionMethod(a.collectionMethod),
      coupon := OptStr(a.coupon),
      daysUntilDue := OptInt(a.daysUntilDue),
      defaultPaymentMethod := OptStr(a.defaultPaymentMethod),
      defaultSource := OptStr(a.defaultSource),
      defaultTaxRates := OptStrings(a.defaultTaxRates),
      items := OptDicts(a.items),
      offSession := OptBool(a.offSession),
      paymentBehavior := OptPaymentBehavior(a.paymentBehavior),
      prorationBehavior := OptProrationBehavior(a.prorationBehavior),
      prorationDate := OptDate(a.prorationDate),
      trialEnd := OptDate(AsDate(a.trialEnd)),
      trialFromPlan := OptBool(a.trialFromPlan),
      expand := OptStrings(a.expand)
    )
  }

  /** The plain parameters `update` writes, in order. */
  const UpdateParams: set<Param> :=
    {} + {AddInvoiceItems} + {ApplicationFeePercent} + {BillingCycleAnchor} + {CancelAt}
     + {CancelAtPeriodEnd} + {CollectionMethod} + {Coupon} + {DaysUntilDue}
     + {DefaultPaymentMethod} + {DefaultSource} + {DefaultTaxRates} + {Items}
     + {OffSession} + {PaymentBehavior} + {ProrationBehavior} + {ProrationDate}
     + {TrialEnd} + {TrialFromPlan} + {Expand}

  /** The dictionary arguments `update` flattens into bracket keys. */
  function UpdateFlattened(a: UpdateArgs): Params {
    Flattened("billing_thresholds", a.billingThresholds)
    + Flattened("metadata", OptStrValues(a.metadata))
    + Flattened("pause_collection", a.pauseCollection)
    + Flattened("pending_invoice_item_interval", a.pendingInvoiceItemInterval)
    + Flattened("transfer_data", a.transferData)
  }

  /** The body `update` sends. */
  function UpdateBody(a: UpdateArgs): Params {
    Sent(UpdateFields(a), UpdateParams) + UpdateFlattened(a)
  }

  /** What `cancel` sends under each plain parameter. */
  function CancelFields(a: CancelArgs): Fields {
    NoFields.(
      invoiceNow := OptBool(a.invoiceNow),
      prorate := OptBool(a.prorate),
      expand := OptStrings(a.expand)
    )
  }

  /** The parameters `cancel` writes, in order. */
  const CancelParams: set<Param> :=
    {} + {InvoiceNow} + {Prorate} + {Expand}

  /** The body `cancel` sends. */
  function CancelBody(a: CancelArgs): Params {
    Sent(CancelFields(a), CancelParams)
  }

  // ---------------------------------------------------------------------
  // The routes object.

  class StripeSubscriptionRoutes {
    /** Headers sent with every request. */
    var headers: Headers
    /** `APIBase + APIVersion + "subscriptions"` */
    const subscriptions: string

    /** `apiRoot` stands for `APIBase + APIVersion`. */
    constructor (apiRoot: string)
      ensures headers == [] && subscriptions == apiRoot + "subscriptions"
    {
      headers := [];
      subscriptions := apiRoot + "subscriptions";
    }

    /** POST `subscriptions` with the body built from `a`. */
    method Create(a: CreateArgs) returns (req: SubscriptionRequest)
      ensures req == Request(POST, subscriptions, map[], Some(CreateBody(a)), headers)
    {
      var body: Params := map[Name(Customer) := Str(a.customer), Name(Items) := Dicts(a.items)];
      // The body is always `Sent(f, ps) + flat`.
      var f := CreateFields(a);
      ghost var ps: set<Param> := {};
      ghost var flat: Params := map[];
      SentNothing(f);
      FieldWrite(f, ps, flat, map[], Customer, Some(Str(a.customer)));
      ps := ps + {Customer};
      FieldWrite(f, ps, flat, map[Name(Customer) := Str(a.customer)], Items, Some(Dicts(a.items)));
      ps := ps + {Items};
      body := Write(body, f, AddInvoiceItems, ps, flat);
      ps := ps + {AddInvoiceItems};
      body := Write(body, f, ApplicationFeePercent, ps, flat);
      ps := ps + {ApplicationFeePercent};
      body := Write(body, f, BackdateStartDate, ps, flat);
      ps := ps + {BackdateStartDate};
      body := Write(body, f, BillingCycleAnchor, ps, flat);
      ps := ps + {BillingCycleAnchor};
      FamilyWrite(Sent(f, ps), flat, "billing_thresholds", a.billingThresholds);
      body := InsertFlattened(body, "billing_thresholds", a.billingThresholds);
      UnionEmpty(Flattened("billing_thresholds", a.billingThresholds));
      flat := Flattened("billing_thresholds", a.billingThresholds);
      body := Write(body, f, CancelAt, ps, flat);
      ps := ps + {CancelAt};
      body := Write(body, f, CancelAtPeriodEnd, ps, flat);
      ps := ps + {CancelAtPeriodEnd};
      body := Write(body, f, CollectionMethod, ps, flat);
      ps := ps + {CollectionMethod};
      body := Write(body, f, Coupon, ps, flat);
      ps := ps + {Coupon};
      body := Write(body, f, DaysUntilDue, ps, flat);
      ps := ps + {DaysUntilDue};
      body := Write(body, f, DefaultPaymentMethod, ps, flat);
      ps := ps + {DefaultPaymentMethod};
      body := Write(body, f, DefaultSource, ps, flat);
      ps := ps + {DefaultSource};
      body := Write(body, f, DefaultTaxRates, ps, flat);
      ps := ps + {DefaultTaxRates};
      FamilyWrite(Sent(f, ps), flat, "metadata", OptStrValues(a.metadata));
      body := InsertFlattened(body, "metadata", OptStrValues(a.metadata));
      flat := flat + Flattened("metadata", OptStrValues(a.metadata));
      body := Write(body, f, OffSession, ps, flat);
      ps := ps + {OffSession};
      body := Write(body, f, PaymentBehavior, ps, flat);
      ps := ps + {PaymentBehavior};
      FamilyWrite(Sent(f, ps), flat, "pending_invoice_item_interval", a.pendingInvoiceItemInterval);
      body := InsertFlattened(body, "pending_invoice_item_interval", a.pendingInvoiceItemInterval);
      flat := flat + Flattened("pending_invoice_item_interval", a.pendingInvoiceItemInterval);
      body := Write(body, f, ProrationBehavior, ps, flat);
      ps := ps + {ProrationBehavior};
      FamilyWrite(Sent(f, ps), flat, "transfer_data", a.transferData);
      body := InsertFlattened(body, "transfer_data", a.transferData);
      flat := flat + Flattened("transfer_data", a.transferData);
      body := WriteTrialEnd(body, f, a.trialEnd, ps, flat);
      ps := ps + {TrialEnd};
      body := Write(body, f, TrialFromPlan, ps, flat);
      ps := ps + {TrialFromPlan};
      body := Write(body, f, TrialPeriodDays, ps, flat);
      ps := ps + {TrialPeriodDays};
      body := Write(body, f, Expand, ps, flat);
      ps := ps + {Expand};
      req := Request(POST, subscriptions, map[], Some(body), headers);
    }

    /** GET `subscriptions/{id}`, asking for `expand` when given. */
    method Retrieve(id: string, expand: Option<seq<string>>) returns (req: SubscriptionRequest)
      ensures req.httpMethod == GET && req.path == subscriptions + "/" + id
      ensures req.body == None && req.headers == headers
      ensures expand.None? ==> req.query == map[]
      ensures expand.Some? ==> req.query.Keys == {"expand"} && req.query["expand"] == Strings(expand.value)
    {
      var query: Params := map[];
      if expand.Some? {
        query := map["expand" := Strings(expand.value)];
      }
      req := Request(GET, subscriptions + "/" + id, query, None, headers);
    }

    /** POST `subscriptions/{subscription}` with the body built from `a`. */
    method Update(subscription: string, a: UpdateArgs) returns (req: SubscriptionRequest)
      ensures req == Request(POST, subscriptions + "/" + subscription, map[], Some(UpdateBody(a)), headers)
    {
      var body: Params := map[];
      // The body is always `Sent(f, ps) + flat`.
      var f := UpdateFields(a);
      ghost var ps: set<Param> := {};
      ghost var flat: Params := map[];
      SentNothing(f);
      body := Write(body, f, AddInvoiceItems, ps, flat);
      ps := ps + {AddInvoiceItems};
      body := Write(body, f, ApplicationFeePercent, ps, flat);
      ps := ps + {ApplicationFeePercent};
      body := Write(body, f, BillingCycleAnchor, ps, flat);
      ps := ps + {BillingCycleAnchor};
      FamilyWrite(Sent(f, ps), flat, "billing_thresholds", a.billingThresholds);
      body := InsertFlattened(body, "billing_thresholds", a.billingThresholds);
      UnionEmpty(Flattened("billing_thresholds", a.billingThresholds));
      flat := Flattened("billing_thresholds", a.billingThresholds);
      body := Write(body, f, CancelAt, ps, flat);
      ps := ps + {CancelAt};
      body := Write(body, f, CancelAtPeriodEnd, ps, flat);
      ps := ps + {CancelAtPeriodEnd};
      body := Write(body, f, CollectionMethod, ps, flat);
      ps := ps + {CollectionMethod};
      body := Write(body, f, Coupon, ps, flat);
      ps := ps + {Coupon};
      body := Write(body, f, DaysUntilDue, ps, flat);
      ps := ps + {DaysUntilDue};
      body := Write(body, f, DefaultPaymentMethod, ps, flat);
      ps := ps + {DefaultPaymentMethod};
      body := Write(body, f, DefaultSource, ps, flat);
      ps := ps + {DefaultSource};
      body := Write(body, f, DefaultTaxRates, ps, flat);
      ps := ps + {DefaultTaxRates};
      body := Write(body, f, Items, ps, flat);
      ps := ps + {Items};
      FamilyWrite(Sent(f, ps), flat, "metadata", OptStrValues(a.metadata));
      body := InsertFlattened(body, "metadata", OptStrValues(a.metadata));
      flat := flat + Flattened("metadata", OptStrValues(a.metadata));
      body := Write(body, f, OffSession, ps, flat);
      ps := ps + {OffSession};
      FamilyWrite(Sent(f, ps), flat, "pause_collection", a.pauseCollection);
      body := InsertFlattened(body, "pause_collection", a.pauseCollection);
      flat := flat + Flattened("pause_collection", a.pauseCollection);
      body := Write(body, f, PaymentBehavior, ps, flat);
      ps := ps + {PaymentBehavior};
      FamilyWrite(Sent(f, ps), flat, "pending_invoice_item_interval", a.pendingInvoiceItemInterval);
      body := InsertFlattened(body, "pending_invoice_item_interval", a.pendingInvoiceItemInterval);
      flat := flat + Flattened("pending_invoice_item_interval", a.pendingInvoiceItemInterval);
      body := Write(body, f, ProrationBehavior, ps, flat);
      ps := ps + {ProrationBehavior};
      body := Write(body, f, ProrationDate, ps, flat);
      ps := ps + {ProrationDate};
      FamilyWrite(Sent(f, ps), flat, "transfer_data", a.transferData);
      body := InsertFlattened(body, "transfer_data", a.transferData);
      flat := flat + Flattened("transfer_data", a.transferData);
      body := Write(body, f, TrialEnd, ps, flat);
      ps := ps + {TrialEnd};
      body := Write(body, f, TrialFromPlan, ps, flat);
      ps := ps + {TrialFromPlan};
      body := Write(body, f, Expand, ps, flat);
      ps := ps + {Expand};
      req := Request(POST, subscriptions + "/" + subscription, map[], Some(body), headers);
    }

    /** DELETE `subscriptions/{subscription}` with the body built from `a`. */
    method Cancel(subscription: string, a: CancelArgs) returns (req: SubscriptionRequest)
      ensures req == Request(DELETE, subscriptions + "/" + subscription, map[], Some(CancelBody(a)), headers)
    {
      var body: Params := map[];
      // The body is always `Sent(f, ps) + flat`.
      var f := CancelFields(a);
      ghost var ps: set<Param> := {};
      ghost var flat: Params := map[];
      SentNothing(f);
      body := Write(body, f, InvoiceNow, ps, flat);
      ps := ps + {InvoiceNow};
      body := Write(body, f, Prorate, ps, flat);
      ps := ps + {Prorate};
      body := Write(body, f, Expand, ps, flat);
      ps := ps + {Expand};
      UnionEmpty(Sent(f, ps));
      req := Request(DELETE, subscriptions + "/" + subscription, map[], Some(body), headers);
    }

    /** GET `subscriptions`, filtered by `filter` when given. */
    method ListAll(filter: Option<Params>) returns (req: SubscriptionRequest)
      ensures req.httpMethod == GET && req.path == subscriptions
      ensures req.body == None && req.headers == headers
      ensures filter.None? ==> req.query == map[]
      ensures filter.Some? ==> req.query == filter.value
    {
      var query: Params := map[];
      if filter.Some? {
        query := filter.value;
      }
      req := Request(GET, subscriptions, query, None, headers);
    }
  }
}
