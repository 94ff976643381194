/** What the bodies of the subscription routes hold, key by key: the
    properties the routes' `if let` chains promise, proved about the body
    values that `Create`, `Update` and `Cancel` are shown to build. */
module SubscriptionProperties {
  import opened Wire
  import opened FormKeys
  import opened SubscriptionRoutes

  // ---------------------------------------------------------------------
  // Plain keys and bracket keys of a body.

  /** Under a plain parameter's name, a body holds the call's value for it
      when the route writes that parameter, and nothing otherwise. */
  lemma BodyAtName(f: Fields, ps: set<Param>, flat: Params, p: Param)
    requires NoPlainKeys(flat)
    ensures Lookup(Sent(f, ps) + flat, Name(p)) == if p in ps then Field(f, p) else None
  {
    NamePlain(p);
    assert Name(p) !in flat;
    assert Lookup(Sent(f, ps) + flat, Name(p)) == Lookup(Sent(f, ps), Name(p));
  }

  /** Under a bracket key, a body holds what the flattened dictionaries hold. */
  lemma BodyAtBracketKey(f: Fields, ps: set<Param>, flat: Params, prefix: string, k: string)
    ensures Lookup(Sent(f, ps) + flat, BracketKey(prefix, k)) == Lookup(flat, BracketKey(prefix, k))
  {
    SentPlain(f, ps);
  }

  /** A key that is no parameter's name is not among the plain keys. */
  lemma NotSent(f: Fields, ps: set<Param>, key: string)
    requires ParamOf(key).None?
    ensures key !in Sent(f, ps)
  {
    forall p
      ensures Name(p) != key
    {
      ParamOfName(p);
    }
  }

  lemma CreateFlattenedBracketOnly(a: CreateArgs)
    ensures NoPlainKeys(CreateFlattened(a))
  {
    FlattenedNoPlainKeys("billing_thresholds", a.billingThresholds);
    FlattenedNoPlainKeys("metadata", OptStrValues(a.metadata));
    FlattenedNoPlainKeys("pending_invoice_item_interval", a.pendingInvoiceItemInterval);
    FlattenedNoPlainKeys("transfer_data", a.transferData);
    NoPlainKeysUnion(Flattened("billing_thresholds", a.billingThresholds), Flattened("metadata", OptStrValues(a.metadata)));
    NoPlainKeysUnion(
      Flattened("billing_thresholds", a.billingThresholds) + Flattened("metadata", OptStrValues(a.metadata)),
      Flattened("pending_invoice_item_interval", a.pendingInvoiceItemInterval));
    NoPlainKeysUnion(
      Flattened("billing_thresholds", a.billingThresholds) + Flattened("metadata", OptStrValues(a.metadata))
      + Flattened("pending_invoice_item_interval", a.pendingInvoiceItemInterval),
      Flattened("transfer_data", a.transferData));
  }

  lemma UpdateFlattenedBracketOnly(a: UpdateArgs)
    ensures NoPlainKeys(UpdateFlattened(a))
  {
    FlattenedNoPlainKeys("billing_thresholds", a.billingThresholds);
    FlattenedNoPlainKeys("metadata", OptStrValues(a.metadata));
    FlattenedNoPlainKeys("pause_collection", a.pauseCollection);
    FlattenedNoPlainKeys("pending_invoice_item_interval", a.pendingInvoiceItemInterval);
    FlattenedNoPlainKeys("transfer_data", a.transferData);
    NoPlainKeysUnion(Flattened("billing_thresholds", a.billingThresholds), Flattened("metadata", OptStrValues(a.metadata)));
    NoPlainKeysUnion(
      Flattened("billing_thresholds", a.billingThresholds) + Flattened("metadata", OptStrValues(a.metadata)),
      Flattened("pause_collection", a.pauseCollection));
    NoPlainKeysUnion(
      Flattened("billing_thresholds", a.billingThresholds) + Flattened("metadata", OptStrValues(a.metadata))
      + Flattened("pause_collection", a.pauseCollection),
      Flattened("pending_invoice_item_interval", a.pendingInvoiceItemInterval));
    NoPlainKeysUnion(
      Flattened("billing_thresholds", a.billingThresholds) + Flattened("metadata", OptStrValues(a.metadata))
      + Flattened("pause_collection", a.pauseCollection)
      + Flattened("pending_invoice_item_interval", a.pendingInvoiceItemInterval),
      Flattened("transfer_data", a.transferData));
  }

  /** A key that no parameter is named and that is not a bracket key is not
      in a body. */
  lemma BodyLacks(f: Fields, ps: set<Param>, flat: Params, key: string)
    requires ParamOf(key).None? && Plain(key) && NoPlainKeys(flat)
    ensures key !in Sent(f, ps) + flat
  {
    NotSent(f, ps, key);
  }

  /** The prefixes of the flattened dictionaries are plain keys that name
      no parameter. */
  lemma PrefixesAreNotNames()
    ensures ParamOf("billing_thresholds").None? && Plain("billing_thresholds")
    ensures ParamOf("metadata").None? && Plain("metadata")
    ensures ParamOf("pause_collection").None? && Plain("pause_collection")
    ensures ParamOf("pending_invoice_item_interval").None? && Plain("pending_invoice_item_interval")
    ensures ParamOf("transfer_data").None? && Plain("transfer_data")
  {
  }

  // ---------------------------------------------------------------------
  // `create`

  /** Under each parameter's name, the body of `create` holds the argument's
      value when `create` sends that parameter, and nothing otherwise. */
  lemma CreateBodyAtName(a: CreateArgs, p: Param)
    ensures Lookup(CreateBody(a), Name(p)) == if p in CreateParams then Field(CreateFields(a), p) else None
  {
    CreateFlattenedBracketOnly(a);
    BodyAtName(CreateFields(a), CreateParams, CreateFlattened(a), p);
  }

  /** What `create` sends under its dates, its choices and its trial end,
      read off CreateFields. */
  lemma CreateDateFields(a: CreateArgs)
    ensures Field(CreateFields(a), BackdateStartDate) == OptDate(a.backdateStartDate)
    ensures Field(CreateFields(a), BillingCycleAnchor) == OptDate(a.billingCycleAnchor)
    ensures Field(CreateFields(a), CancelAt) == OptDate(a.cancelAt)
    ensures Field(CreateFields(a), TrialEnd) == CreateTrialEnd(a.trialEnd)
  {
  }

  lemma CreateChoiceFields(a: CreateArgs)
    ensures Field(CreateFields(a), CollectionMethod) == OptCollectionMethod(a.collectionMethod)
    ensures Field(CreateFields(a), PaymentBehavior) == OptPaymentBehavior(a.paymentBehavior)
    ensures Field(CreateFields(a), ProrationBehavior) == OptProrationBehavior(a.prorationBehavior)
  {
  }

  /** `customer` and `items` are sent whatever the optional arguments are. */
  lemma CreateAlwaysSends(a: CreateArgs)
    ensures Lookup(CreateBody(a), Name(Customer)) == Some(Str(a.customer))
    ensures Lookup(CreateBody(a), Name(Items)) == Some(Dicts(a.items))
  {
    CreateBodyAtName(a, Customer);
    CreateBodyAtName(a, Items);
  }

  /** Dates are sent as whole seconds since 1970, and only when given. */
  lemma CreateDatesAsSeconds(a: CreateArgs)
    ensures Lookup(CreateBody(a), Name(BackdateStartDate))
         == if a.backdateStartDate.Some? then Some(Int(a.backdateStartDate.value.secondsSince1970)) else None
    ensures Lookup(CreateBody(a), Name(BillingCycleAnchor))
         == if a.billingCycleAnchor.Some? then Some(Int(a.billingCycleAnchor.value.secondsSince1970)) else None
    ensures Lookup(CreateBody(a), Name(CancelAt))
         == if a.cancelAt.Some? then Some(Int(a.cancelAt.value.secondsSince1970)) else None
  {
    CreateDateFields(a);
    CreateBodyAtName(a, BackdateStartDate);
    CreateBodyAtName(a, BillingCycleAnchor);
    CreateBodyAtName(a, CancelAt);
  }

  /** A trial end given as a date is sent as seconds, one given as a string is
      sent as is, and anything else is not sent. */
  lemma CreateTrialEndSent(a: CreateArgs)
    ensures a.trialEnd.Some? && a.trialEnd.value.DateValue? ==>
      Lookup(CreateBody(a), Name(TrialEnd)) == Some(Int(a.trialEnd.value.date.secondsSince1970))
    ensures a.trialEnd.Some? && a.trialEnd.value.StringValue? ==>
      Lookup(CreateBody(a), Name(TrialEnd)) == Some(Str(a.trialEnd.value.s))
    ensures a.trialEnd.None? || a.trialEnd.value.OtherValue? ==> Name(TrialEnd) !in CreateBody(a)
  {
    CreateDateFields(a);
    CreateBodyAtName(a, TrialEnd);
  }

  /** The choices are sent as their raw values. */
  lemma CreateRawValues(a: CreateArgs)
    ensures Lookup(CreateBody(a), Name(CollectionMethod))
         == if a.collectionMethod.Some? then Some(Str(CollectionMethodRaw(a.collectionMethod.value))) else None
    ensures Lookup(CreateBody(a), Name(PaymentBehavior))
         == if a.paymentBehavior.Some? then Some(Str(PaymentBehaviorRaw(a.paymentBehavior.value))) else None
    ensures Lookup(CreateBody(a), Name(ProrationBehavior))
         == if a.prorationBehavior.Some? then Some(Str(ProrationBehaviorRaw(a.prorationBehavior.value))) else None
  {
    CreateChoiceFields(a);
    CreateBodyAtName(a, CollectionMethod);
    CreateBodyAtName(a, PaymentBehavior);
    CreateBodyAtName(a, ProrationBehavior);
  }

  /** The flattened dictionaries of `create`, family by family. */
  lemma CreateFlattenedAt(a: CreateArgs, k: string)
    ensures Lookup(CreateFlattened(a), BracketKey("billing_thresholds", k))
         == if a.billingThresholds.Some? then Lookup(a.billingThresholds.value, k) else None
    ensures Lookup(CreateFlattened(a), BracketKey("metadata", k))
         == if a.metadata.Some? && k in a.metadata.value then Some(Str(a.metadata.value[k])) else None
    ensures Lookup(CreateFlattened(a), BracketKey("pending_invoice_item_interval", k))
         == if a.pendingInvoiceItemInterval.Some? then Lookup(a.pendingInvoiceItemInterval.value, k) else None
    ensures Lookup(CreateFlattened(a), BracketKey("transfer_data", k))
         == if a.transferData.Some? then Lookup(a.transferData.value, k) else None
  {
    var bt, md, pi, td := "billing_thresholds", "metadata", "pending_invoice_item_interval", "transfer_data";
    var b := Flattened(bt, a.billingThresholds);
    var m := Flattened(md, OptStrValues(a.metadata));
    var i := Flattened(pi, a.pendingInvoiceItemInterval);
    assert '[' !in bt && '[' !in md && '[' !in pi && '[' !in td;
    // billing_thresholds[k]
    JoinOther(b + m + i, td, a.transferData, bt, k);
    JoinOther(b + m, pi, a.pendingInvoiceItemInterval, bt, k);
    JoinOther(b, md, OptStrValues(a.metadata), bt, k);
    FlattenedAt(bt, a.billingThresholds, k);
    // metadata[k]
    JoinOther(b + m + i, td, a.transferData, md, k);
    JoinOther(b + m, pi, a.pendingInvoiceItemInterval, md, k);
    OtherFlattenedMissing(bt, a.billingThresholds, md, k);
    JoinOwn(b, md, OptStrValues(a.metadata), k);
    // pending_invoice_item_interval[k]
    JoinOther(b + m + i, td, a.transferData, pi, k);
    OtherFlattenedMissing(bt, a.billingThresholds, pi, k);
    OtherFlattenedMissing(md, OptStrValues(a.metadata), pi, k);
    JoinOwn(b + m, pi, a.pendingInvoiceItemInterval, k);
    // transfer_data[k]
    OtherFlattenedMissing(bt, a.billingThresholds, td, k);
    OtherFlattenedMissing(md, OptStrValues(a.metadata), td, k);
    OtherFlattenedMissing(pi, a.pendingInvoiceItemInterval, td, k);
    JoinOwn(b + m + i, td, a.transferData, k);
  }

  /** Every entry of a dictionary argument of `create` is sent under
      `prefix[k]`, and nothing else is sent under a key of that form. */
  lemma CreateFlattens(a: CreateArgs, k: string)
    ensures Lookup(CreateBody(a), BracketKey("billing_thresholds", k))
         == if a.billingThresholds.Some? then Lookup(a.billingThresholds.value, k) else None
    ensures Lookup(CreateBody(a), BracketKey("metadata", k))
         == if a.metadata.Some? && k in a.metadata.value then Some(Str(a.metadata.value[k])) else None
    ensures Lookup(CreateBody(a), BracketKey("pending_invoice_item_interval", k))
         == if a.pendingInvoiceItemInterval.Some? then Lookup(a.pendingInvoiceItemInterval.value, k) else None
    ensures Lookup(CreateBody(a), BracketKey("transfer_data", k))
         == if a.transferData.Some? then Lookup(a.transferData.value, k) else None
  {
    CreateFlattenedAt(a, k);
    BodyAtBracketKey(CreateFields(a), CreateParams, CreateFlattened(a), "billing_thresholds", k);
    BodyAtBracketKey(CreateFields(a), CreateParams, CreateFlattened(a), "metadata", k);
    BodyAtBracketKey(CreateFields(a), CreateParams, CreateFlattened(a), "pending_invoice_item_interval", k);
    BodyAtBracketKey(CreateFields(a), CreateParams, CreateFlattened(a), "transfer_data", k);
  }

  /** No dictionary argument of `create` is sent under its bare prefix. */
  lemma CreateNoBarePrefix(a: CreateArgs)
    ensures "billing_thresholds" !in CreateBody(a)
    ensures "metadata" !in CreateBody(a)
    ensures "pending_invoice_item_interval" !in CreateBody(a)
    ensures "transfer_data" !in CreateBody(a)
  {
    PrefixesAreNotNames();
    CreateFlattenedBracketOnly(a);
    BodyLacks(CreateFields(a), CreateParams, CreateFlattened(a), "billing_thresholds");
    BodyLacks(CreateFields(a), CreateParams, CreateFlattened(a), "metadata");
    BodyLacks(CreateFields(a), CreateParams, CreateFlattened(a), "pending_invoice_item_interval");
    BodyLacks(CreateFields(a), CreateParams, CreateFlattened(a), "transfer_data");
  }

  // ---------------------------------------------------------------------
  // `update`

  /** Under each parameter's name, the body of `update` holds the argument's
      value when `update` sends that parameter, and nothing otherwise. */
  lemma UpdateBodyAtName(a: UpdateArgs, p: Param)
    ensures Lookup(UpdateBody(a), Name(p)) == if p in UpdateParams then Field(UpdateFields(a), p) else None
  {
    UpdateFlattenedBracketOnly(a);
    BodyAtName(UpdateFields(a), UpdateParams, UpdateFlattened(a), p);
  }

  /** What `update` sends under its dates, its billing cycle anchor and its
      trial end, read off UpdateFields. */
  lemma UpdateDateFields(a: UpdateArgs)
    ensures Field(UpdateFields(a), BillingCycleAnchor) == OptStr(a.billingCycleAnchor)
    ensures Field(UpdateFields(a), CancelAt) == OptDate(a.cancelAt)
    ensures Field(UpdateFields(a), ProrationDate) == OptDate(a.prorationDate)
    ensures Field(UpdateFields(a), TrialEnd) == OptDate(AsDate(a.trialEnd))
  {
  }

  lemma UpdateChoiceFields(a: UpdateArgs)
    ensures Field(UpdateFields(a), CollectionMethod) == OptCollectionMethod(a.collectionMethod)
    ensures Field(UpdateFields(a), PaymentBehavior) == OptPaymentBehavior(a.paymentBehavior)
    ensures Field(UpdateFields(a), ProrationBehavior) == OptProrationBehavior(a.prorationBehavior)
  {
  }

  /** `cancel_at` and `proration_date` are sent as whole seconds since 1970;
      the billing cycle anchor of `update` is a string and is sent as is. */
  lemma UpdateDatesAsSeconds(a: UpdateArgs)
    ensures Lookup(UpdateBody(a), Name(CancelAt))
         == if a.cancelAt.Some? then Some(Int(a.cancelAt.value.secondsSince1970)) else None
    ensures Lookup(UpdateBody(a), Name(ProrationDate))
         == if a.prorationDate.Some? then Some(Int(a.prorationDate.value.secondsSince1970)) else None
    ensures Lookup(UpdateBody(a), Name(BillingCycleAnchor))
         == if a.billingCycleAnchor.Some? then Some(Str(a.billingCycleAnchor.value)) else None
  {
    UpdateDateFields(a);
    UpdateBodyAtName(a, CancelAt);
    UpdateBodyAtName(a, ProrationDate);
    UpdateBodyAtName(a, BillingCycleAnchor);
  }

  /** `update` sends a trial end only when it is a date: a string trial end,
      which `create` would send, is dropped. */
  lemma UpdateTrialEndSent(a: UpdateArgs)
    ensures a.trialEnd.Some? && a.trialEnd.value.DateValue? ==>
      Lookup(UpdateBody(a), Name(TrialEnd)) == Some(Int(a.trialEnd.value.date.secondsSince1970))
    ensures a.trialEnd.None? || !a.trialEnd.value.DateValue? ==> Name(TrialEnd) !in UpdateBody(a)
  {
    UpdateDateFields(a);
    UpdateBodyAtName(a, TrialEnd);
  }

  /** The choices are sent as their raw values. */
  lemma UpdateRawValues(a: UpdateArgs)
    ensures Lookup(UpdateBody(a), Name(CollectionMethod))
         == if a.collectionMethod.Some? then Some(Str(CollectionMethodRaw(a.collectionMethod.value))) else None
    ensures Lookup(UpdateBody(a), Name(PaymentBehavior))
         == if a.paymentBehavior.Some? then Some(Str(PaymentBehaviorRaw(a.paymentBehavior.value))) else None
    ensures Lookup(UpdateBody(a), Name(ProrationBehavior))
         == if a.prorationBehavior.Some? then Some(Str(ProrationBehaviorRaw(a.prorationBehavior.value))) else None
  {
    UpdateChoiceFields(a);
    UpdateBodyAtName(a, CollectionMethod);
    UpdateBodyAtName(a, PaymentBehavior);
    UpdateBodyAtName(a, ProrationBehavior);
  }

  /** The flattened dictionaries of `update`, family by family. */
  lemma UpdateFlattenedAt(a: UpdateArgs, k: string)
    ensures Lookup(UpdateFlattened(a), BracketKey("billing_thresholds", k))
         == if a.billingThresholds.Some? then Lookup(a.billingThresholds.value, k) else None
    ensures Lookup(UpdateFlattened(a), BracketKey("metadata", k))
         == if a.metadata.Some? && k in a.metadata.value then Some(Str(a.metadata.value[k])) else None
    ensures Lookup(UpdateFlattened(a), BracketKey("pause_collection", k))
         == if a.pauseCollection.Some? then Lookup(a.pauseCollection.value, k) else None
    ensures Lookup(UpdateFlattened(a), BracketKey("pending_invoice_item_interval", k))
         == if a.pendingInvoiceItemInterval.Some? then Lookup(a.pendingInvoiceItemInterval.value, k) else None
    ensures Lookup(UpdateFlattened(a), BracketKey("transfer_data", k))
         == if a.transferData.Some? then Lookup(a.transferData.value, k) else None
  {
    var bt, md, pc, pi, td := "billing_thresholds", "metadata", "pause_collection", "pending_invoice_item_interval", "transfer_data";
    var b := Flattened(bt, a.billingThresholds);
    var m := Flattened(md, OptStrValues(a.metadata));
    var c := Flattened(pc, a.pauseCollection);
    var i := Flattened(pi, a.pendingInvoiceItemInterval);
    assert '[' !in bt && '[' !in md && '[' !in pc && '[' !in pi && '[' !in td;
    // billing_thresholds[k]
    JoinOther(b + m + c + i, td, a.transferData, bt, k);
    JoinOther(b + m + c, pi, a.pendingInvoiceItemInterval, bt, k);
    JoinOther(b + m, pc, a.pauseCollection, bt, k);
    JoinOther(b, md, OptStrValues(a.metadata), bt, k);
    FlattenedAt(bt, a.billingThresholds, k);
    // metadata[k]
    JoinOther(b + m + c + i, td, a.transferData, md, k);
    JoinOther(b + m + c, pi, a.pendingInvoiceItemInterval, md, k);
    JoinOther(b + m, pc, a.pauseCollection, md, k);
    OtherFlattenedMissing(bt, a.billingThresholds, md, k);
    JoinOwn(b, md, OptStrValues(a.metadata), k);
    // pause_collection[k]
    JoinOther(b + m + c + i, td, a.transferData, pc, k);
    JoinOther(b + m + c, pi, a.pendingInvoiceItemInterval, pc, k);
    OtherFlattenedMissing(bt, a.billingThresholds, pc, k);
    OtherFlattenedMissing(md, OptStrValues(a.metadata), pc, k);
    JoinOwn(b + m, pc, a.pauseCollection, k);
    // pending_invoice_item_interval[k]
    JoinOther(b + m + c + i, td, a.transferData, pi, k);
    OtherFlattenedMissing(bt, a.billingThresholds, pi, k);
    OtherFlattenedMissing(md, OptStrValues(a.metadata), pi, k);
    OtherFlattenedMissing(pc, a.pauseCollection, pi, k);
    JoinOwn(b + m + c, pi, a.pendingInvoiceItemInterval, k);
    // transfer_data[k]
    OtherFlattenedMissing(bt, a.billingThresholds, td, k);
    OtherFlattenedMissing(md, OptStrValues(a.metadata), td, k);
    OtherFlattenedMissing(pc, a.pauseCollection, td, k);
    OtherFlattenedMissing(pi, a.pendingInvoiceItemInterval, td, k);
    JoinOwn(b + m + c + i, td, a.transferData, k);
  }

  /** Every entry of a dictionary argument of `update` is sent under
      `prefix[k]`, and nothing else is sent under a key of that form. */
  lemma UpdateFlattens(a: UpdateArgs, k: string)
    ensures Lookup(UpdateBody(a), BracketKey("billing_thresholds", k))
         == if a.billingThresholds.Some? then Lookup(a.billingThresholds.value, k) else None
    ensures Lookup(UpdateBody(a), BracketKey("metadata", k))
         == if a.metadata.Some? && k in a.metadata.value then Some(Str(a.metadata.value[k])) else None
    ensures Lookup(UpdateBody(a), BracketKey("pause_collection", k))
         == if a.pauseCollection.Some? then Lookup(a.pauseCollection.value, k) else None
    ensures Lookup(UpdateBody(a), BracketKey("pending_invoice_item_interval", k))
         == if a.pendingInvoiceItemInterval.Some? then Lookup(a.pendingInvoiceItemInterval.value, k) else None
    ensures Lookup(UpdateBody(a), BracketKey("transfer_data", k))
         == if a.transferData.Some? then Lookup(a.transferData.value, k) else None
  {
    UpdateFlattenedAt(a, k);
    BodyAtBracketKey(UpdateFields(a), UpdateParams, UpdateFlattened(a), "billing_thresholds", k);
    BodyAtBracketKey(UpdateFields(a), UpdateParams, UpdateFlattened(a), "metadata", k);
    BodyAtBracketKey(UpdateFields(a), UpdateParams, UpdateFlattened(a), "pause_collection", k);
    BodyAtBracketKey(UpdateFields(a), UpdateParams, UpdateFlattened(a), "pending_invoice_item_interval", k);
    BodyAtBracketKey(UpdateFields(a), UpdateParams, UpdateFlattened(a), "transfer_data", k);
  }

  /** No dictionary argument of `update` is sent under its bare prefix. */
  lemma UpdateNoBarePrefix(a: UpdateArgs)
    ensures "billing_thresholds" !in UpdateBody(a)
    ensures "metadata" !in UpdateBody(a)
    ensures "pause_collection" !in UpdateBody(a)
    ensures "pending_invoice_item_interval" !in UpdateBody(a)
    ensures "transfer_data" !in UpdateBody(a)
  {
    PrefixesAreNotNames();
    UpdateFlattenedBracketOnly(a);
    BodyLacks(UpdateFields(a), UpdateParams, UpdateFlattened(a), "billing_thresholds");
    BodyLacks(UpdateFields(a), UpdateParams, UpdateFlattened(a), "metadata");
    BodyLacks(UpdateFields(a), UpdateParams, UpdateFlattened(a), "pause_collection");
    BodyLacks(UpdateFields(a), UpdateParams, UpdateFlattened(a), "pending_invoice_item_interval");
    BodyLacks(UpdateFields(a), UpdateParams, UpdateFlattened(a), "transfer_data");
  }

  // ---------------------------------------------------------------------
  // `cancel`

  /** `cancel` sends `invoice_now`, `prorate` and `expand` exactly when given. */
  lemma CancelSends(a: CancelArgs)
    ensures Lookup(CancelBody(a), Name(InvoiceNow)) == if a.invoiceNow.Some? then Some(Bool(a.invoiceNow.value)) else None
    ensures Lookup(CancelBody(a), Name(Prorate)) == if a.prorate.Some? then Some(Bool(a.prorate.value)) else None
    ensures Lookup(CancelBody(a), Name(Expand)) == if a.expand.Some? then Some(Strings(a.expand.value)) else None
  {
    var f := CancelFields(a);
    assert Field(f, InvoiceNow) == OptBool(a.invoiceNow) && Field(f, Prorate) == OptBool(a.prorate);
    assert Field(f, Expand) == OptStrings(a.expand);
    assert Lookup(Sent(f, CancelParams), Name(InvoiceNow)) == Field(f, InvoiceNow);
    assert Lookup(Sent(f, CancelParams), Name(Prorate)) == Field(f, Prorate);
    assert Lookup(Sent(f, CancelParams), Name(Expand)) == Field(f, Expand);
  }

  /** `cancel` sends no key besides `invoice_now`, `prorate` and `expand`. */
  lemma CancelKeys(a: CancelArgs)
    ensures CancelBody(a).Keys <= {Name(InvoiceNow), Name(Prorate), Name(Expand)}
  {
    forall key | key in CancelBody(a)
      ensures key == Name(InvoiceNow) || key == Name(Prorate) || key == Name(Expand)
    {
      var p :| p in CancelParams && Name(p) == key;
    }
  }

  // ---------------------------------------------------------------------
  // Calls that give no optional argument.

  /** With no parameter given a value, nothing is sent under a plain name. */
  lemma SentNoFields(ps: set<Param>)
    ensures Sent(NoFields, ps) == map[]
  {
    forall p
      ensures Field(NoFields, p) == None
    {
    }
  }

  /** `create` called with only a customer and its items. */
  predicate OnlyRequired(a: CreateArgs) {
    && a.addInvoiceItems.None? && a.applicationFeePercent.None? && a.backdateStartDate.None?
    && a.billingCycleAnchor.None? && a.billingThresholds.None? && a.cancelAt.None?
    && a.cancelAtPeriodEnd.None? && a.collectionMethod.None? && a.coupon.None?
    && a.daysUntilDue.None? && a.defaultPaymentMethod.None? && a.defaultSource.None?
    && a.defaultTaxRates.None? && a.metadata.None? && a.offSession.None?
    && a.paymentBehavior.None? && a.pendingInvoiceItemInterval.None? && a.prorationBehavior.None?
    && a.transferData.None? && a.trialEnd.None? && a.trialFromPlan.None?
    && a.trialPeriodDays.None? && a.expand.None?
  }

  /** `update` called with every optional argument nil. */
  predicate NothingGiven(a: UpdateArgs) {
    && a.addInvoiceItems.None? && a.applicationFeePercent.None? && a.billingCycleAnchor.None?
    && a.billingThresholds.None? && a.cancelAt.None? && a.cancelAtPeriodEnd.None?
    && a.collectionMethod.None? && a.coupon.None? && a.daysUntilDue.None?
    && a.defaultPaymentMethod.None? && a.defaultSource.None? && a.defaultTaxRates.None?
    && a.items.None? && a.metadata.None? && a.offSession.None?
    && a.pauseCollection.None? && a.paymentBehavior.None? && a.pendingInvoiceItemInterval.None?
    && a.prorationBehavior.None? && a.prorationDate.None? && a.transferData.None?
    && a.trialEnd.None? && a.trialFromPlan.None? && a.expand.None?
  }

  /** With only `customer` and `items` given a value, only those two are
      sent under a plain name. */
  lemma SentRequired(c: Value, i: Value, ps: set<Param>)
    requires Customer in ps && Items in ps
    ensures Sent(NoFields.(customer := Some(c), items := Some(i)), ps) == map[Name(Customer) := c, Name(Items) := i]
  {
    var f := NoFields.(customer := Some(c), items := Some(i));
    forall p
      ensures Field(f, p) == if p == Customer then Some(c) else if p == Items then Some(i) else None
    {
    }
    NamesDistinct();
  }

  /** With only the required arguments, `create` sends `customer` and `items`
      and nothing else. */
  lemma CreateMinimalBody(a: CreateArgs)
    requires OnlyRequired(a)
    ensures CreateBody(a) == map[Name(Customer) := Str(a.customer), Name(Items) := Dicts(a.items)]
  {
    assert CreateFields(a) == NoFields.(customer := Some(Str(a.customer)), items := Some(Dicts(a.items)));
    assert CreateFlattened(a) == map[];
    SentRequired(Str(a.customer), Dicts(a.items), CreateParams);
  }

  /** An `update` with every optional argument nil sends an empty body. */
  lemma UpdateEmptyBody(a: UpdateArgs)
    requires NothingGiven(a)
    ensures UpdateBody(a) == map[]
  {
    assert UpdateFields(a) == NoFields;
    assert UpdateFlattened(a) == map[];
    SentNoFields(UpdateParams);
  }

  /** A `cancel` with every argument nil sends an empty body. */
  lemma CancelEmptyBody(a: CancelArgs)
    requires a.invoiceNow.None? && a.prorate.None? && a.expand.None?
    ensures CancelBody(a) == map[]
  {
    assert CancelFields(a) == NoFields;
    SentNoFields(CancelParams);
  }

  // ---------------------------------------------------------------------
  // Nothing else is sent.

  /** Every key of the body of `create` is the name of a parameter `create`
      sends, or `prefix[k]` for an entry `k` of one of its dictionaries. */
  lemma CreateKeys(a: CreateArgs, key: string)
    requires key in CreateBody(a)
    ensures || (ParamOf(key).Some? && ParamOf(key).value in CreateParams)
            || FamilyKey(key, "billing_thresholds", a.billingThresholds)
            || FamilyKey(key, "metadata", OptStrValues(a.metadata))
            || FamilyKey(key, "pending_invoice_item_interval", a.pendingInvoiceItemInterval)
            || FamilyKey(key, "transfer_data", a.transferData)
  {
    if key in Sent(CreateFields(a), CreateParams) {
      var p :| p in CreateParams && Name(p) == key;
      ParamOfName(p);
    } else {
      FlattenedKeys("billing_thresholds", a.billingThresholds, key);
      FlattenedKeys("metadata", OptStrValues(a.metadata), key);
      FlattenedKeys("pending_invoice_item_interval", a.pendingInvoiceItemInterval, key);
      FlattenedKeys("transfer_data", a.transferData, key);
    }
  }

  /** Every key of the body of `update` is the name of a parameter `update`
      sends, or `prefix[k]` for an entry `k` of one of its dictionaries. */
  lemma UpdateKeys(a: UpdateArgs, key: string)
    requires key in UpdateBody(a)
    ensures || (ParamOf(key).Some? && ParamOf(key).value in UpdateParams)
            || FamilyKey(key, "billing_thresholds", a.billingThresholds)
            || FamilyKey(key, "metadata", OptStrValues(a.metadata))
            || FamilyKey(key, "pause_collection", a.pauseCollection)
            || FamilyKey(key, "pending_invoice_item_interval", a.pendingInvoiceItemInterval)
            || FamilyKey(key, "transfer_data", a.transferData)
  {
    if key in Sent(UpdateFields(a), UpdateParams) {
      var p :| p in UpdateParams && Name(p) == key;
      ParamOfName(p);
    } else {
      FlattenedKeys("billing_thresholds", a.billingThresholds, key);
      FlattenedKeys("metadata", OptStrValues(a.metadata), key);
      FlattenedKeys("pause_collection", a.pauseCollection, key);
      FlattenedKeys("pending_invoice_item_interval", a.pendingInvoiceItemInterval, key);
      FlattenedKeys("transfer_data", a.transferData, key);
    }
  }
}
