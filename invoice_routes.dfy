/** The invoice routes of the older `Stripe` package: `create` builds a
    `Node` body one conditional write at a time and may add the connected
    account header, `fetch` names one invoice, and `listItems` builds a query
    from an optional filter and two optional overrides. */
module InvoiceRoutes {
  import opened Wire
  import opened FormKeys

  /** The endpoints the three routes use. */
  datatype InvoiceRoute = Invoices | Invoice(id: string) | InvoiceLines(id: string)

  /** The one header an invoice route can set, `StripeHeader.Account`. */
  datatype StripeHeader = Account

  type InvoiceHeaders = Option<map<StripeHeader, string>>

  type InvoiceRequest = Request<InvoiceRoute, InvoiceHeaders>

  /** The entries of a metadata node that is an object;
      any other node, like a missing one, has none. */
  function ObjectOf(metadata: Option<Value>): Option<Params> {
    if metadata.Some? && metadata.value.Dict? then Some(metadata.value.entries) else None
  }

  /** The plain keys `create` can write. */
  const CreatePlainKeys: set<string> := {"application_fee", "customer", "subscription", "description", "statement_descriptor"}

  lemma CreatePlainKeysArePlain()
    ensures forall key :: key in CreatePlainKeys ==> Plain(key)
  {
    forall key | key in CreatePlainKeys
      ensures Plain(key)
    {
    }
  }

  /** A flattened dictionary added to a body leaves its plain keys alone. */
  lemma PlainKeyThrough(plain: Params, prefix: string, d: Option<Params>, key: string)
    requires Plain(key)
    ensures Lookup(plain + Flattened(prefix, d), key) == Lookup(plain, key)
  {
    FlattenedNoPlainKeys(prefix, d);
  }

  /** Added to a body of plain keys, a flattened dictionary is read back under
      its bracket keys. */
  lemma BracketKeyThrough(plain: Params, prefix: string, d: Option<Params>, k: string)
    requires forall key :: key in plain ==> Plain(key)
    ensures Lookup(plain + Flattened(prefix, d), BracketKey(prefix, k)) == if d.Some? then Lookup(d.value, k) else None
  {
    FlattenedAt(prefix, d, k);
  }

  /** The writes of `create` before its metadata: the account header and the
      application fee, then the customer, subscription, description, tax
      percent and statement descriptor. */
  method CreatePlain(customer: string, subscription: Option<string>, fee: Option<int>, account: Option<string>,
                     description: Option<string>, taxPercent: Option<real>, statementDescriptor: Option<string>)
    returns (body: Params, headers: InvoiceHeaders)
    ensures headers == if account.Some? then Some(map[Account := account.value]) else None
    ensures Lookup(body, "customer") == Some(Str(customer))
    ensures Lookup(body, "application_fee")
         == if account.Some? && fee.Some? then Some(Int(fee.value)) else None
    ensures Lookup(body, "subscription")
         == if subscription.Some? then Some(Str(subscription.value)) else None
    ensures Lookup(body, "description")
         == if taxPercent.Some? then Some(Real(taxPercent.value))
            else if description.Some? then Some(Str(description.value))
            else None
    ensures Lookup(body, "statement_descriptor")
         == if statementDescriptor.Some? then Some(Str(statementDescriptor.value)) else None
    ensures body.Keys <= CreatePlainKeys
  {
    body := map[];
    headers := None;
    if account.Some? {
      headers := Some(map[Account := account.value]);
      body := Insert(body, "application_fee", OptInt(fee));
    }
    body := Insert(body, "customer", Some(Str(customer)));
    body := Insert(body, "subscription", OptStr(subscription));
    body := Insert(body, "description", OptStr(description));
    body := Insert(body, "description", OptReal(taxPercent));
    body := Insert(body, "statement_descriptor", OptStr(statementDescriptor));
  }

  /** POST `invoices`. The connected account header is set when an account is
      given, and only then is the application fee sent. A tax percent is
      written under `description`, over any description given. Every entry
      of a metadata object is sent under `metadata[k]`. */
  method Create(customer: string, subscription: Option<string>, fee: Option<int>, account: Option<string>,
                description: Option<string>, metadata: Option<Value>, taxPercent: Option<real>,
                statementDescriptor: Option<string>)
    returns (req: InvoiceRequest)
    ensures req.httpMethod == POST && req.path == Invoices && req.query == map[] && req.body.Some?
    ensures req.headers == if account.Some? then Some(map[Account := account.value]) else None
    ensures Lookup(req.body.value, "customer") == Some(Str(customer))
    ensures Lookup(req.body.value, "application_fee")
         == if account.Some? && fee.Some? then Some(Int(fee.value)) else None
    ensures Lookup(req.body.value, "subscription")
         == if subscription.Some? then Some(Str(subscription.value)) else None
    ensures Lookup(req.body.value, "description")
         == if taxPercent.Some? then Some(Real(taxPercent.value))
            else if description.Some? then Some(Str(description.value))
            else None
    ensures Lookup(req.body.value, "statement_descriptor")
         == if statementDescriptor.Some? then Some(Str(statementDescriptor.value)) else None
    ensures forall k :: (Lookup(req.body.value, BracketKey("metadata", k))
         == if ObjectOf(metadata).Some? then Lookup(ObjectOf(metadata).value, k) else None)
    ensures forall key :: key in req.body.value ==> key in CreatePlainKeys || FamilyKey(key, "metadata", ObjectOf(metadata))
    ensures "tax_percent" !in req.body.value
  {
    var body, headers := CreatePlain(customer, subscription, fee, account, description, taxPercent, statementDescriptor);
    ghost var plain := body;
    CreatePlainKeysArePlain();
    body := InsertFlattened(body, "metadata", ObjectOf(metadata));
    assert body == plain + Flattened("metadata", ObjectOf(metadata));
    forall key | key in CreatePlainKeys
      ensures Lookup(body, key) == Lookup(plain, key)
    {
      PlainKeyThrough(plain, "metadata", ObjectOf(metadata), key);
    }
    forall k
      ensures Lookup(body, BracketKey("metadata", k)) == if ObjectOf(metadata).Some? then Lookup(ObjectOf(metadata).value, k) else None
    {
      BracketKeyThrough(plain, "metadata", ObjectOf(metadata), k);
    }
    forall key | key in body
      ensures key in CreatePlainKeys || FamilyKey(key, "metadata", ObjectOf(metadata))
    {
      FlattenedKeys("metadata", ObjectOf(metadata), key);
    }
    assert Unbracket("metadata", "tax_percent").None?;
    req := Request(POST, Invoices, map[], Some(body), headers);
  }

  /** Retrieving an invoice is sent as a POST to the `Invoice(id)` route, with no body
      and no headers. */
  method Fetch(invoiceId: string) returns (req: InvoiceRequest)
    ensures req.httpMethod == POST && req.path == Invoice(invoiceId)
    ensures req.query == map[] && req.body.None? && req.headers.None?
  {
    req := Request(POST, Invoice(invoiceId), map[], None, None);
  }

  /** GET on the `InvoiceLines(id)` route. The query starts as the filter's query, or
      empty; a given customer or coupon then replaces the filter's entry of
      that name. A filter that fails to build its query makes the route fail. */
  method ListItems(invoiceId: string, customer: Option<string>, coupon: Option<string>, filter: Option<Result<Params>>)
    returns (r: Result<InvoiceRequest>)
    ensures filter.Some? && filter.value.Err? ==> r == Err(filter.value.error)
    ensures !(filter.Some? && filter.value.Err?) ==> r.Ok?
    ensures r.Ok? ==> r.value.httpMethod == GET && r.value.path == InvoiceLines(invoiceId)
    ensures r.Ok? ==> r.value.body.None? && r.value.headers.None?
    ensures r.Ok? ==> (Lookup(r.value.query, "customer")
         == if customer.Some? then Some(Str(customer.value)) else Lookup(FilterQuery(filter), "customer"))
    ensures r.Ok? ==> (Lookup(r.value.query, "coupon")
         == if coupon.Some? then Some(Str(coupon.value)) else Lookup(FilterQuery(filter), "coupon"))
    ensures r.Ok? ==> forall key :: key != "customer" && key != "coupon" ==>
      Lookup(r.value.query, key) == Lookup(FilterQuery(filter), key)
  {
    var query: Params := map[];
    if filter.Some? {
      if filter.value.Err? {
        return Err(filter.value.error);
      }
      query := filter.value.value;
    }
    query := Insert(query, "customer", OptStr(customer));
    query := Insert(query, "coupon", OptStr(coupon));
    r := Ok(Request(GET, InvoiceLines(invoiceId), query, None, None));
  }

  /** The query a filter builds, or the empty query when there is no filter
      or it fails. */
  function FilterQuery(filter: Option<Result<Params>>): Params {
    if filter.Some? && filter.value.Ok? then filter.value.value else map[]
  }
}
