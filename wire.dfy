/** Values a route puts into a request, and the request record a route hands
    to the dispatcher. Form encoding and transport happen after this point and
    are not part of the model. */
module Wire {

  datatype Option<+T> = None | Some(value: T)

  /** The outcome of a call that may throw. */
  datatype Result<+T> = Ok(value: T) | Err(error: string)

  /** A point in time, already reduced to whole seconds since 1970. */
  datatype Date = Date(secondsSince1970: int)

  /** The values that can sit in a parameter dictionary: Swift's `Any`
      (String, Int, Bool, Decimal, arrays and nested dictionaries) or a
      vapor `Node`. Top-level date arguments become `Int` before they get
      here; values nested in dictionary arguments are passed as given. */
  datatype Value =
    | Str(s: string)
    | Int(i: int)
    | Bool(b: bool)
    | Real(r: real)
    | List(elems: seq<Value>)
    | Dict(entries: map<string, Value>)

  /** A flat parameter dictionary, before form encoding. */
  type Params = map<string, Value>

  datatype HttpMethod = GET | POST | DELETE

  /** What a route passes to the dispatcher. `P` is how the route names its
      endpoint, `H` the type of its headers. */
  datatype Request<P, H> = Request(httpMethod: HttpMethod, path: P, query: Params, body: Option<Params>, headers: H)

  /** The value stored under `k`, if any. */
  function Lookup(m: Params, k: string): (r: Option<Value>)
    ensures r.Some? <==> k in m
    ensures r.Some? ==> m[k] == r.value
  {
    if k in m then Some(m[k]) else None
  }

  /** Writing `v` under `k` when `v` is given: the one-key conditional insert every route
      is made of. */
  function Put(m: Params, k: string, v: Option<Value>): (r: Params)
    ensures Lookup(r, k) == if v.Some? then v else Lookup(m, k)
    ensures forall j {:trigger Lookup(r, j)} :: j != k ==> Lookup(r, j) == Lookup(m, j)
  {
    if v.Some? then m[k := v.value] else m
  }

  /** Of two inserts under one key, the later one wins when it happens. */
  lemma Overwrite(m: Params, k: string, v1: Option<Value>, v2: Option<Value>)
    ensures Put(Put(m, k, v1), k, v2) == Put(m, k, if v2.Some? then v2 else v1)
  {
  }

  /** Writes `v` under `k` when it is given: one write of a route. */
  method Insert(body: Params, k: string, v: Option<Value>) returns (r: Params)
    ensures r == Put(body, k, v)
  {
    r := body;
    if v.Some? {
      r := r[k := v.value];
    }
  }

  /** Swift `[String]` as a value. */
  function Strings(xs: seq<string>): Value {
    List(seq(|xs|, i requires 0 <= i < |xs| => Str(xs[i])))
  }

  /** Swift `[[String: Any]]` as a value. */
  function Dicts(ds: seq<Params>): Value {
    List(seq(|ds|, i requires 0 <= i < |ds| => Dict(ds[i])))
  }

  /** Swift `[String: String]` as a parameter dictionary. */
  function StrValues(m: map<string, string>): Params {
    map k | k in m :: Str(m[k])
  }

  function OptStr(o: Option<string>): Option<Value> {
    if o.Some? then Some(Str(o.value)) else None
  }

  function OptInt(o: Option<int>): Option<Value> {
    if o.Some? then Some(Int(o.value)) else None
  }

  function OptBool(o: Option<bool>): Option<Value> {
    if o.Some? then Some(Bool(o.value)) else None
  }

  function OptReal(o: Option<real>): Option<Value> {
    if o.Some? then Some(Real(o.value)) else None
  }

  /** `Int(date.timeIntervalSince1970)`: a date is sent as whole seconds. */
  function OptDate(o: Option<Date>): Option<Value> {
    if o.Some? then Some(Int(o.value.secondsSince1970)) else None
  }

  function OptStrings(o: Option<seq<string>>): Option<Value> {
    if o.Some? then Some(Strings(o.value)) else None
  }

  function OptDicts(o: Option<seq<Params>>): Option<Value> {
    if o.Some? then Some(Dicts(o.value)) else None
  }
}
