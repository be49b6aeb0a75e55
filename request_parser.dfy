/** Normalisation of inbound webhook payloads: a JSON or form body merged with
    the query parameters, checked for required fields and optionally
    restricted to the expected keys. */
module RequestParser {
  import opened Wrappers
  import opened Values
  import opened PyStr

  /** What the handler can learn from an inbound request. The reads of the
      body are given by their outcome: `json` is `request.json()` when it
      yields an object and `None` when it raises; `form` is
      `request.form()`, `None` when it raises. Repeated form or query keys
      have already collapsed to their last value, as Starlette's
      `items()` does. */
  datatype Request = Request(
    contentType: Option<string>,
    json: Option<Fields>,
    form: Option<map<string, string>>,
    query: map<string, string>)

  datatype HttpError = HttpError(status: int, detail: string)

  const JsonMediaType := "application/json"
  const MissingPrefix := "Missing required field(s): "

  /** `"application/json" in request.headers.get("content-type", "").lower()` */
  predicate WantsJson(req: Request) {
    var ct := match req.contentType case Some(c) => c case None => "";
    Contains(Lower(ct), JsonMediaType)
  }

  function Texts(m: map<string, string>): (f: Fields)
    ensures f.Keys == m.Keys
    ensures forall k :: k in m ==> f[k] == Str(m[k])
  {
    map k | k in m :: Str(m[k])
  }

  /** The body the handler starts from: the JSON object when the content type
      asks for JSON and it parses to a non-empty object, else the form (empty
      when the form cannot be read). */
  function BodyData(req: Request): Fields {
    var fromJson := if WantsJson(req) && req.json.Some? then req.json.value else map[];
    if fromJson != map[] then fromJson
    else match req.form
      case Some(f) => Texts(f)
      case None => map[]
  }

  /** The body with every query parameter added under a key the body lacks. */
  function Merged(body: Fields, query: map<string, string>): (d: Fields)
    ensures d.Keys == body.Keys + query.Keys
    ensures forall k :: k in body ==> d[k] == body[k]
    ensures forall k :: k in query && k !in body ==> d[k] == Str(query[k])
  {
    map k | k in body.Keys + query.Keys :: if k in body then body[k] else Str(query[k])
  }

  /** `[f for f in required if not data.get(f)]` */
  function Missing(required: seq<string>, data: Fields): (m: seq<string>)
    ensures |m| <= |required|
    ensures forall f :: f in m <==> f in required && !Truthy(Get(data, f))
  {
    if required == [] then []
    else
      var rest := Missing(required[1..], data);
      assert forall f :: f in required <==> f == required[0] || f in required[1..];
      if Truthy(Get(data, required[0])) then rest else [required[0]] + rest
  }

  /** `{k: v for k, v in data.items() if k in allowed}` */
  function Restrict(data: Fields, allowed: set<string>): (r: Fields)
    ensures r.Keys == data.Keys * allowed
    ensures forall k :: k in r ==> r[k] == data[k]
  {
    map k | k in data && k in allowed :: data[k]
  }

  /** `set(required_fields) | set(optional_fields)` */
  function Allowed(required: seq<string>, optional: seq<string>): (a: set<string>)
    ensures forall f :: f in a <==> f in required || f in optional
  {
    (set f | f in required) + (set f | f in optional)
  }

  /** The payload `parse_incoming_payload` returns, as a function of the request. */
  function Normalized(req: Request, required: seq<string>, optional: Option<seq<string>>): Result<Fields, HttpError> {
    var data := Merged(BodyData(req), req.query);
    var missing := Missing(required, data);
    if missing != [] then Err(HttpError(422, MissingPrefix + Join(missing, ", ")))
    else if optional.Some? then Ok(Restrict(data, Allowed(required, optional.value)))
    else Ok(data)
  }

  /** `for key, value in query.items(): data.setdefault(key, value)` */
  method SetDefaults(body: Fields, query: map<string, string>) returns (data: Fields)
    ensures data == Merged(body, query)
  {
    data := body;
    var pending := query.Keys;
    while pending != {}
      invariant pending <= query.Keys
      invariant data.Keys == body.Keys + (query.Keys - pending)
      invariant forall k :: k in body ==> data[k] == body[k]
      invariant forall k :: k in data && k !in body ==> data[k] == Str(query[k])
      decreases pending
    {
      var key :| key in pending;
      if key !in data {
        data := data[key := Str(query[key])];
      }
      pending := pending - {key};
    }
  }

  /** `parse_incoming_payload(request, required_fields, optional_fields)`. */
  method ParseIncomingPayload(req: Request, required: seq<string>, optional: Option<seq<string>>)
    returns (r: Result<Fields, HttpError>)
    ensures r == Normalized(req, required, optional)
  {
    var data: Fields := map[];
    if WantsJson(req) {
      match req.json {
        case Some(j) => data := j;
        case None => data := map[];
      }
    }
    if data == map[] {
      match req.form {
        case Some(f) => data := Texts(f);
        case None => data := map[];
      }
    }
    data := SetDefaults(data, req.query);

    var missing := Missing(required, data);
    if missing != [] {
      return Err(HttpError(422, MissingPrefix + Join(missing, ", ")));
    }
    if optional.Some? {
      return Ok(Restrict(data, Allowed(required, optional.value)));
    }
    return Ok(data);
  }

  /** What the caller gets: a 422 listing exactly the absent or falsy required
      fields, or a payload holding every required field with a truthy value;
      the full merged map, or its restriction to the expected keys. */
  lemma NormalizedContract(req: Request, required: seq<string>, optional: Option<seq<string>>)
    ensures var r := Normalized(req, required, optional);
      var data := Merged(BodyData(req), req.query);
      && (r.Err? <==> exists f :: f in required && !Truthy(Get(data, f)))
      && (r.Err? ==> r.error.status == 422)
      && (r.Err? ==> r.error.detail == MissingPrefix + Join(Missing(required, data), ", "))
      && (r.Ok? ==> forall f :: f in required ==> f in r.value && Truthy(r.value[f]))
      && (r.Ok? && optional.None? ==> r.value == data)
      && (r.Ok? && optional.Some? ==>
            && (forall k :: k in r.value <==> k in data && (k in required || k in optional.value))
            && (forall k :: k in r.value ==> r.value[k] == data[k]))
  {
    var data := Merged(BodyData(req), req.query);
    var m := Missing(required, data);
    if m != [] {
      assert m[0] in m;
    }
  }

  /** Query parameters never overwrite the body, and all of them are present. */
  lemma QueryNeverOverwrites(req: Request, required: seq<string>)
    requires Normalized(req, required, None).Ok?
    ensures var p := Normalized(req, required, None).value;
      && (forall k :: k in BodyData(req) ==> p[k] == BodyData(req)[k])
      && (forall k :: k in req.query ==> k in p)
  {
  }

  /** With no required fields the parse never fails (the intercept webhook). */
  lemma NoRequiredNeverFails(req: Request, optional: Option<seq<string>>)
    ensures Normalized(req, [], optional).Ok?
  {
  }

  /** A non-empty JSON object sent as JSON is the body; the form is never read. */
  lemma JsonBodyWins(req: Request)
    requires WantsJson(req) && req.json.Some? && req.json.value != map[]
    ensures BodyData(req) == req.json.value
  {
  }

  /** Without a JSON content type, or when the JSON body is empty or
      malformed, the body is the form (or nothing, when the form fails). */
  lemma FormFallback(req: Request)
    requires !WantsJson(req) || req.json.None? || req.json.value == map[]
    ensures BodyData(req) == (if req.form.Some? then Texts(req.form.value) else map[])
  {
  }

  /** The missing fields keep the order of `required`. */
  lemma {:induction false} MissingInOrder(a: seq<string>, b: seq<string>, data: Fields)
    ensures Missing(a + b, data) == Missing(a, data) + Missing(b, data)
  {
    if a == [] {
      assert a + b == b;
    } else {
      assert (a + b)[1..] == a[1..] + b;
      MissingInOrder(a[1..], b, data);
    }
  }
}
