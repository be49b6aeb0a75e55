/** The `/intercept` webhook: every message relayed inside a proxy session
    is logged, the sitter's participant is kept in sync with the sitter's
    stored phone, the client's activity is tracked, and the relayed body is
    prefixed with the client's name. */
module Intercept {
  import opened Wrappers
  import opened Values
  import opened PyStr
  import opened RequestParser
  import opened AirtableClient
  import opened TtlManager
  import opened TwilioProxy

  /** What the endpoint answers: the "Missing critical fields" object, a
      `{"body": ...}` object, or a server error (an exception escaping the
      handler). */
  datatype InterceptResponse = MissingFields | Reply(body: Value) | ServerError

  /** The outcomes of the collaborators a request meets.
      `decodeInteraction(s)` is `json.loads(s).get("body")`, `None` when that
      raises; `fetched` is `get_participant`, `listed` is
      `list_participants`; the flags are the outcomes of removing and adding
      a participant, of the sitter and client lookups, of the Last Active
      update, of closing an expired session, of its TTL_EXPIRY audit write
      and of saving the message. */
  datatype Env = Env(
    now: Instant,
    decodeInteraction: Value -> Option<Value>,
    fetched: Call<Option<Participant>>,
    listed: Call<seq<Participant>>,
    removeOk: bool,
    addOk: bool,
    sitterLookupOk: bool,
    clientLookupOk: bool,
    touchOk: bool,
    closeOk: bool,
    logOk: bool,
    saveOk: bool)

  /** The state a request can change: the Clients, Messages and Audit Log
      tables and the requests sent to the proxy service. */
  datatype World = World(clients: seq<Record>, messages: seq<Message>, audit: seq<Event>, requests: seq<ProxyRequest>)

  /** The fields of one relayed message. */
  datatype Inbound = Inbound(session: Value, body: Value, from: Value, to: Value)

  // ----------------------------------------------------------------------
  // 1. Field extraction
  // ----------------------------------------------------------------------

  /** `payload.get("interactionSessionSid") or payload.get("SessionSid")` */
  function SessionId(payload: Fields): (v: Value)
    ensures Truthy(Get(payload, "interactionSessionSid")) ==> v == Get(payload, "interactionSessionSid")
    ensures !Truthy(Get(payload, "interactionSessionSid")) ==> v == Get(payload, "SessionSid")
  {
    Or(Get(payload, "interactionSessionSid"), Get(payload, "SessionSid"))
  }

  /** The body: `Body`, or, only when that is empty and `interactionData` is
      set, the `body` key of the decoded `interactionData`; a decoding
      failure leaves `Body` as it was. */
  function MessageBody(payload: Fields, decode: Value -> Option<Value>): (v: Value)
    ensures Truthy(Get(payload, "Body")) ==> v == Get(payload, "Body")
    ensures !Truthy(Get(payload, "Body")) && Truthy(Get(payload, "interactionData"))
            && decode(Get(payload, "interactionData")).Some?
            ==> v == decode(Get(payload, "interactionData")).value
    ensures !Truthy(Get(payload, "interactionData")) || decode(Get(payload, "interactionData")).None?
            ==> v == Get(payload, "Body")
  {
    var data := Get(payload, "interactionData");
    var body := Get(payload, "Body");
    if Truthy(data) && !Truthy(body) then
      match decode(data)
      case Some(b) => b
      case None => body
    else body
  }

  function Extract(payload: Fields, decode: Value -> Option<Value>): Inbound {
    Inbound(SessionId(payload), MessageBody(payload, decode), Get(payload, "From"), Get(payload, "To"))
  }

  /** The participant lookup runs when From is missing and both an inbound
      participant sid and a session id are present. */
  predicate NeedsParticipant(payload: Fields, x: Inbound) {
    !Truthy(x.from) && Truthy(Get(payload, "inboundParticipantSid")) && Truthy(x.session)
  }

  /** The message after the participant lookup; `Raised` when the lookup
      raises. A participant found replaces both From and To. */
  function Received(payload: Fields, env: Env): (r: Call<Inbound>)
    ensures r.Raised? ==> NeedsParticipant(payload, Extract(payload, env.decodeInteraction)) && env.fetched.Raised?
    ensures r.Returned? ==> r.value.session == SessionId(payload) && r.value.body == MessageBody(payload, env.decodeInteraction)
    ensures r.Returned? && Truthy(Get(payload, "From")) ==> r.value == Extract(payload, env.decodeInteraction)
    ensures NeedsParticipant(payload, Extract(payload, env.decodeInteraction)) && env.fetched.Raised? ==> r.Raised?
    ensures NeedsParticipant(payload, Extract(payload, env.decodeInteraction)) && env.fetched.Returned? && env.fetched.value.Some? ==>
      r == Returned(Extract(payload, env.decodeInteraction).(from := Str(env.fetched.value.value.identifier),
                                                             to := Str(env.fetched.value.value.proxyIdentifier)))
    ensures !NeedsParticipant(payload, Extract(payload, env.decodeInteraction)) || env.fetched == Returned(None) ==>
      r == Returned(Extract(payload, env.decodeInteraction))
  {
    var x := Extract(payload, env.decodeInteraction);
    if !NeedsParticipant(payload, x) then Returned(x)
    else match env.fetched
      case Raised => Raised
      case Returned(None) => Returned(x)
      case Returned(Some(p)) => Returned(x.(from := Str(p.identifier), to := Str(p.proxyIdentifier)))
  }

  /** `all([from_num, to_num, body, session_sid])` */
  predicate AllPresent(x: Inbound) {
    Truthy(x.from) && Truthy(x.to) && Truthy(x.body) && Truthy(x.session)
  }

  /** A "+" prepended when the number lacks one. */
  function EnsurePlus(s: string): (r: string)
    ensures StartsWith(r, "+")
    ensures StartsWith(s, "+") ==> r == s
    ensures !StartsWith(s, "+") ==> r == "+" + s
  {
    if StartsWith(s, "+") then s
    else
      var r := "+" + s;
      assert r[..1] == "+";
      r
  }

  // ----------------------------------------------------------------------
  // 2. Sitter lookup and participant sync
  // ----------------------------------------------------------------------

  /** The sitter's participant: the first one on the proxy number that is not
      the sender; failing that, when the sender is the sitter, the first
      one with the sender's number. */
  function SitterParticipant(ps: seq<Participant>, fromN: string, toN: string, sitterPhone: Value): Option<Participant> {
    var other := First(ps, (p: Participant) => p.proxyIdentifier == toN && p.identifier != fromN);
    if other.None? && SameText(sitterPhone, fromN) then First(ps, (p: Participant) => p.identifier == fromN)
    else other
  }

  /** The ids of a linked-record list that are all digits, concatenated:
      iterating a list yields its ids, and `str.isdigit` is false for an empty
      id. */
  function DigitIds(ids: seq<string>): (d: string)
    ensures forall i :: 0 <= i < |d| ==> IsDigit(d[i])
  {
    if ids == [] then []
    else
      var head := if ids[0] != [] && forall i :: 0 <= i < |ids[0]| ==> IsDigit(ids[0][i]) then ids[0] else [];
      head + DigitIds(ids[1..])
  }

  /** One id is kept whole exactly when it is non-empty and all digits. */
  lemma DigitIdsOfOne(id: string)
    ensures DigitIds([id]) == if id != [] && forall i :: 0 <= i < |id| ==> IsDigit(id[i]) then id else []
  {
    assert [id][1..] == [];
  }

  /** The ids are filtered one by one, in order. */
  lemma {:induction false} DigitIdsConcat(a: seq<string>, b: seq<string>)
    ensures DigitIds(a + b) == DigitIds(a) + DigitIds(b)
    decreases |a|
  {
    if a == [] {
      assert a + b == b;
    } else {
      assert (a + b)[0] == a[0];
      assert (a + b)[1..] == a[1..] + b;
      DigitIdsConcat(a[1..], b);
    }
  }

  /** `"".join(filter(str.isdigit, phone))` on the stored Phone Number: the
      digits of a text value, the all-digit ids of a linked-record list;
      `None` for any other value, on which the call raises. */
  function PhoneDigits(phone: Value): (d: Option<string>)
    ensures TextOf(phone).Some? ==> d == Some(CleanNumber(TextOf(phone).value))
    ensures phone.Links? ==> d == Some(DigitIds(phone.ids))
    ensures d.None? <==> phone.Null? || phone.Other?
  {
    match phone
    case Str(s) => Some(CleanNumber(s))
    case Stamp(t) => Some(CleanNumber(t.raw))
    case Links(ids) => Some(DigitIds(ids))
    case _ => None
  }

  /** What the sync sends, and whether it raises. */
  datatype Sync = Sync(requests: seq<ProxyRequest>, raised: bool)

  /** The sync check for a matched sitter: a participant whose digits
      differ from the digits of the sitter's stored Phone Number is removed
      and the stored number added in its place. */
  function SitterSync(session: Value, fromN: string, toN: string, sitter: Record, env: Env): Sync {
    var phone := Get(sitter.fields, "Phone Number");
    match env.listed
    case Raised => Sync([], true)
    case Returned(ps) =>
      var sp := SitterParticipant(ps, fromN, toN, phone);
      if sp.None? || !Truthy(phone) then Sync([], false)
      else match PhoneDigits(phone)
        case None => Sync([], true)
        case Some(db) =>
          if CleanNumber(sp.value.identifier) == db then Sync([], false)
          else if !env.removeOk then Sync([Remove(session, sp.value.sid)], true)
          else Sync([Remove(session, sp.value.sid), Add(session, phone, toN)], !env.addOk)
  }

  // ----------------------------------------------------------------------
  // 3. Client tracking and TTL
  // ----------------------------------------------------------------------

  /** The sender is the matched sitter's own Phone Number. */
  predicate SenderIsSitter(sitter: Option<Record>, fromN: string) {
    sitter.Some? && SameText(Get(sitter.value.fields, "Phone Number"), fromN)
  }

  /** The client of the message: looked up by the sender's number unless
      the sender is the sitter. */
  function ClientOf(sitter: Option<Record>, fromN: string, clients: seq<Record>, env: Env): Option<Record> {
    if SenderIsSitter(sitter, fromN) then None
    else FindClientByPhone(clients, fromN, env.clientLookupOk)
  }

  /** `update_last_active`, then, on the record as it was read,
      `is_ttl_expired` and `handle_ttl_expiry`. */
  function Track(w: World, client: Record, session: Value, env: Env): World {
    var touch := map["Session SID" := session, "Last Active" := NowStamp(env.now)];
    var clients := if env.touchOk && HasId(w.clients, client.id) then Patch(w.clients, client.id, touch) else w.clients;
    if IsTtlExpired(client, env.now.secs)
    then World(clients, w.messages, w.audit + (if env.logOk then [Event(ExpiryEvent, client.id)] else []),
               w.requests + ExpiryRequests(client))
    else w.(clients := clients)
  }

  /** Tracking raises when the client has expired and the TTL_EXPIRY audit
      write fails. */
  predicate TrackRaises(client: Record, env: Env) {
    IsTtlExpired(client, env.now.secs) && !env.logOk
  }

  // ----------------------------------------------------------------------
  // 4. Save and prepend
  // ----------------------------------------------------------------------

  /** `client["fields"].get("Name", "Unknown Client")` */
  function ClientName(client: Record): string {
    if "Name" in client.fields then Render(client.fields["Name"]) else "Unknown Client"
  }

  /** The body returned: unchanged when the sitter talks and no client was
      matched; otherwise prefixed with "[<client name>]: ". */
  function ReplyBody(client: Option<Record>, sitter: Option<Record>, fromN: string, body: Value): Value {
    if client.Some? then Str("[" + ClientName(client.value) + "]: " + Render(body))
    else if SenderIsSitter(sitter, fromN) then body
    else Str("[Unknown Client]: " + Render(body))
  }

  /** Steps 3 and 4, once the sitter is known and the sync is done. */
  function Deliver(w: World, sitter: Option<Record>, session: Value, fromN: string, toN: string, body: Value, env: Env)
    : (InterceptResponse, World)
  {
    var client := ClientOf(sitter, fromN, w.clients, env);
    var w1 := if client.Some? then Track(w, client.value, session, env) else w;
    if client.Some? && TrackRaises(client.value, env) then (ServerError, w1)
    else if !env.saveOk then (ServerError, w1)
    else
      var w2 := w1.(messages := w1.messages + [Message(session, fromN, toN, body, NowStamp(env.now))]);
      (Reply(ReplyBody(client, sitter, fromN, body)), w2)
  }

  /** Steps 2 to 4 for a validated message. */
  function Relay(w: World, sitters: seq<Record>, session: Value, fromN: string, toN: string, body: Value, env: Env)
    : (InterceptResponse, World)
  {
    var sitter := FindSitterByTwilioNumber(sitters, toN, env.sitterLookupOk);
    var sync := if sitter.Some? then SitterSync(session, fromN, toN, sitter.value, env) else Sync([], false);
    var w1 := w.(requests := w.requests + sync.requests);
    if sync.raised then (ServerError, w1)
    else Deliver(w1, sitter, session, fromN, toN, body, env)
  }

  /** The whole request. */
  function Handle(w: World, sitters: seq<Record>, req: Request, env: Env): (InterceptResponse, World) {
    var payload := Merged(BodyData(req), req.query);
    match Received(payload, env)
    case Raised => (ServerError, w)
    case Returned(x) =>
      if !AllPresent(x) then (MissingFields, w)
      else if TextOf(x.from).None? || TextOf(x.to).None? then (ServerError, w)
      else Relay(w, sitters, x.session, EnsurePlus(TextOf(x.from).value), EnsurePlus(TextOf(x.to).value), x.body, env)
  }

  // ----------------------------------------------------------------------
  // The handler
  // ----------------------------------------------------------------------

  function WorldOf(base: Base, proxy: Proxy): World
    reads base, proxy
  {
    World(base.clients, base.messages, base.audit, proxy.requests)
  }

  /** `intercept(request)` */
  method HandleIntercept(base: Base, proxy: Proxy, req: Request, env: Env) returns (resp: InterceptResponse)
    requires base.Valid()
    modifies base`clients, base`messages, base`audit, proxy`requests
    ensures base.Valid()
    ensures (resp, WorldOf(base, proxy)) == Handle(old(WorldOf(base, proxy)), old(base.sitters), req, env)
  {
    NoRequiredNeverFails(req, None);
    var parsed := ParseIncomingPayload(req, [], None);
    var payload := parsed.value;

    // 1. field extraction
    var session := Or(Get(payload, "interactionSessionSid"), Get(payload, "SessionSid"));
    var interactionData := Get(payload, "interactionData");
    var body := Get(payload, "Body");
    if Truthy(interactionData) && !Truthy(body) {
      match env.decodeInteraction(interactionData) {
        case Some(b) => body := b;
        case None =>
      }
    }
    var from := Get(payload, "From");
    var to := Get(payload, "To");

    var inbound := Get(payload, "inboundParticipantSid");
    if !Truthy(from) && Truthy(inbound) && Truthy(session) {
      if env.fetched.Raised? {
        return ServerError;
      }
      if env.fetched.value.Some? {
        from := Str(env.fetched.value.value.identifier);
        to := Str(env.fetched.value.value.proxyIdentifier);
      }
    }
    assert Received(payload, env) == Returned(Inbound(session, body, from, to));

    if !(Truthy(from) && Truthy(to) && Truthy(body) && Truthy(session)) {
      return MissingFields;
    }

    // normalise; a value that is not a string has no `startswith`
    if TextOf(from).None? || TextOf(to).None? {
      return ServerError;
    }
    var fromN := EnsurePlus(TextOf(from).value);
    var toN := EnsurePlus(TextOf(to).value);

    resp := RelayMessage(base, proxy, session, fromN, toN, body, env);
  }

  /** Steps 2 to 4 of `intercept` for a validated message. */
  method RelayMessage(base: Base, proxy: Proxy, session: Value, fromN: string, toN: string, body: Value, env: Env)
    returns (resp: InterceptResponse)
    requires base.Valid()
    modifies base`clients, base`messages, base`audit, proxy`requests
    ensures base.Valid()
    ensures (resp, WorldOf(base, proxy)) == Relay(old(WorldOf(base, proxy)), old(base.sitters), session, fromN, toN, body, env)
  {
    ghost var w0 := WorldOf(base, proxy);
    // 2. sitter lookup and participant sync
    var sitter := FindSitterByTwilioNumber(base.sitters, toN, env.sitterLookupOk);
    ghost var sync := if sitter.Some? then SitterSync(session, fromN, toN, sitter.value, env) else Sync([], false);
    if sitter.Some? {
      var raised := SyncSitter(proxy, session, fromN, toN, sitter.value, env);
      if raised {
        return ServerError;
      }
    } else {
      assert proxy.requests == proxy.requests + [];
    }
    ghost var w1 := WorldOf(base, proxy);
    assert w1 == w0.(requests := w0.requests + sync.requests) && !sync.raised;
    assert Relay(w0, base.sitters, session, fromN, toN, body, env) == Deliver(w1, sitter, session, fromN, toN, body, env);

    resp := DeliverMessage(base, proxy, sitter, session, fromN, toN, body, env);
  }

  /** Steps 3 and 4 of `intercept`. */
  method DeliverMessage(base: Base, proxy: Proxy, sitter: Option<Record>, session: Value, fromN: string, toN: string,
                        body: Value, env: Env)
    returns (resp: InterceptResponse)
    requires base.Valid()
    modifies base`clients, base`messages, base`audit, proxy`requests
    ensures base.Valid()
    ensures (resp, WorldOf(base, proxy)) == Deliver(old(WorldOf(base, proxy)), sitter, session, fromN, toN, body, env)
  {
    ghost var w0 := WorldOf(base, proxy);
    // 3. client tracking and TTL
    var client, raised := TrackSender(base, proxy, sitter, session, fromN, env);
    if raised {
      return ServerError;
    }
    ghost var w1 := WorldOf(base, proxy);

    // 4. save and prepend
    var saved := base.SaveMessage(session, fromN, toN, body, env.now, env.saveOk);
    if !saved {
      return ServerError;
    }
    assert WorldOf(base, proxy) == w1.(messages := w1.messages + [Message(session, fromN, toN, body, NowStamp(env.now))]);
    if client.Some? {
      return Reply(Str("[" + ClientName(client.value) + "]: " + Render(body)));
    } else if SenderIsSitter(sitter, fromN) {
      return Reply(body);
    }
    return Reply(Str("[Unknown Client]: " + Render(body)));
  }

  /** Step 3: the sender is looked up among the clients unless it is the
      sitter, and a matched client is tracked. */
  method TrackSender(base: Base, proxy: Proxy, sitter: Option<Record>, session: Value, fromN: string, env: Env)
    returns (client: Option<Record>, raised: bool)
    requires base.Valid()
    modifies base`clients, base`audit, proxy`requests
    ensures base.Valid()
    ensures client == ClientOf(sitter, fromN, old(base.clients), env)
    ensures WorldOf(base, proxy) == if client.Some? then Track(old(WorldOf(base, proxy)), client.value, session, env) else old(WorldOf(base, proxy))
    ensures base.messages == old(base.messages)
    ensures raised == (client.Some? && TrackRaises(client.value, env))
  {
    client, raised := None, false;
    if !SenderIsSitter(sitter, fromN) {
      client := FindClientByPhone(base.clients, fromN, env.clientLookupOk);
      if client.Some? {
        raised := TrackClient(base, proxy, client.value, session, env);
      }
    }
  }

  /** Step 3 for a matched client. */
  method TrackClient(base: Base, proxy: Proxy, client: Record, session: Value, env: Env) returns (raised: bool)
    requires base.Valid()
    modifies base`clients, base`audit, proxy`requests
    ensures base.Valid()
    ensures WorldOf(base, proxy) == Track(old(WorldOf(base, proxy)), client, session, env)
    ensures base.messages == old(base.messages)
    ensures raised == TrackRaises(client, env)
  {
    UpdateLastActive(base, client.id, session, env.now, env.touchOk);
    if IsTtlExpired(client, env.now.secs) {
      raised := HandleTtlExpiry(base, proxy, client, env.closeOk, env.logOk);
    } else {
      raised := false;
    }
  }

  /** The sync check of step 2. Returns whether it raised. */
  method SyncSitter(proxy: Proxy, session: Value, fromN: string, toN: string, sitter: Record, env: Env)
    returns (raised: bool)
    modifies proxy`requests
    ensures var sync := SitterSync(session, fromN, toN, sitter, env);
      proxy.requests == old(proxy.requests) + sync.requests && raised == sync.raised
  {
    var phone := Get(sitter.fields, "Phone Number");
    if env.listed.Raised? {
      return true;
    }
    var sp := SitterParticipant(env.listed.value, fromN, toN, phone);
    if sp.Some? && Truthy(phone) {
      var db := PhoneDigits(phone);
      if db.None? {
        return true;
      }
      if CleanNumber(sp.value.identifier) != db.value {
        var removed := proxy.RemoveParticipant(session, sp.value.sid, env.removeOk);
        if removed.Fail? {
          return true;
        }
        var added := proxy.AddParticipant(session, phone, toN, env.addOk);
        return added.Fail?;
      }
    }
    return false;
  }

  // ----------------------------------------------------------------------
  // Properties
  // ----------------------------------------------------------------------

  /** A request missing From, To, Body or the session id gets the error
      object and changes nothing. */
  lemma MissingFieldsChangesNothing(w: World, sitters: seq<Record>, req: Request, env: Env)
    ensures var payload := Merged(BodyData(req), req.query);
      var x := Received(payload, env);
      && (Handle(w, sitters, req, env).0 == MissingFields <==> x.Returned? && !AllPresent(x.value))
      && (Handle(w, sitters, req, env).0 == MissingFields ==> Handle(w, sitters, req, env).1 == w)
  {
  }

  /** Tracking a client never touches the Messages table. */
  lemma TrackKeepsMessages(w: World, client: Record, session: Value, env: Env)
    ensures Track(w, client, session, env).messages == w.messages
  {
  }

  /** Steps 3 and 4 save the message exactly when they answer. */
  lemma DeliverSavesOneMessage(w: World, sitter: Option<Record>, session: Value, fromN: string, toN: string, body: Value, env: Env)
    ensures var r := Deliver(w, sitter, session, fromN, toN, body, env);
      && (r.0.Reply? ==> r.1.messages == w.messages + [Message(session, fromN, toN, body, NowStamp(env.now))])
      && (!r.0.Reply? ==> r.1.messages == w.messages)
  {
    var client := ClientOf(sitter, fromN, w.clients, env);
    if client.Some? {
      TrackKeepsMessages(w, client.value, session, env);
    }
  }

  /** Every answered request saved exactly one message (session, normalised
      numbers, the original body), after everything else it changed; any
      other outcome saved none. */
  lemma ReplySavesOneMessage(w: World, sitters: seq<Record>, session: Value, fromN: string, toN: string, body: Value, env: Env)
    ensures var r := Relay(w, sitters, session, fromN, toN, body, env);
      && (r.0.Reply? <==> |r.1.messages| == |w.messages| + 1)
      && (r.0.Reply? ==> r.1.messages == w.messages + [Message(session, fromN, toN, body, NowStamp(env.now))])
      && (!r.0.Reply? ==> r.1.messages == w.messages)
  {
    var sitter := FindSitterByTwilioNumber(sitters, toN, env.sitterLookupOk);
    var sync := if sitter.Some? then SitterSync(session, fromN, toN, sitter.value, env) else Sync([], false);
    var w1 := w.(requests := w.requests + sync.requests);
    if !sync.raised {
      DeliverSavesOneMessage(w1, sitter, session, fromN, toN, body, env);
    }
  }

  /** A message from the sitter's own number touches no client, sends no
      close, and its body is relayed unchanged. */
  lemma SitterSenderIsNotTracked(w: World, sitters: seq<Record>, session: Value, fromN: string, toN: string, body: Value, env: Env)
    requires SenderIsSitter(FindSitterByTwilioNumber(sitters, toN, env.sitterLookupOk), fromN)
    ensures var (resp, w') := Relay(w, sitters, session, fromN, toN, body, env);
      && w'.clients == w.clients
      && w'.audit == w.audit
      && (resp.Reply? ==> resp.body == body)
  {
    var sitter := FindSitterByTwilioNumber(sitters, toN, env.sitterLookupOk);
    var sync := if sitter.Some? then SitterSync(session, fromN, toN, sitter.value, env) else Sync([], false);
    DeliverFromSitter(w.(requests := w.requests + sync.requests), sitter, session, fromN, toN, body, env);
  }

  /** Steps 3 and 4 for a message from the sitter's own number. */
  lemma DeliverFromSitter(w: World, sitter: Option<Record>, session: Value, fromN: string, toN: string, body: Value, env: Env)
    requires SenderIsSitter(sitter, fromN)
    ensures var (resp, w') := Deliver(w, sitter, session, fromN, toN, body, env);
      && w'.clients == w.clients
      && w'.audit == w.audit
      && (resp.Reply? ==> resp.body == body)
  {
  }

  /** A message from a matched client is relayed as "[<Name>]: <body>", the
      client's Last Active is refreshed when the store accepts it, and an
      expired client gets one TTL_EXPIRY event. */
  lemma ClientMessageIsPrefixed(w: World, sitters: seq<Record>, session: Value, fromN: string, toN: string, body: Value, env: Env)
    requires var sitter := FindSitterByTwilioNumber(sitters, toN, env.sitterLookupOk);
      !SenderIsSitter(sitter, fromN) && FindClientByPhone(w.clients, fromN, env.clientLookupOk).Some?
    ensures var client := FindClientByPhone(w.clients, fromN, env.clientLookupOk).value;
      var r := Relay(w, sitters, session, fromN, toN, body, env);
      && (r.0.Reply? ==> r.0.body == Str("[" + ClientName(client) + "]: " + Render(body)))
      && (r.0.Reply? ==> r.1.audit == w.audit + (if IsTtlExpired(client, env.now.secs) then [Event(ExpiryEvent, client.id)] else []))
      && (r.0.Reply? && env.touchOk ==> r.1.clients == Patch(w.clients, client.id, map["Session SID" := session, "Last Active" := NowStamp(env.now)]))
  {
    var sitter := FindSitterByTwilioNumber(sitters, toN, env.sitterLookupOk);
    var sync := if sitter.Some? then SitterSync(session, fromN, toN, sitter.value, env) else Sync([], false);
    DeliverFromClient(w.(requests := w.requests + sync.requests), sitter, session, fromN, toN, body, env);
  }

  /** Steps 3 and 4 for a message from a matched client. */
  lemma DeliverFromClient(w: World, sitter: Option<Record>, session: Value, fromN: string, toN: string, body: Value, env: Env)
    requires !SenderIsSitter(sitter, fromN) && FindClientByPhone(w.clients, fromN, env.clientLookupOk).Some?
    ensures var client := FindClientByPhone(w.clients, fromN, env.clientLookupOk).value;
      var r := Deliver(w, sitter, session, fromN, toN, body, env);
      && (r.0.Reply? ==> r.0.body == Str("[" + ClientName(client) + "]: " + Render(body)))
      && (r.0.Reply? ==> r.1.audit == w.audit + (if IsTtlExpired(client, env.now.secs) then [Event(ExpiryEvent, client.id)] else []))
      && (r.0.Reply? && env.touchOk ==> r.1.clients == Patch(w.clients, client.id, map["Session SID" := session, "Last Active" := NowStamp(env.now)]))
  {
    var client := FindClientByPhone(w.clients, fromN, env.clientLookupOk).value;
    var i :| 0 <= i < |w.clients| && w.clients[i] == client;
    assert HasId(w.clients, client.id);
    assert ClientOf(sitter, fromN, w.clients, env) == Some(client);
    if Deliver(w, sitter, session, fromN, toN, body, env).0.Reply? {
      TrackTouchesAndLogs(w, client, session, env);
    }
  }

  /** Tracking a client that is in the table and does not raise refreshes
      its record when the store accepts it and records TTL_EXPIRY exactly
      when it has expired. */
  lemma TrackTouchesAndLogs(w: World, client: Record, session: Value, env: Env)
    requires HasId(w.clients, client.id) && !TrackRaises(client, env)
    ensures var w' := Track(w, client, session, env);
      && w'.messages == w.messages
      && w'.audit == w.audit + (if IsTtlExpired(client, env.now.secs) then [Event(ExpiryEvent, client.id)] else [])
      && (env.touchOk ==> w'.clients == Patch(w.clients, client.id, map["Session SID" := session, "Last Active" := NowStamp(env.now)]))
  {
  }

  /** A sender who is neither the sitter nor a known client is relayed as
      "[Unknown Client]: <body>", and no client is touched. */
  lemma UnknownSenderIsPrefixed(w: World, sitters: seq<Record>, session: Value, fromN: string, toN: string, body: Value, env: Env)
    requires !SenderIsSitter(FindSitterByTwilioNumber(sitters, toN, env.sitterLookupOk), fromN)
    requires FindClientByPhone(w.clients, fromN, env.clientLookupOk).None?
    ensures var r := Relay(w, sitters, session, fromN, toN, body, env);
      && (r.0.Reply? ==> r.0.body == Str("[Unknown Client]: " + Render(body)))
      && r.1.clients == w.clients
      && r.1.audit == w.audit
  {
  }

  /** The sitter's participant is replaced only when its digits differ from
      the digits of the stored Phone Number: formatting alone ("+1 (555)
      010-0000" against "15550100000") never triggers a resync. */
  lemma ResyncOnlyOnMismatch(session: Value, fromN: string, toN: string, sitter: Record, env: Env)
    ensures var sync := SitterSync(session, fromN, toN, sitter, env);
      var phone := Get(sitter.fields, "Phone Number");
      sync.requests != [] <==>
        && env.listed.Returned?
        && SitterParticipant(env.listed.value, fromN, toN, phone).Some?
        && Truthy(phone) && PhoneDigits(phone).Some?
        && CleanNumber(SitterParticipant(env.listed.value, fromN, toN, phone).value.identifier) != PhoneDigits(phone).value
    ensures var sync := SitterSync(session, fromN, toN, sitter, env);
      sync.requests != [] ==>
        sync.requests[0] == Remove(session, SitterParticipant(env.listed.value, fromN, toN, Get(sitter.fields, "Phone Number")).value.sid)
        && (env.removeOk ==> sync.requests == [sync.requests[0], Add(session, Get(sitter.fields, "Phone Number"), toN)])
  {
  }

  /** The example above: a participant on "+1 (555) 010-0000" and a stored
      Phone Number "15550100000" are the same number, and nothing is sent. */
  lemma FormattingNeverResyncs(session: Value, fromN: string, toN: string, sitter: Record, env: Env)
    requires Get(sitter.fields, "Phone Number") == Str("15550100000")
    requires env.listed.Returned?
    requires var sp := SitterParticipant(env.listed.value, fromN, toN, Str("15550100000"));
      sp.Some? && sp.value.identifier == "+" + "1" + " (" + "555" + ") " + "010" + "-" + "0000"
    ensures SitterSync(session, fromN, toN, sitter, env) == Sync([], false)
  {
    CleanNumberExample();
    CleanNumberOfDigits("15550100000");
  }

  /** Normalising twice is normalising once, and a number with its "+"
      already in place is left alone. */
  lemma NormaliseIsIdempotent(s: string)
    ensures EnsurePlus(EnsurePlus(s)) == EnsurePlus(s)
    ensures s != [] && s[0] == '+' ==> EnsurePlus(s) == s
  {
    if s != [] && s[0] == '+' {
      assert s[..1] == "+";
    }
  }
}
