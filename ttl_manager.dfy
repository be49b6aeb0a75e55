/** Time-to-live of client sessions: a client inactive for more than 14 days
    has their proxy session closed. */
module TtlManager {
  import opened Wrappers
  import opened Values
  import opened AirtableClient
  import opened TwilioProxy

  const TtlDays := 14
  const SecondsPerDay := 86400
  /** `timedelta(days=TTL_DAYS)`, in seconds. */
  const TtlSeconds := TtlDays * SecondsPerDay

  const ExpiryEvent := "TTL_EXPIRY"

  function LastActive(client: Record): Value {
    Get(client.fields, "Last Active")
  }

  function SessionOf(client: Record): Value {
    Get(client.fields, "Session SID")
  }

  /** `is_ttl_expired(client_record)`. "Now" is aware, so only an aware Last
      Active can be compared: subtracting a naive one raises, and that, like
      a failed parse, reads as "not expired". */
  function IsTtlExpired(client: Record, now: int): (expired: bool)
    ensures expired <==>
      && Truthy(LastActive(client))
      && ParseOf(LastActive(client)).Aware?
      && now - ParseOf(LastActive(client)).secs > TtlSeconds
  {
    var v := LastActive(client);
    if !Truthy(v) then false
    else match ParseOf(v)
      case Aware(secs) => now - secs > TtlSeconds
      case Naive(_) => false
      case Unparseable => false
  }

  /** Exactly fourteen days of inactivity is not yet expired; one second
      more is. */
  lemma ExpiryIsStrict(id: string, f: Fields, raw: string, now: int)
    requires raw != []
    ensures !IsTtlExpired(Record(id, f["Last Active" := Stamp(Timestamp(raw, Aware(now - TtlSeconds)))]), now)
    ensures IsTtlExpired(Record(id, f["Last Active" := Stamp(Timestamp(raw, Aware(now - TtlSeconds - 1)))]), now)
  {
  }

  /** Once expired, a client stays expired as time passes. */
  lemma ExpiryIsMonotone(client: Record, now: int, later: int)
    requires now <= later && IsTtlExpired(client, now)
    ensures IsTtlExpired(client, later)
  {
  }

  /** The Last Active that `update_client_session` writes is naive, so a
      client just touched by the service is never expired, however much
      time passes afterwards. */
  lemma TouchedNeverExpires(client: Record, session: Value, touched: Instant, later: int)
    ensures !IsTtlExpired(Record(client.id, client.fields + map["Session SID" := session, "Last Active" := NowStamp(touched)]), later)
  {
    var after := Record(client.id, client.fields + map["Session SID" := session, "Last Active" := NowStamp(touched)]);
    assert LastActive(after) == NowStamp(touched);
  }

  /** `update_last_active(client_id, session_sid)`: the store update, whose
      failure is only logged. */
  method UpdateLastActive(base: Base, clientId: string, session: Value, now: Instant, ok: bool)
    requires base.Valid()
    modifies base`clients
    ensures base.Valid()
    ensures base.clients ==
      if ok && HasId(old(base.clients), clientId)
      then Patch(old(base.clients), clientId, map["Session SID" := session, "Last Active" := NowStamp(now)])
      else old(base.clients)
  {
    var o := base.UpdateClientSession(clientId, session, now, ok);
  }

  /** The requests `handle_ttl_expiry` sends: a close of the client's
      session, when there is one. */
  function ExpiryRequests(client: Record): (rs: seq<ProxyRequest>)
    ensures |rs| <= 1
    ensures rs != [] <==> Truthy(SessionOf(client))
    ensures forall r :: r in rs ==> r == Close(SessionOf(client))
  {
    if Truthy(SessionOf(client)) then [Close(SessionOf(client))] else []
  }

  /** `handle_ttl_expiry(client_record)`: close the session if there is one
      (a failure is only logged), then record one TTL_EXPIRY event; a failed
      audit write raises (`raised`). */
  method HandleTtlExpiry(base: Base, proxy: Proxy, client: Record, closeOk: bool, logOk: bool)
    returns (raised: bool)
    modifies base`audit, proxy`requests
    ensures proxy.requests == old(proxy.requests) + ExpiryRequests(client)
    ensures base.audit == old(base.audit) + (if logOk then [Event(ExpiryEvent, client.id)] else [])
    ensures raised == !logOk
  {
    var session := SessionOf(client);
    if Truthy(session) {
      var o := proxy.CloseSession(session, closeOk);
    }
    var logged := base.LogEvent(ExpiryEvent, client.id, logOk);
    raised := logged.Fail?;
  }
}
