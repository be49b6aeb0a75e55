/** The automated deallocation check: every assigned client inactive for
    more than 14 days gets their pool number released. */
module DeallocateWorker {
  import opened Wrappers
  import opened Values
  import opened AirtableClient

  /** `timedelta(days=14)`, in seconds. */
  const ExpirationSeconds := 14 * 86400

  const DeallocatedEvent := "NUMBER_DEALLOCATED"

  /** The collaborators the check calls; none of them is part of this model.
      `findInventory` is `find_inventory_record_by_number` (its argument is
      the client's "twilio-number" field); `deallocate` is
      `deallocate_client(client_id, inventory_id)`; `logOk(client_id)` is
      whether the NUMBER_DEALLOCATED audit write for that client succeeds. */
  datatype Collaborators = Collaborators(
    findInventory: Value -> Call<Option<Record>>,
    deallocate: (string, string) -> Call<bool>,
    logOk: string -> bool)

  /** A `deallocate_client` call: the client and inventory record ids. */
  datatype Deallocation = Deallocation(clientId: string, inventoryId: string)

  /** What one client contributes: the deallocation requested, if any,
      whether it succeeded, and whether its audit row was then written (a
      failed write raises, and the client is skipped uncounted). */
  datatype Visit = Visit(call: Option<Deallocation>, released: bool, logged: bool)

  /** What a pass over the clients produces: the deallocations requested and
      the audit events recorded, in client order. */
  datatype Report = Report(calls: seq<Deallocation>, events: seq<Event>)

  function LastActive(client: Record): Value {
    Get(client.fields, "Last Active")
  }

  /** `now - last_active_dt`, with a naive timestamp read as UTC; `None` when
      the timestamp does not parse (the exception skips the client). */
  function Age(v: Value, now: int): (age: Option<int>)
    ensures age.Some? <==> !ParseOf(v).Unparseable?
    ensures age.Some? ==> age.value == now - ParseOf(v).secs
  {
    match ParseOf(v)
    case Aware(secs) => Some(now - secs)
    case Naive(secs) => Some(now - secs)
    case Unparseable => None
  }

  /** A client whose number is due for release: a Last Active that parses
      and lies strictly more than 14 days back. */
  predicate Expired(client: Record, now: int) {
    var v := LastActive(client);
    Truthy(v) && Age(v, now).Some? && Age(v, now).value > ExpirationSeconds
  }

  /** The body of the loop for one client. */
  function VisitClient(client: Record, now: int, env: Collaborators): (v: Visit)
    ensures v.logged ==> v.released
    ensures v.released ==> v.call.Some?
    ensures v.call.Some? ==> Expired(client, now) && v.call.value.clientId == client.id
  {
    if !Expired(client, now) then Visit(None, false, false)
    else match env.findInventory(Get(client.fields, "twilio-number"))
      case Raised => Visit(None, false, false)
      case Returned(None) => Visit(None, false, false)
      case Returned(Some(inv)) =>
        var call := Deallocation(client.id, inv.id);
        match env.deallocate(client.id, inv.id)
        case Raised => Visit(Some(call), false, false)
        case Returned(ok) => Visit(Some(call), ok, ok && env.logOk(client.id))
  }

  function Add(r: Report, client: Record, v: Visit): Report {
    Report(r.calls + (if v.call.Some? then [v.call.value] else []),
           r.events + (if v.logged then [Event(DeallocatedEvent, client.id)] else []))
  }

  /** The pass over `clients`, in order. */
  function Sweep(clients: seq<Record>, now: int, env: Collaborators): (r: Report)
    ensures |r.events| <= |r.calls| <= |clients|
  {
    if clients == [] then Report([], [])
    else
      var last := clients[|clients| - 1];
      Add(Sweep(clients[..|clients| - 1], now, env), last, VisitClient(last, now, env))
  }

  /** `check_and_deallocate()`. A failure to list the clients raises out of
      the check; an empty list ends it at once. Returns the deallocations
      requested and `deallocated_count`. */
  method CheckAndDeallocate(base: Base, clients: Call<seq<Record>>, now: int, env: Collaborators)
    returns (raised: bool, calls: seq<Deallocation>, count: nat)
    modifies base`audit
    ensures raised <==> clients.Raised?
    ensures raised || clients.value == [] ==> calls == [] && count == 0 && base.audit == old(base.audit)
    ensures !raised ==>
      var r := Sweep(clients.value, now, env);
      calls == r.calls && count == |r.events| && base.audit == old(base.audit) + r.events
  {
    if clients.Raised? {
      return true, [], 0;
    }
    var all := clients.value;
    if all == [] {
      return false, [], 0;
    }
    raised, calls, count := false, [], 0;
    ghost var audit0 := base.audit;
    ghost var report := Report([], []);
    var i := 0;
    while i < |all|
      invariant 0 <= i <= |all|
      invariant report == Sweep(all[..i], now, env)
      invariant calls == report.calls && count == |report.events|
      invariant base.audit == audit0 + report.events
    {
      var client := all[i];
      assert all[..i + 1][..i] == all[..i];
      var visit := CheckClient(base, client, now, env);
      if visit.call.Some? {
        calls := calls + [visit.call.value];
      }
      if visit.logged {
        count := count + 1;
      }
      report := Add(report, client, visit);
      i := i + 1;
    }
    assert all[..i] == all;
  }

  /** The body of the loop in `check_and_deallocate` for one client: an
      exception inside it is caught and skips the client. */
  method CheckClient(base: Base, client: Record, now: int, env: Collaborators) returns (visit: Visit)
    modifies base`audit
    ensures visit == VisitClient(client, now, env)
    ensures base.audit == old(base.audit) + (if visit.logged then [Event(DeallocatedEvent, client.id)] else [])
  {
    var v := LastActive(client);
    if !Truthy(v) {
      return Visit(None, false, false);
    }
    var age := Age(v, now);
    if age.None? || age.value <= ExpirationSeconds {
      return Visit(None, false, false);
    }
    var found := env.findInventory(Get(client.fields, "twilio-number"));
    if !(found.Returned? && found.value.Some?) {
      return Visit(None, false, false);
    }
    var call := Deallocation(client.id, found.value.value.id);
    var done := env.deallocate(client.id, call.inventoryId);
    if done == Returned(true) {
      var logged := base.LogEvent(DeallocatedEvent, client.id, env.logOk(client.id));
      return Visit(Some(call), true, logged.Pass?);
    }
    return Visit(Some(call), false, false);
  }

  /** Clients are handled independently: the pass over two lists is the
      pass over the first followed by the pass over the second. */
  lemma {:induction false} SweepSplit(a: seq<Record>, b: seq<Record>, now: int, env: Collaborators)
    ensures Sweep(a + b, now, env).calls == Sweep(a, now, env).calls + Sweep(b, now, env).calls
    ensures Sweep(a + b, now, env).events == Sweep(a, now, env).events + Sweep(b, now, env).events
    decreases |b|
  {
    if b == [] {
      assert a + b == a;
    } else {
      var last := b[|b| - 1];
      assert (a + b)[..|a + b| - 1] == a + b[..|b| - 1];
      SweepSplit(a, b[..|b| - 1], now, env);
    }
  }

  /** A client that makes a collaborator raise contributes nothing and does
      not stop the clients after it. */
  lemma FailingClientIsSkipped(a: seq<Record>, client: Record, b: seq<Record>, now: int, env: Collaborators)
    requires env.findInventory(Get(client.fields, "twilio-number")).Raised?
    ensures Sweep(a + [client] + b, now, env).calls == Sweep(a, now, env).calls + Sweep(b, now, env).calls
    ensures Sweep(a + [client] + b, now, env).events == Sweep(a, now, env).events + Sweep(b, now, env).events
  {
    var one := Sweep([client], now, env);
    assert one.calls == [] && one.events == [] by {
      assert [client][..0] == [];
      assert VisitClient(client, now, env) == Visit(None, false, false);
    }
    SweepSplit(a, [client], now, env);
    SweepSplit(a + [client], b, now, env);
    assert Sweep(a + [client], now, env).calls == Sweep(a, now, env).calls;
    assert Sweep(a + [client], now, env).events == Sweep(a, now, env).events;
  }

  /** A client without a Last Active is never deallocated, whatever its age. */
  lemma UndatedIsSkipped(client: Record, now: int, env: Collaborators)
    requires !Truthy(LastActive(client))
    ensures VisitClient(client, now, env) == Visit(None, false, false)
  {
  }

  /** The threshold is strict, and a naive timestamp counts as UTC. */
  lemma ThresholdIsStrict(client: Record, now: int)
    requires Truthy(LastActive(client)) && !ParseOf(LastActive(client)).Unparseable?
    ensures Expired(client, now) <==> now - ParseOf(LastActive(client)).secs > 14 * 86400
  {
  }

  /** A client is released exactly when it has expired, its number's
      inventory record is found and `deallocate_client` reports success; it
      is recorded and counted when the audit write then succeeds as well. */
  lemma ReleasedIff(client: Record, now: int, env: Collaborators)
    ensures var v := VisitClient(client, now, env);
      var found := env.findInventory(Get(client.fields, "twilio-number"));
      && (v.released <==>
            Expired(client, now) && found.Returned? && found.value.Some?
            && env.deallocate(client.id, found.value.value.id) == Returned(true))
      && (v.call.Some? <==> Expired(client, now) && found.Returned? && found.value.Some?)
      && (v.call.Some? ==> v.call.value == Deallocation(client.id, found.value.value.id))
      && (v.logged <==> v.released && env.logOk(client.id))
  {
  }

  /** The scenario of the deallocation test: one client 15 days idle whose
      number is found, one 5 days idle, one without a date. Only the first
      is deallocated, with its inventory record, and one event is
      recorded. */
  lemma ThreeClientScenario(expired: Record, active: Record, undated: Record, now: int, env: Collaborators, invId: string)
    requires LastActive(expired).Stamp? && LastActive(expired).t.raw != []
    requires LastActive(expired).t.parsed == Aware(now - 15 * 86400)
    requires LastActive(active).Stamp? && LastActive(active).t.raw != []
    requires LastActive(active).t.parsed == Aware(now - 5 * 86400)
    requires "Last Active" !in undated.fields
    requires env.findInventory(Get(expired.fields, "twilio-number")) == Returned(Some(Record(invId, map[])))
    requires env.deallocate(expired.id, invId) == Returned(true) && env.logOk(expired.id)
    ensures Sweep([expired, active, undated], now, env)
         == Report([Deallocation(expired.id, invId)], [Event(DeallocatedEvent, expired.id)])
  {
    var cs := [expired, active, undated];
    assert Expired(expired, now);
    assert VisitClient(expired, now, env) == Visit(Some(Deallocation(expired.id, invId)), true, true);
    assert !Expired(active, now);
    assert VisitClient(undated, now, env) == Visit(None, false, false);
    assert cs[..2] == [expired, active];
    assert cs[..2][..1] == [expired];
    assert cs[..2][..1][..0] == [];
    assert Sweep([expired], now, env) == Report([Deallocation(expired.id, invId)], [Event(DeallocatedEvent, expired.id)]);
  }
}
