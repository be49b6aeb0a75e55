/** The `/attach-number` endpoint: rotate a sitter onto a fresh number from
    the pool and release the number they held. */
module NumbersRouter {
  import opened Wrappers
  import opened Values
  import opened PyStr
  import opened AirtableClient
  import opened NumberPool

  datatype AttachError =
    | MissingSitterId      // 422: no sitter_id in the body or the query
    | NoAvailableNumber    // 500: the pool is empty
    | PhoneFieldMissing    // 500: the picked record has no phone number
    | AssignFailed         // 500: "Failed to assign number"
    | Unhandled            // 500: a store call raised out of the endpoint

  datatype AttachResponse =
    | Attached(newNumber: Value)   // {"status": "success", "new_number": ...}
    | Rejected(status: int, reason: AttachError)

  /** Outcomes of the store calls the endpoint makes, in the order it makes
      them: read the inventory, look up the old number, reserve the new one,
      release the old one, write the audit row. */
  datatype StoreCalls = StoreCalls(listOk: bool, lookupOk: bool, reserveOk: bool, releaseOk: bool, logOk: bool)

  /** What a request does: the response, the inventory afterwards and the
      audit events it records. */
  datatype Rotation = Rotation(response: AttachResponse, inventory: seq<Record>, events: seq<Event>)

  const RotationEvent := "NUMBER_ROTATION"

  /** The sitter id of the request: a non-empty body value first, then a
      non-empty query value. */
  function RequestedSitterId(body: Option<string>, query: Option<string>): (r: Option<string>)
    ensures r.Some? ==> r.value != []
    ensures body.Some? && body.value != [] ==> r == body
    ensures (body.None? || body.value == []) ==> r == (if query.Some? && query.value != [] then query else None)
  {
    if body.Some? && body.value != [] then body
    else if query.Some? && query.value != [] then query
    else None
  }

  /** Steps 3 to 5 once the new record `n` and the sitter's current record
      are known: reserve `n`, release the old record, record the rotation. A
      failed audit write raises after the inventory changes are made. */
  function Rotate(inv: seq<Record>, sitterId: string, n: Record, previous: Option<Record>, calls: StoreCalls): Rotation {
    if !(Strip(sitterId) != [] && calls.reserveOk && HasId(inv, n.id)) then
      Rotation(Rejected(500, AssignFailed), inv, [])
    else
      var reserved := Patch(inv, n.id, Reservation(Strip(sitterId)));
      var released :=
        if previous.Some? && calls.releaseOk && HasId(reserved, previous.value.id)
        then Patch(reserved, previous.value.id, Release())
        else reserved;
      if !calls.logOk then Rotation(Rejected(500, Unhandled), released, [])
      else Rotation(Attached(PhoneOf(n.fields)), released, [Event(RotationEvent, sitterId)])
  }

  /** The rotation as a function of the inventory before the request. */
  function Attach(inv: seq<Record>, body: Option<string>, query: Option<string>, calls: StoreCalls): Rotation {
    match RequestedSitterId(body, query)
    case None => Rotation(Rejected(422, MissingSitterId), inv, [])
    case Some(sitterId) =>
      if !calls.listOk then Rotation(Rejected(500, Unhandled), inv, [])
      else match NextAvailable(inv)
        case None => Rotation(Rejected(500, NoAvailableNumber), inv, [])
        case Some(n) =>
          if !Truthy(PhoneOf(n.fields)) then Rotation(Rejected(500, PhoneFieldMissing), inv, [])
          else match FindNumberAssignedToSitter(inv, sitterId, calls.lookupOk)
            case Raised => Rotation(Rejected(500, Unhandled), inv, [])
            case Returned(previous) => Rotate(inv, sitterId, n, previous, calls)
  }

  /** `attach_number(request, sitter_id)` */
  method AttachNumber(base: Base, body: Option<string>, query: Option<string>, calls: StoreCalls)
    returns (resp: AttachResponse)
    requires base.Valid()
    modifies base`inventory, base`audit
    ensures base.Valid()
    ensures var spec := Attach(old(base.inventory), body, query, calls);
      && resp == spec.response
      && base.inventory == spec.inventory
      && base.audit == old(base.audit) + spec.events
  {
    ghost var inv0 := base.inventory;
    var sitterId: string;
    if body.Some? && body.value != [] {
      sitterId := body.value;
    } else if query.Some? && query.value != [] {
      sitterId := query.value;
    } else {
      return Rejected(422, MissingSitterId);
    }
    assert RequestedSitterId(body, query) == Some(sitterId);

    // 1. the next available number
    var picked := GetNextAvailableNumber(base, calls.listOk);
    if picked.Err? {
      return Rejected(500, Unhandled);
    }
    if picked.value.None? {
      return Rejected(500, NoAvailableNumber);
    }
    var newRecord := picked.value.value;
    assert NextAvailable(inv0) == Some(newRecord);
    var newNumber := PhoneOf(newRecord.fields);
    if !Truthy(newNumber) {
      return Rejected(500, PhoneFieldMissing);
    }

    // 2. the number the sitter holds now
    var oldRecord := FindNumberAssignedToSitter(base.inventory, sitterId, calls.lookupOk);
    if oldRecord.Raised? {
      return Rejected(500, Unhandled);
    }
    assert Attach(inv0, body, query, calls) == Rotate(inv0, sitterId, newRecord, oldRecord.value, calls);
    resp := RotateNumbers(base, sitterId, newRecord, oldRecord.value, calls);
  }

  /** Steps 3 to 5 of `attach_number`: assign the new number, release the
      old one, log the rotation. */
  method RotateNumbers(base: Base, sitterId: string, newRecord: Record, oldRecord: Option<Record>, calls: StoreCalls)
    returns (resp: AttachResponse)
    requires base.Valid()
    modifies base`inventory, base`audit
    ensures base.Valid()
    ensures var spec := Rotate(old(base.inventory), sitterId, newRecord, oldRecord, calls);
      && resp == spec.response
      && base.inventory == spec.inventory
      && base.audit == old(base.audit) + spec.events
  {
    ghost var inv0 := base.inventory;
    // 3. assign the new number
    var done := AssignNumberToSitter(base, sitterId, newRecord.id, false, calls.reserveOk);
    if done != Returned(true) {
      return Rejected(500, AssignFailed);
    }
    assert base.inventory == Patch(inv0, newRecord.id, Reservation(Strip(sitterId)));

    // 4. release the old number; a failure is only logged
    if oldRecord.Some? {
      var released := MoveOldNumberToStandby(base, oldRecord.value.id, calls.releaseOk);
    }
    assert base.inventory == Rotate(inv0, sitterId, newRecord, oldRecord, calls).inventory;
    assert base.audit == old(base.audit);

    // 5. record the rotation
    var logged := base.LogEvent(RotationEvent, sitterId, calls.logOk);
    if logged.Fail? {
      return Rejected(500, Unhandled);
    }
    return Attached(PhoneOf(newRecord.fields));
  }

  /** No failure records an event. Every failure leaves the inventory as it
      was, except a failed audit write, which comes after the rotation is
      made (AuditFailureAfterCommit). */
  lemma AttachFailureChangesNothing(inv: seq<Record>, body: Option<string>, query: Option<string>, calls: StoreCalls)
    ensures var r := Attach(inv, body, query, calls);
      && (r.response.Rejected? ==> r.events == [])
      && (r.response.Rejected? && calls.logOk ==> r.inventory == inv)
      && (r.response.Rejected? && (calls.logOk || r.response.reason != Unhandled) ==> r.inventory == inv)
      && (r.response.Rejected? && r.inventory != inv ==>
            !calls.logOk && Attach(inv, body, query, calls.(logOk := true)).response.Attached?)
  {
    match RequestedSitterId(body, query)
    case None =>
    case Some(sitterId) =>
      if calls.listOk && NextAvailable(inv).Some? && Truthy(PhoneOf(NextAvailable(inv).value.fields)) {
        var n := NextAvailable(inv).value;
        match FindNumberAssignedToSitter(inv, sitterId, calls.lookupOk)
        case Raised =>
        case Returned(previous) =>
          assert Attach(inv, body, query, calls) == Rotate(inv, sitterId, n, previous, calls);
          var ok := calls.(logOk := true);
          assert Attach(inv, body, query, ok) == Rotate(inv, sitterId, n, previous, ok);
      }
  }

  /** A failed release of the old number is only logged: the answer is the
      same as when the release succeeds. */
  lemma ReleaseFailureKeepsResponse(inv: seq<Record>, body: Option<string>, query: Option<string>, calls: StoreCalls)
    ensures Attach(inv, body, query, calls.(releaseOk := false)).response
         == Attach(inv, body, query, calls.(releaseOk := true)).response
  {
    var failing, releasing := calls.(releaseOk := false), calls.(releaseOk := true);
    match RequestedSitterId(body, query)
    case None =>
    case Some(sitterId) =>
      if calls.listOk && NextAvailable(inv).Some? && Truthy(PhoneOf(NextAvailable(inv).value.fields)) {
        var n := NextAvailable(inv).value;
        match FindNumberAssignedToSitter(inv, sitterId, calls.lookupOk)
        case Raised =>
        case Returned(previous) =>
          assert Attach(inv, body, query, failing) == Rotate(inv, sitterId, n, previous, failing);
          assert Attach(inv, body, query, releasing) == Rotate(inv, sitterId, n, previous, releasing);
      }
  }

  /** A failed audit write turns a successful rotation into a 500 and
      leaves the rotation made: the new number reserved and the old one
      released, with no event recorded. */
  lemma AuditFailureAfterCommit(inv: seq<Record>, body: Option<string>, query: Option<string>, calls: StoreCalls)
    requires Attach(inv, body, query, calls.(logOk := true)).response.Attached?
    ensures var done := Attach(inv, body, query, calls.(logOk := true));
      var failed := Attach(inv, body, query, calls.(logOk := false));
      && failed.response == Rejected(500, Unhandled)
      && failed.inventory == done.inventory
      && failed.events == []
  {
    var ok, bad := calls.(logOk := true), calls.(logOk := false);
    var sitterId := RequestedSitterId(body, query).value;
    var n := NextAvailable(inv).value;
    var previous := FindNumberAssignedToSitter(inv, sitterId, calls.lookupOk).value;
    assert Attach(inv, body, query, ok) == Rotate(inv, sitterId, n, previous, ok);
    assert Attach(inv, body, query, bad) == Rotate(inv, sitterId, n, previous, bad);
  }

  /** Success records exactly one NUMBER_ROTATION event, about the sitter
      id as the request gave it. */
  lemma AttachRecordsRotation(inv: seq<Record>, body: Option<string>, query: Option<string>, calls: StoreCalls)
    ensures var r := Attach(inv, body, query, calls);
      r.response.Attached? ==>
        && RequestedSitterId(body, query).Some?
        && r.events == [Event(RotationEvent, RequestedSitterId(body, query).value)]
  {
  }

  /** The "phone number field not found" answer never happens: the number
      picked always has one. */
  lemma NeverPhoneFieldMissing(inv: seq<Record>, body: Option<string>, query: Option<string>, calls: StoreCalls)
    ensures Attach(inv, body, query, calls).response != Rejected(500, PhoneFieldMissing)
  {
    NextAvailableIsFirst(inv);
  }

  /** With no available number the answer is 500 and nothing changes. */
  lemma EmptyPoolRejects(inv: seq<Record>, body: Option<string>, query: Option<string>, calls: StoreCalls)
    requires RequestedSitterId(body, query).Some? && calls.listOk
    requires forall i :: 0 <= i < |inv| ==> !IsAvailable(inv[i])
    ensures Attach(inv, body, query, calls) == Rotation(Rejected(500, NoAvailableNumber), inv, [])
  {
    NextAvailableIsFirst(inv);
  }

  /** A successful rotation answers with the new record's number, and that
      record is now linked to the trimmed sitter id and out of the pool. */
  lemma RotateReserves(inv: seq<Record>, sitterId: string, n: Record, previous: Option<Record>, calls: StoreCalls)
    requires Rotate(inv, sitterId, n, previous, calls).response.Attached?
    ensures var r := Rotate(inv, sitterId, n, previous, calls);
      && Strip(sitterId) != [] && calls.reserveOk
      && r.response == Attached(PhoneOf(n.fields))
      && |r.inventory| == |inv|
      && (previous.None? || previous.value.id != n.id ==>
            forall i :: 0 <= i < |inv| && inv[i].id == n.id ==>
              r.inventory[i] == Record(n.id, inv[i].fields + Reservation(Strip(sitterId))) && !IsAvailable(r.inventory[i]))
  {
    var r := Rotate(inv, sitterId, n, previous, calls);
    var reserved := Patch(inv, n.id, Reservation(Strip(sitterId)));
    if previous.None? || previous.value.id != n.id {
      forall i | 0 <= i < |inv| && inv[i].id == n.id
        ensures r.inventory[i] == Record(n.id, inv[i].fields + Reservation(Strip(sitterId))) && !IsAvailable(r.inventory[i])
      {
        assert r.inventory[i] == reserved[i];
        ReservedIsTaken(inv, n.id, Strip(sitterId), i);
      }
    }
  }

  /** The record the sitter held is never the one handed out; it is
      released when the release succeeds and stays as it was otherwise; no
      other record changes. */
  lemma RotateReleasesPrevious(inv: seq<Record>, sitterId: string, n: Record, previous: Option<Record>, calls: StoreCalls)
    requires DistinctIds(inv)
    requires n in inv && IsAvailable(n)
    requires previous.Some? ==> previous.value in inv && !IsAvailable(previous.value)
    requires Rotate(inv, sitterId, n, previous, calls).response.Attached?
    ensures var r := Rotate(inv, sitterId, n, previous, calls);
      && (previous.Some? ==> previous.value.id != n.id)
      && (forall i :: 0 <= i < |inv| && previous.Some? && inv[i].id == previous.value.id ==>
            r.inventory[i] == (if calls.releaseOk then Record(inv[i].id, inv[i].fields + Release()) else inv[i]))
      && (forall i :: 0 <= i < |inv| && inv[i].id != n.id && (previous.None? || inv[i].id != previous.value.id) ==>
            r.inventory[i] == inv[i])
  {
    if previous.Some? {
      var p := previous.value;
      var reserved := Patch(inv, n.id, Reservation(Strip(sitterId)));
      var j :| 0 <= j < |inv| && inv[j] == p;
      assert p.id != n.id;
      assert HasId(reserved, p.id) by { assert reserved[j].id == p.id; }
    }
  }

  /** A successful request rotates the sitter from the number they held
      (if any) onto the first available number, as RotateReserves and
      RotateReleasesPrevious describe. */
  lemma AttachRotates(inv: seq<Record>, body: Option<string>, query: Option<string>, calls: StoreCalls)
    requires DistinctIds(inv)
    requires Attach(inv, body, query, calls).response.Attached?
    ensures var sitterId := RequestedSitterId(body, query).value;
      var n := NextAvailable(inv).value;
      var previous := FindNumberAssignedToSitter(inv, sitterId, calls.lookupOk).value;
      && n in inv && IsAvailable(n)
      && (previous.Some? ==> previous.value in inv && !IsAvailable(previous.value))
      && Attach(inv, body, query, calls) == Rotate(inv, sitterId, n, previous, calls)
  {
    NextAvailableIsFirst(inv);
    var sitterId := RequestedSitterId(body, query).value;
    var previous := FindNumberAssignedToSitter(inv, sitterId, calls.lookupOk).value;
    if previous.Some? {
      AssignedIsNotAvailable(previous.value, Strip(sitterId));
    }
  }
}
