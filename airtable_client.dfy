/** The data-access layer over the Airtable base: phone-number normalisation
    for lookups, the lookups themselves, and the record updates the number
    pool and the routers rely on. */
module AirtableClient {
  import opened Wrappers
  import opened Values
  import opened PyStr

  /** The exceptions the data-access layer raises: the `ValueError` of
      `reserve_number`, and any failure of a store call. */
  datatype Failure = ValueError | StoreError

  // ----------------------------------------------------------------------
  // Phone-number normalisation
  // ----------------------------------------------------------------------

  /** `"".join(filter(str.isdigit, s))` */
  function CleanNumber(s: string): (d: string)
    ensures |d| <= |s|
    ensures forall i :: 0 <= i < |d| ==> IsDigit(d[i])
  {
    if s == [] then []
    else (if IsDigit(s[0]) then [s[0]] else []) + CleanNumber(s[1..])
  }

  /** Cleaning works character by character and keeps the order of the
      digits: the digits of `a + b` are those of `a` followed by those of `b`. */
  lemma {:induction false} CleanNumberConcat(a: string, b: string)
    ensures CleanNumber(a + b) == CleanNumber(a) + CleanNumber(b)
  {
    if a == [] {
      assert a + b == b;
    } else {
      assert (a + b)[1..] == a[1..] + b;
      CleanNumberConcat(a[1..], b);
    }
  }

  /** A single character survives cleaning exactly when it is a digit; with
      CleanNumberConcat this says the cleaned number is the input with every
      non-digit dropped. */
  lemma CleanNumberOfChar(c: char)
    ensures CleanNumber([c]) == if IsDigit(c) then [c] else []
  {
    assert [c][1..] == [];
  }

  /** "+1 (555) 010-0000" cleans to "15550100000". */
  lemma CleanNumberExample()
    ensures CleanNumber("+" + "1" + " (" + "555" + ") " + "010" + "-" + "0000") == "15550100000"
  {
    CleanNumberOfChar('+');
    CleanNumberOfChar('-');
    CleanNumberOfChar(' ');
    CleanNumberOfChar('(');
    CleanNumberOfChar(')');
    CleanNumberConcat(" ", "(");
    CleanNumberConcat(")", " ");
    CleanNumberOfDigits("1");
    CleanNumberOfDigits("555");
    CleanNumberOfDigits("010");
    CleanNumberOfDigits("0000");
    CleanNumberConcat("+", "1");
    CleanNumberConcat("+" + "1", " (");
    CleanNumberConcat("+" + "1" + " (", "555");
    CleanNumberConcat("+" + "1" + " (" + "555", ") ");
    CleanNumberConcat("+" + "1" + " (" + "555" + ") ", "010");
    CleanNumberConcat("+" + "1" + " (" + "555" + ") " + "010", "-");
    CleanNumberConcat("+" + "1" + " (" + "555" + ") " + "010" + "-", "0000");
  }

  /** A string of digits is left as it is: cleaning is idempotent. */
  lemma {:induction false} CleanNumberOfDigits(s: string)
    requires forall i :: 0 <= i < |s| ==> IsDigit(s[i])
    ensures CleanNumber(s) == s
  {
    if s != [] {
      CleanNumberOfDigits(s[1..]);
    }
  }

  /** `clean[-10:] if len(clean) >= 10 else clean` */
  function TenDigitKey(s: string): (k: string)
    ensures |k| <= 10
    ensures |k| == if |CleanNumber(s)| >= 10 then 10 else |CleanNumber(s)|
    ensures k == CleanNumber(s)[|CleanNumber(s)| - |k|..]
  {
    var d := CleanNumber(s);
    if |d| >= 10 then d[|d| - 10..] else d
  }

  /** A leading country code and any punctuation do not change the key:
      "+1 (555) 000-0111" and "5550000111" look up the same records. */
  lemma TenDigitKeyDropsPrefix(prefix: string, number: string)
    requires |CleanNumber(number)| >= 10
    ensures TenDigitKey(prefix + number) == TenDigitKey(number)
  {
    CleanNumberConcat(prefix, number);
    var d := CleanNumber(number);
    var e := CleanNumber(prefix) + d;
    assert e[|e| - 10..] == d[|d| - 10..];
  }

  // ----------------------------------------------------------------------
  // Lookups. The Airtable formulas are modelled as predicates on a record:
  // SEARCH as substring search in a text field, `=` as equality, FIND on a
  // linked-record field as substring search in its ids joined by ", ".
  // ----------------------------------------------------------------------

  /** The text a formula sees in a field: "" for a blank or non-text field. */
  function FieldText(f: Fields, k: string): string {
    match Get(f, k)
    case Str(s) => s
    case _ => ""
  }

  predicate SitterMatches(r: Record, number: string) {
    var key := TenDigitKey(number);
    || Contains(FieldText(r.fields, "Twilio Number"), key)
    || Contains(FieldText(r.fields, "Phone Number"), key)
    || FieldText(r.fields, "Twilio Number") == number
    || FieldText(r.fields, "Phone Number") == number
  }

  predicate ClientMatches(r: Record, number: string) {
    || Contains(FieldText(r.fields, "Phone Number"), TenDigitKey(number))
    || FieldText(r.fields, "Phone Number") == number
  }

  /** `find_sitter_by_twilio_number(number)`: the first sitter whose Twilio or
      Phone Number matches; `None` for an empty number (no query) and when the
      query fails. */
  function FindSitterByTwilioNumber(sitters: seq<Record>, number: string, storeOk: bool): (r: Option<Record>)
    ensures number == [] || !storeOk ==> r.None?
    ensures r.Some? ==> r.value in sitters && SitterMatches(r.value, number)
    ensures number != [] && storeOk && r.None? ==> forall i :: 0 <= i < |sitters| ==> !SitterMatches(sitters[i], number)
  {
    if number == [] || !storeOk then None
    else First(sitters, (s: Record) => SitterMatches(s, number))
  }

  /** `find_client_by_phone(phone)`: the first client whose Phone Number
      matches; `None` for an empty number and when the query fails. */
  function FindClientByPhone(clients: seq<Record>, phone: string, storeOk: bool): (r: Option<Record>)
    ensures phone == [] || !storeOk ==> r.None?
    ensures r.Some? ==> r.value in clients && ClientMatches(r.value, phone)
    ensures phone != [] && storeOk && r.None? ==> forall i :: 0 <= i < |clients| ==> !ClientMatches(clients[i], phone)
  {
    if phone == [] || !storeOk then None
    else First(clients, (c: Record) => ClientMatches(c, phone))
  }

  // ----------------------------------------------------------------------
  // Number inventory
  // ----------------------------------------------------------------------

  /** `fields.get("PhoneNumber") or fields.get("Phone Number")` */
  function PhoneOf(f: Fields): Value {
    Or(Get(f, "PhoneNumber"), Get(f, "Phone Number"))
  }

  /** `fields.get("Assigned Sitter", [])` */
  function AssignedSitter(f: Fields): Value {
    if "Assigned Sitter" in f then f["Assigned Sitter"] else Links([])
  }

  /** An inventory record that can be handed out: it has a phone number and
      no assigned sitter. */
  predicate IsAvailable(r: Record) {
    Truthy(PhoneOf(r.fields)) && !Truthy(AssignedSitter(r.fields))
  }

  /** The available records, in store order. */
  function Available(rs: seq<Record>): (a: seq<Record>)
    ensures |a| <= |rs|
    ensures forall r :: r in a <==> r in rs && IsAvailable(r)
  {
    if rs == [] then []
    else
      assert forall r :: r in rs <==> r == rs[0] || r in rs[1..];
      (if IsAvailable(rs[0]) then [rs[0]] else []) + Available(rs[1..])
  }

  /** Filtering keeps the store order. */
  lemma {:induction false} AvailableConcat(a: seq<Record>, b: seq<Record>)
    ensures Available(a + b) == Available(a) + Available(b)
  {
    if a == [] {
      assert a + b == b;
    } else {
      assert (a + b)[1..] == a[1..] + b;
      AvailableConcat(a[1..], b);
    }
  }

  /** The head of the available list is the first available record in the
      table. */
  lemma {:induction false} AvailableHead(rs: seq<Record>)
    ensures Available(rs) == [] <==> First(rs, IsAvailable).None?
    ensures Available(rs) != [] ==> First(rs, IsAvailable) == Some(Available(rs)[0])
  {
    if rs != [] && !IsAvailable(rs[0]) {
      AvailableHead(rs[1..]);
      assert FirstIndex(rs, IsAvailable) == 1 + FirstIndex(rs[1..], IsAvailable);
    }
  }

  /** The reservation patch `{"Assigned Sitter": [sitter_id]}`. */
  function Reservation(sitterId: string): Fields {
    map["Assigned Sitter" := Links([sitterId])]
  }

  /** The release patch `{"Assigned Sitter": []}`. */
  function Release(): Fields {
    map["Assigned Sitter" := Links([])]
  }

  /** `FIND(sitter_id, {Assigned Sitter})` */
  predicate AssignedTo(r: Record, sitterId: string) {
    match AssignedSitter(r.fields)
    case Links(ids) => Contains(Join(ids, ", "), sitterId)
    case _ => Contains(FieldText(r.fields, "Assigned Sitter"), sitterId)
  }

  /** `find_number_assigned_to_sitter(sitter_id)`: `None` without a query for
      an id that is empty once trimmed; otherwise the first inventory record
      linked to the trimmed id. The query is not guarded: its failure raises. */
  function FindNumberAssignedToSitter(inventory: seq<Record>, sitterId: string, storeOk: bool): (r: Call<Option<Record>>)
    ensures Strip(sitterId) == [] ==> r == Returned(None)
    ensures Strip(sitterId) != [] && !storeOk ==> r == Raised
    ensures r.Returned? && r.value.Some? ==>
      r.value.value in inventory && AssignedTo(r.value.value, Strip(sitterId)) && Strip(sitterId) != []
    ensures Strip(sitterId) != [] && storeOk ==>
      r.Returned? && (r.value.None? <==> forall i :: 0 <= i < |inventory| ==> !AssignedTo(inventory[i], Strip(sitterId)))
  {
    var id := Strip(sitterId);
    if id == [] then Returned(None)
    else if !storeOk then Raised
    else Returned(First(inventory, (n: Record) => AssignedTo(n, id)))
  }

  /** A record found for a sitter is never an available one. */
  lemma AssignedIsNotAvailable(r: Record, sitterId: string)
    requires sitterId != [] && AssignedTo(r, sitterId)
    ensures !IsAvailable(r)
  {
  }

  // ----------------------------------------------------------------------
  // The base
  // ----------------------------------------------------------------------

  /** A row of the Messages table as `save_message` writes it. */
  datatype Message = Message(session: Value, from: string, to: string, body: Value, timestamp: Value)

  /** The Airtable base: the tables the core reads and writes. Every
      mutating call takes the outcome of the store call as a parameter
      (`ok`): the store is outside the model and may fail. */
  class Base {
    var sitters: seq<Record>
    var clients: seq<Record>
    var inventory: seq<Record>
    var messages: seq<Message>
    var audit: seq<Event>

    ghost predicate Valid()
      reads this
    {
      DistinctIds(sitters) && DistinctIds(clients) && DistinctIds(inventory)
    }

    /** `log_event(event_type, ...)`: one row appended to the Audit Log. The
        write is not guarded: a store failure raises to the caller. */
    method LogEvent(kind: string, subject: string, ok: bool) returns (o: Outcome<Failure>)
      modifies this`audit
      ensures audit == if ok then old(audit) + [Event(kind, subject)] else old(audit)
      ensures o == if ok then Pass else Fail(StoreError)
    {
      if ok {
        audit := audit + [Event(kind, subject)];
        o := Pass;
      } else {
        o := Fail(StoreError);
      }
    }

    /** `save_message(session_sid, from_number, to_number, body)` */
    method SaveMessage(session: Value, from: string, to: string, body: Value, now: Instant, ok: bool)
      returns (saved: bool)
      modifies this`messages
      ensures saved == ok
      ensures messages == if ok then old(messages) + [Message(session, from, to, body, NowStamp(now))]
                          else old(messages)
    {
      if ok {
        messages := messages + [Message(session, from, to, body, NowStamp(now))];
      }
      saved := ok;
    }

    /** `update_client_session(client_id, session_sid)`: sets the Session SID
        and resets Last Active to now. */
    method UpdateClientSession(clientId: string, session: Value, now: Instant, ok: bool)
      returns (o: Outcome<Failure>)
      requires Valid()
      modifies this`clients
      ensures Valid()
      ensures ok && HasId(old(clients), clientId) ==>
        o == Pass && clients == Patch(old(clients), clientId, map["Session SID" := session, "Last Active" := NowStamp(now)])
      ensures !(ok && HasId(old(clients), clientId)) ==> o == Fail(StoreError) && clients == old(clients)
    {
      if ok && HasId(clients, clientId) {
        PatchKeepsDistinct(clients, clientId, map["Session SID" := session, "Last Active" := NowStamp(now)]);
        clients := Patch(clients, clientId, map["Session SID" := session, "Last Active" := NowStamp(now)]);
        o := Pass;
      } else {
        o := Fail(StoreError);
      }
    }

    /** `create_or_update_client(phone_number, name, **kwargs)`. A client
        found by phone gets Name and Last Active (then the extra fields)
        and `was_created` is false; otherwise a record with Phone Number, Name
        and Created At (then the extra fields) is created under the id the
        store hands out (`newId`) and `was_created` is true. A failed lookup
        reads as "not found". */
    method CreateOrUpdateClient(phone: string, name: string, extra: Fields, now: Instant,
                                lookupOk: bool, writeOk: bool, newId: string)
      returns (r: Result<(Record, bool), Failure>)
      requires Valid() && !HasId(clients, newId)
      modifies this`clients
      ensures Valid()
      ensures !writeOk ==> r == Err(StoreError) && clients == old(clients)
      ensures writeOk ==> match FindClientByPhone(old(clients), phone, lookupOk)
        case Some(c) =>
          var f := map["Name" := Str(name), "Last Active" := NowStamp(now)] + extra;
          && r == Ok((Record(c.id, c.fields + f), false))
          && clients == Patch(old(clients), c.id, f)
        case None =>
          var f := map["Phone Number" := Str(phone), "Name" := Str(name), "Created At" := NowStamp(now)] + extra;
          && r == Ok((Record(newId, f), true))
          && clients == old(clients) + [Record(newId, f)]
    {
      var existing := FindClientByPhone(clients, phone, lookupOk);
      if !writeOk {
        return Err(StoreError);
      }
      match existing {
        case Some(c) =>
          var f := map["Name" := Str(name), "Last Active" := NowStamp(now)] + extra;
          PatchKeepsDistinct(clients, c.id, f);
          clients := Patch(clients, c.id, f);
          r := Ok((Record(c.id, c.fields + f), false));
        case None =>
          var f := map["Phone Number" := Str(phone), "Name" := Str(name), "Created At" := NowStamp(now)] + extra;
          clients := clients + [Record(newId, f)];
          r := Ok((Record(newId, f), true));
      }
    }

    /** `get_available_numbers()`: every inventory record with a phone number
        and no assigned sitter, in store order; a failed read raises. */
    method GetAvailableNumbers(listOk: bool) returns (r: Result<seq<Record>, Failure>)
      ensures !listOk ==> r == Err(StoreError)
      ensures listOk ==> r == Ok(Available(inventory))
    {
      if !listOk {
        return Err(StoreError);
      }
      var all := inventory;
      var numbers: seq<Record> := [];
      var i := 0;
      while i < |all|
        invariant 0 <= i <= |all|
        invariant numbers == Available(all[..i])
      {
        var record := all[i];
        var phone := PhoneOf(record.fields);
        var assignedTo := AssignedSitter(record.fields);
        assert all[..i + 1] == all[..i] + [record];
        AvailableConcat(all[..i], [record]);
        assert [record][1..] == [];
        assert Available([record]) == if IsAvailable(record) then [record] else [];
        if Truthy(phone) && !Truthy(assignedTo) {
          numbers := numbers + [record];
        }
        i := i + 1;
      }
      assert all[..i] == all;
      return Ok(numbers);
    }

    /** `reserve_number(record_id, sitter_id)`: links the record to the
        trimmed sitter id and touches no other field; an id that is empty once
        trimmed raises ValueError before any update. */
    method ReserveNumber(recordId: string, sitterId: string, ok: bool) returns (o: Outcome<Failure>)
      requires Valid()
      modifies this`inventory
      ensures Valid()
      ensures Strip(sitterId) == [] ==> o == Fail(ValueError) && inventory == old(inventory)
      ensures Strip(sitterId) != [] && ok && HasId(old(inventory), recordId) ==>
        o == Pass && inventory == Patch(old(inventory), recordId, Reservation(Strip(sitterId)))
      ensures Strip(sitterId) != [] && !(ok && HasId(old(inventory), recordId)) ==>
        o == Fail(StoreError) && inventory == old(inventory)
    {
      var id := Strip(sitterId);
      if id == [] {
        return Fail(ValueError);
      }
      if !(ok && HasId(inventory, recordId)) {
        return Fail(StoreError);
      }
      PatchKeepsDistinct(inventory, recordId, Reservation(id));
      inventory := Patch(inventory, recordId, Reservation(id));
      o := Pass;
    }

    /** `release_number(record_id)`: clears Assigned Sitter and touches no
        other field. */
    method ReleaseNumber(recordId: string, ok: bool) returns (o: Outcome<Failure>)
      requires Valid()
      modifies this`inventory
      ensures Valid()
      ensures ok && HasId(old(inventory), recordId) ==>
        o == Pass && inventory == Patch(old(inventory), recordId, Release())
      ensures !(ok && HasId(old(inventory), recordId)) ==>
        o == Fail(StoreError) && inventory == old(inventory)
    {
      if !(ok && HasId(inventory, recordId)) {
        return Fail(StoreError);
      }
      PatchKeepsDistinct(inventory, recordId, Release());
      inventory := Patch(inventory, recordId, Release());
      o := Pass;
    }
  }

  /** A reserved record is no longer available, and only its Assigned Sitter
      field changed. */
  lemma ReservedIsTaken(rs: seq<Record>, recordId: string, sitterId: string, i: nat)
    requires sitterId != [] && i < |rs| && rs[i].id == recordId
    ensures var after := Patch(rs, recordId, Reservation(sitterId))[i];
      && !IsAvailable(after)
      && AssignedTo(after, sitterId)
      && (forall k :: k in rs[i].fields && k != "Assigned Sitter" ==> k in after.fields && after.fields[k] == rs[i].fields[k])
  {
    var after := Patch(rs, recordId, Reservation(sitterId))[i];
    assert AssignedSitter(after.fields) == Links([sitterId]);
    assert Join([sitterId], ", ") == sitterId;
    assert StartsWith(sitterId, sitterId);
  }

  /** A released record with a phone number is available again, and only its
      Assigned Sitter field changed. */
  lemma ReleasedIsFree(rs: seq<Record>, recordId: string, i: nat)
    requires i < |rs| && rs[i].id == recordId
    requires Truthy(PhoneOf(rs[i].fields))
    ensures var after := Patch(rs, recordId, Release())[i];
      && IsAvailable(after)
      && (forall k :: k in rs[i].fields && k != "Assigned Sitter" ==> k in after.fields && after.fields[k] == rs[i].fields[k])
  {
    var after := Patch(rs, recordId, Release())[i];
    assert Get(after.fields, "PhoneNumber") == Get(rs[i].fields, "PhoneNumber");
    assert Get(after.fields, "Phone Number") == Get(rs[i].fields, "Phone Number");
  }
}
