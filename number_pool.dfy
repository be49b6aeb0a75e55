/** The number pool: picking the next available number, assigning it to a
    sitter and moving an old number back to standby. */
module NumberPool {
  import opened Wrappers
  import opened Values
  import opened PyStr
  import opened AirtableClient

  /** The head of the available list, when there is one (`numbers[0]`). */
  function Head(numbers: seq<Record>): (r: Option<Record>)
    ensures r.None? <==> numbers == []
    ensures r.Some? ==> r.value == numbers[0]
  {
    if numbers == [] then None else Some(numbers[0])
  }

  /** The number `get_next_available_number` hands out for a given inventory. */
  function NextAvailable(inventory: seq<Record>): Option<Record> {
    Head(Available(inventory))
  }

  /** The number handed out is the first available record in store order: it
      has a phone number and no assigned sitter; there is none exactly when
      no record is available. */
  lemma NextAvailableIsFirst(inventory: seq<Record>)
    ensures NextAvailable(inventory) == First(inventory, IsAvailable)
    ensures NextAvailable(inventory).Some? ==>
      NextAvailable(inventory).value in inventory && IsAvailable(NextAvailable(inventory).value)
    ensures NextAvailable(inventory).None? <==> forall i :: 0 <= i < |inventory| ==> !IsAvailable(inventory[i])
  {
    AvailableHead(inventory);
  }

  /** `get_next_available_number()`: the first available number, `None` when
      the pool is empty; a failed inventory read raises. */
  method GetNextAvailableNumber(base: Base, listOk: bool) returns (r: Result<Option<Record>, Failure>)
    ensures !listOk ==> r == Err(StoreError)
    ensures listOk ==> r == Ok(NextAvailable(base.inventory))
    ensures r.Ok? && r.value.Some? ==> r.value.value in base.inventory && IsAvailable(r.value.value)
  {
    var numbers := base.GetAvailableNumbers(listOk);
    if numbers.Err? {
      return Err(numbers.error);
    }
    if numbers.value == [] {
      return Ok(None);
    }
    return Ok(Some(numbers.value[0]));
  }

  /** `assign_number_to_sitter(sitter_id, number_record_id, raise_on_error)`:
      true exactly when `reserve_number` completes; on failure false, or the
      exception again when `raise_on_error` is set. */
  method AssignNumberToSitter(base: Base, sitterId: string, numberRecordId: string, raiseOnError: bool, ok: bool)
    returns (r: Call<bool>)
    requires base.Valid()
    modifies base`inventory
    ensures base.Valid()
    ensures var done := Strip(sitterId) != [] && ok && HasId(old(base.inventory), numberRecordId);
      && (done ==> r == Returned(true)
                   && base.inventory == Patch(old(base.inventory), numberRecordId, Reservation(Strip(sitterId))))
      && (!done ==> r == (if raiseOnError then Raised else Returned(false))
                    && base.inventory == old(base.inventory))
  {
    var o := base.ReserveNumber(numberRecordId, sitterId, ok);
    if o.Pass? {
      return Returned(true);
    }
    if raiseOnError {
      return Raised;
    }
    return Returned(false);
  }

  /** `move_old_number_to_standby(number_record_id)`: true exactly when
      `release_number` completes; it never raises. */
  method MoveOldNumberToStandby(base: Base, numberRecordId: string, ok: bool) returns (released: bool)
    requires base.Valid()
    modifies base`inventory
    ensures base.Valid()
    ensures released == (ok && HasId(old(base.inventory), numberRecordId))
    ensures base.inventory == if released then Patch(old(base.inventory), numberRecordId, Release())
                              else old(base.inventory)
  {
    var o := base.ReleaseNumber(numberRecordId, ok);
    released := o.Pass?;
  }

  /** After a successful assignment the number has left the available list,
      and every other available number is still there. */
  lemma AssignedLeavesPool(inventory: seq<Record>, numberRecordId: string, sitterId: string)
    requires DistinctIds(inventory) && Strip(sitterId) != []
    ensures var after := Patch(inventory, numberRecordId, Reservation(Strip(sitterId)));
      && (forall r :: r in Available(after) ==> r.id != numberRecordId)
      && (forall r :: r in Available(inventory) && r.id != numberRecordId ==> r in Available(after))
  {
    var after := Patch(inventory, numberRecordId, Reservation(Strip(sitterId)));
    forall r | r in Available(after)
      ensures r.id != numberRecordId
    {
      var i :| 0 <= i < |after| && after[i] == r;
      if r.id == numberRecordId {
        ReservedIsTaken(inventory, numberRecordId, Strip(sitterId), i);
      }
    }
    forall r | r in Available(inventory) && r.id != numberRecordId
      ensures r in Available(after)
    {
      var i :| 0 <= i < |inventory| && inventory[i] == r;
      assert after[i] == r;
    }
  }
}
