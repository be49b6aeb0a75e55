/** The fallback retrier: re-sends one message left pending, and records the
    outcome in the message's status. */
module FallbackWorker {
  import opened Wrappers
  import opened Values
  import opened TwilioProxy

  const Aborted := "Retry Aborted (Missing Fields)"
  const NoParticipants := "Retry Failed (No Participants)"
  const SentViaFallback := "Sent (via Fallback)"
  const RetryError := "Retry Error"

  /** A status write to the Messages table. */
  datatype StatusWrite = StatusWrite(messageId: string, status: string)

  /** The status column of the Messages table, as `update_message_status`
      changes it. That helper is not part of this model: each write takes
      its outcome as a parameter, and a failed write raises. */
  class StatusBoard {
    var status: map<string, string>
    var writes: seq<StatusWrite>

    method UpdateMessageStatus(messageId: string, s: string, ok: bool) returns (o: Outcome<StatusWrite>)
      modifies this`status, this`writes
      ensures writes == old(writes) + [StatusWrite(messageId, s)]
      ensures status == if ok then old(status)[messageId := s] else old(status)
      ensures o == if ok then Pass else Fail(StatusWrite(messageId, s))
    {
      writes := writes + [StatusWrite(messageId, s)];
      if ok {
        status := status[messageId := s];
        o := Pass;
      } else {
        o := Fail(StatusWrite(messageId, s));
      }
    }
  }

  /** What a retry decides: the message to re-send, if any, and the status
      to write. */
  datatype Plan = Plan(send: Option<ProxyRequest>, status: string)

  function SessionOf(record: Record): Value { Get(record.fields, "Session SID") }
  function FromOf(record: Record): Value { Get(record.fields, "From") }
  function BodyOf(record: Record): Value { Get(record.fields, "Body") }

  /** `all([session_sid, from_num, body])` */
  predicate Complete(record: Record) {
    Truthy(SessionOf(record)) && Truthy(FromOf(record)) && Truthy(BodyOf(record))
  }

  /** The retry of `record`, given what listing the session's participants
      returned and whether the send succeeds. */
  function RetryPlan(record: Record, listed: Call<seq<Participant>>, sendOk: bool): (plan: Plan)
    ensures plan.status in {Aborted, NoParticipants, SentViaFallback, RetryError}
    ensures !Complete(record) <==> plan == Plan(None, Aborted)
    ensures plan.status == SentViaFallback ==> plan.send.Some? && sendOk
    ensures plan.send.Some? ==>
      && Complete(record) && listed.Returned?
      && (exists i :: 0 <= i < |listed.value| && SameText(FromOf(record), listed.value[i].identifier))
      && var recipient := First(listed.value, (p: Participant) => !SameText(FromOf(record), p.identifier));
         && recipient.Some?
         && !SameText(FromOf(record), recipient.value.identifier)
         && plan.send.value == Send(SessionOf(record), recipient.value.sid, BodyOf(record))
    ensures Complete(record) && listed.Raised? ==> plan == Plan(None, RetryError)
    ensures Complete(record) && listed.Returned? ==>
      (plan.send.Some? <==>
         && (exists i :: 0 <= i < |listed.value| && SameText(FromOf(record), listed.value[i].identifier))
         && (exists j :: 0 <= j < |listed.value| && !SameText(FromOf(record), listed.value[j].identifier)))
    ensures Complete(record) && listed.Returned? && plan.send.None? ==> plan.status == NoParticipants
    ensures plan.send.Some? ==> plan.status == (if sendOk then SentViaFallback else RetryError)
  {
    if !Complete(record) then Plan(None, Aborted)
    else match listed
      case Raised => Plan(None, RetryError)
      case Returned(ps) =>
        var from := FromOf(record);
        var sender := First(ps, (p: Participant) => SameText(from, p.identifier));
        var recipient := First(ps, (p: Participant) => !SameText(from, p.identifier));
        if sender.None? || recipient.None? then Plan(None, NoParticipants)
        else Plan(Some(Send(SessionOf(record), recipient.value.sid, BodyOf(record))),
                  if sendOk then SentViaFallback else RetryError)
  }

  /** Whether the planned status is written inside the `try`, where a failed
      write is followed by a "Retry Error" write. */
  predicate WrittenInTry(plan: Plan) {
    plan.status == NoParticipants || plan.status == SentViaFallback
  }

  /** The status writes a retry makes. */
  function Writes(messageId: string, plan: Plan, firstOk: bool): seq<StatusWrite> {
    [StatusWrite(messageId, plan.status)]
      + (if WrittenInTry(plan) && !firstOk then [StatusWrite(messageId, RetryError)] else [])
  }

  /** `_retry_message(record)`. `listed` is what `list_participants`
      returned; `sendOk`, `firstOk` and `secondOk` are the outcomes of the
      send and of the status writes. Returns whether an exception escapes. */
  method RetryMessage(board: StatusBoard, proxy: Proxy, record: Record, listed: Call<seq<Participant>>,
                      sendOk: bool, firstOk: bool, secondOk: bool)
    returns (raised: bool)
    modifies board`status, board`writes, proxy`requests
    ensures var plan := RetryPlan(record, listed, sendOk);
      && proxy.requests == old(proxy.requests) + (if plan.send.Some? then [plan.send.value] else [])
      && board.writes == old(board.writes) + Writes(record.id, plan, firstOk)
      && board.status == (if firstOk then old(board.status)[record.id := plan.status]
                          else if WrittenInTry(plan) && secondOk then old(board.status)[record.id := RetryError]
                          else old(board.status))
      && raised == (if WrittenInTry(plan) && !firstOk then !secondOk else !firstOk)
  {
    ghost var plan := RetryPlan(record, listed, sendOk);
    if !(Truthy(SessionOf(record)) && Truthy(FromOf(record)) && Truthy(BodyOf(record))) {
      assert plan == Plan(None, Aborted);
      var o := board.UpdateMessageStatus(record.id, Aborted, firstOk);
      return o.Fail?;
    }

    var failed, wroteInTry := TryResend(board, proxy, record, listed, sendOk, firstOk);
    assert plan.status != Aborted;
    // the except block
    if failed {
      var o := board.UpdateMessageStatus(record.id, RetryError, if wroteInTry then secondOk else firstOk);
      return o.Fail?;
    }
    return false;
  }

  /** The `try` block of `_retry_message` for a complete record. Returns
      whether it raised and whether it wrote a status before that. */
  method TryResend(board: StatusBoard, proxy: Proxy, record: Record, listed: Call<seq<Participant>>,
                   sendOk: bool, firstOk: bool)
    returns (failed: bool, wroteInTry: bool)
    requires Complete(record)
    modifies board`status, board`writes, proxy`requests
    ensures var plan := RetryPlan(record, listed, sendOk);
      && proxy.requests == old(proxy.requests) + (if plan.send.Some? then [plan.send.value] else [])
      && wroteInTry == WrittenInTry(plan)
      && board.writes == old(board.writes) + (if wroteInTry then [StatusWrite(record.id, plan.status)] else [])
      && board.status == (if wroteInTry && firstOk then old(board.status)[record.id := plan.status] else old(board.status))
      && failed == (wroteInTry ==> !firstOk)
  {
    var from := FromOf(record);
    failed, wroteInTry := false, false;
    if listed.Raised? {
      failed := true;
    } else {
      var ps := listed.value;
      var sender := First(ps, (p: Participant) => SameText(from, p.identifier));
      var recipient := First(ps, (p: Participant) => !SameText(from, p.identifier));
      if sender.None? || recipient.None? {
        var o := board.UpdateMessageStatus(record.id, NoParticipants, firstOk);
        wroteInTry := true;
        failed := o.Fail?;
      } else {
        var sent := proxy.SendSessionMessage(SessionOf(record), recipient.value.sid, BodyOf(record), sendOk);
        if sent.Fail? {
          failed := true;
        } else {
          var o := board.UpdateMessageStatus(record.id, SentViaFallback, firstOk);
          wroteInTry := true;
          failed := o.Fail?;
        }
      }
    }
  }

  /** A message missing its session, sender or body is aborted: no send,
      one status write. */
  lemma IncompleteIsAborted(record: Record, listed: Call<seq<Participant>>, sendOk: bool, firstOk: bool)
    requires !Complete(record)
    ensures RetryPlan(record, listed, sendOk).send.None?
    ensures Writes(record.id, RetryPlan(record, listed, sendOk), firstOk) == [StatusWrite(record.id, Aborted)]
  {
  }

  /** When the store accepts the write, a retry writes exactly one status. */
  lemma OneStatusWrite(record: Record, listed: Call<seq<Participant>>, sendOk: bool)
    ensures |Writes(record.id, RetryPlan(record, listed, sendOk), true)| == 1
  {
  }

  /** The status written last is the planned one when it lands, and
      "Retry Error" otherwise (from the `except` block). */
  lemma LastWrite(record: Record, listed: Call<seq<Participant>>, sendOk: bool, firstOk: bool)
    ensures var plan := RetryPlan(record, listed, sendOk);
      var ws := Writes(record.id, plan, firstOk);
      ws[|ws| - 1].status == (if firstOk || !WrittenInTry(plan) then plan.status else RetryError)
  {
  }

  /** A send goes out only when the session lists both a participant with
      the stored sender number and one with another number; otherwise the
      status says no participants (or, if listing failed, Retry Error). */
  lemma NoSendWithoutBothParticipants(record: Record, ps: seq<Participant>, sendOk: bool)
    requires Complete(record)
    requires (forall i :: 0 <= i < |ps| ==> !SameText(FromOf(record), ps[i].identifier))
          || (forall i :: 0 <= i < |ps| ==> SameText(FromOf(record), ps[i].identifier))
    ensures RetryPlan(record, Returned(ps), sendOk) == Plan(None, NoParticipants)
  {
  }
}
