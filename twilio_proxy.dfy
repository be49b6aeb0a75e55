/** The Twilio Proxy service as the core sees it: the requests it sends. The
    service itself is outside the model; each request takes its outcome as
    a parameter. */
module TwilioProxy {
  import opened Wrappers
  import opened Values

  /** A session participant: its sid, real number and proxy number. */
  datatype Participant = Participant(sid: string, identifier: string, proxyIdentifier: string)

  /** A request that changes a session. */
  datatype ProxyRequest =
    | Close(session: Value)
    | Remove(session: Value, participantSid: string)
    | Add(session: Value, identifier: Value, proxyIdentifier: string)
    | Send(session: Value, participantSid: string, body: Value)

  /** The requests sent to the service, in order, whatever their outcome. */
  class Proxy {
    var requests: seq<ProxyRequest>

    /** `close_session(session_sid)`: raises again when the service fails. */
    method CloseSession(session: Value, ok: bool) returns (o: Outcome<ProxyRequest>)
      modifies this`requests
      ensures requests == old(requests) + [Close(session)]
      ensures o == if ok then Pass else Fail(Close(session))
    {
      requests := requests + [Close(session)];
      o := if ok then Pass else Fail(Close(session));
    }

    /** `remove_participant(session_sid, participant_sid)` */
    method RemoveParticipant(session: Value, participantSid: string, ok: bool) returns (o: Outcome<ProxyRequest>)
      modifies this`requests
      ensures requests == old(requests) + [Remove(session, participantSid)]
      ensures o == if ok then Pass else Fail(Remove(session, participantSid))
    {
      requests := requests + [Remove(session, participantSid)];
      o := if ok then Pass else Fail(Remove(session, participantSid));
    }

    /** `add_participant(session_sid, identifier, proxy_identifier)`: raises
        again when the service fails. The service leaves out a falsy
        `proxy_identifier`; the model always records it, which is the same
        thing for the one caller, which always passes a "+"-prefixed
        number. */
    method AddParticipant(session: Value, identifier: Value, proxyIdentifier: string, ok: bool)
      returns (o: Outcome<ProxyRequest>)
      modifies this`requests
      ensures requests == old(requests) + [Add(session, identifier, proxyIdentifier)]
      ensures o == if ok then Pass else Fail(Add(session, identifier, proxyIdentifier))
    {
      requests := requests + [Add(session, identifier, proxyIdentifier)];
      o := if ok then Pass else Fail(Add(session, identifier, proxyIdentifier));
    }

    /** `send_session_message(session_sid, participant_sid, body)` */
    method SendSessionMessage(session: Value, participantSid: string, body: Value, ok: bool)
      returns (o: Outcome<ProxyRequest>)
      modifies this`requests
      ensures requests == old(requests) + [Send(session, participantSid, body)]
      ensures o == if ok then Pass else Fail(Send(session, participantSid, body))
    {
      requests := requests + [Send(session, participantSid, body)];
      o := if ok then Pass else Fail(Send(session, participantSid, body));
    }
  }
}
