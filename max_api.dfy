/**
 * The two HTTP calls of the messaging platform's bot API: `upload_file`
 * (max3.py lines 13-24) and `send_max_message` (lines 27-38). The network
 * is a `Server` object that records every request it receives and answers
 * each one by an arbitrary, fixed function of the requests received before
 * it and the request itself.
 */
module MaxApi {
  import opened Wrappers

  /** The JSON body of a send: `user_id`, `text`, and `attachments` when that key is present. */
  datatype Payload = Payload(userId: int, text: string, attachments: Option<seq<string>>)

  /** `POST /upload?access_token=…` with a file, or `POST /messages?access_token=…` with a payload. */
  datatype Request =
    | Upload(path: string, token: string)
    | Message(token: string, payload: Payload)

  /** A response body: JSON, possibly holding an `attachment_id`, or text that is not JSON. */
  datatype Body = Malformed | Json(attachmentId: Option<string>)

  /** What `requests.post` does: raise (connection error, timeout, …) or return a response. */
  datatype Reply = TransportError | Response(status: int, body: Body)

  /** How a send attempt ended: status 200, another status, or an exception. */
  datatype Outcome = Ok | Rejected | Raised

  /** How an upload ended: an exception, or the value `upload_file` returned. */
  datatype UploadResult = UploadRaised | Returned(id: Option<string>)

  /** What one call did: its result and the requests it put on the network (at most one). */
  datatype Step<R> = Step(result: R, sent: seq<Request>)

  class Server {
    /** Every request received so far, oldest first. */
    var log: seq<Request>
    /** The reply to a request, given the requests received before it. */
    const answer: (seq<Request>, Request) -> Reply

    constructor (answer: (seq<Request>, Request) -> Reply)
      ensures log == [] && this.answer == answer
    {
      log := [];
      this.answer := answer;
    }

    /** `requests.post`: the request is received, then answered. */
    method Post(request: Request) returns (reply: Reply)
      modifies this
      ensures log == old(log) + [request]
      ensures reply == answer(old(log), request)
    {
      reply := answer(log, request);
      log := log + [request];
    }
  }

  /**
   * The payload for one recipient (max3.py lines 30-35): the `attachments`
   * key is present exactly when the attachment list is non-empty, and then
   * holds that very list.
   */
  function MakePayload(userId: int, text: string, attachments: seq<string>): (p: Payload)
    ensures p.userId == userId && p.text == text
    ensures p.attachments.Some? <==> attachments != []
    ensures p.attachments.Some? ==> p.attachments.value == attachments
  {
    Payload(userId, text, if attachments == [] then None else Some(attachments))
  }

  /** The attachment list a receiver reads from a payload, an absent key reading as no attachments. */
  function AttachmentList(p: Payload): seq<string>
  {
    match p.attachments
    case None => []
    case Some(a) => a
  }

  /** Every recipient receives exactly the list the sender holds, whether or not it is empty. */
  lemma AttachmentListOfPayload(userId: int, text: string, attachments: seq<string>)
    ensures AttachmentList(MakePayload(userId, text, attachments)) == attachments
  {
  }

  /** Only status 200 counts as delivered (max3.py line 38). */
  function Classify(reply: Reply): (o: Outcome)
    ensures o == Ok <==> reply.Response? && reply.status == 200
    ensures o == Raised <==> reply.TransportError?
  {
    match reply
    case TransportError => Raised
    case Response(status, _) => if status == 200 then Ok else Rejected
  }

  /**
   * One call of `send_max_message(uid, text, token, attachments)`, `toInt`
   * standing for Python's `int()` (`None` when it raises) and `history` for
   * the requests the server received before.
   */
  function SendStep(uid: string, text: string, token: string, attachments: seq<string>,
                    toInt: string -> Option<int>, answer: (seq<Request>, Request) -> Reply,
                    history: seq<Request>): (s: Step<Outcome>)
    ensures |s.sent| <= 1
    ensures s.sent == [] <==> toInt(uid).None?
    ensures toInt(uid).None? ==> s.result == Raised
    ensures toInt(uid).Some? ==>
      s.sent == [Message(token, MakePayload(toInt(uid).value, text, attachments))] &&
      s.result == Classify(answer(history, s.sent[0]))
  {
    match toInt(uid)
    case None => Step(Raised, [])
    case Some(n) =>
      var request := Message(token, MakePayload(n, text, attachments));
      Step(Classify(answer(history, request)), [request])
  }

  /** A 2xx status other than 200 is a failed send. */
  lemma Only200Delivers(uid: string, text: string, token: string, attachments: seq<string>,
                        toInt: string -> Option<int>, answer: (seq<Request>, Request) -> Reply,
                        history: seq<Request>)
    requires toInt(uid).Some?
    requires answer(history, Message(token, MakePayload(toInt(uid).value, text, attachments))).Response?
    requires var reply := answer(history, Message(token, MakePayload(toInt(uid).value, text, attachments)));
             200 < reply.status < 300
    ensures SendStep(uid, text, token, attachments, toInt, answer, history).result == Rejected
  {
  }

  /** The method the bulk loop calls: `send_max_message`, its exception turned into `Raised`. */
  method SendMaxMessage(server: Server, uid: string, text: string, token: string,
                        attachments: seq<string>, toInt: string -> Option<int>)
    returns (outcome: Outcome)
    modifies server
    ensures var s := SendStep(uid, text, token, attachments, toInt, server.answer, old(server.log));
            outcome == s.result && server.log == old(server.log) + s.sent
  {
    match toInt(uid)
    case None =>
      outcome := Raised;
    case Some(n) =>
      var reply := server.Post(Message(token, MakePayload(n, text, attachments)));
      outcome := Classify(reply);
  }

  /**
   * What `upload_file` returns given the reply (max3.py lines 19-24): the
   * `attachment_id` of a status-200 JSON reply (`None` when the key is
   * missing), `None` for any other status; a transport error or a status-200
   * body that is not JSON raises.
   */
  function UploadReply(reply: Reply): (r: UploadResult)
    ensures r.Returned? && r.id.Some? ==> reply == Response(200, Json(r.id))
    ensures reply.Response? && reply.status != 200 ==> r == Returned(None)
    ensures r == UploadRaised <==> reply.TransportError? || reply == Response(200, Malformed)
    ensures reply.Response? && reply.status == 200 && reply.body.Json? ==> r == Returned(reply.body.attachmentId)
  {
    match reply
    case TransportError => UploadRaised
    case Response(status, body) =>
      if status != 200 then Returned(None)
      else match body
        case Malformed => UploadRaised
        case Json(id) => Returned(id)
  }

  /**
   * One call of `upload_file(path, token)`: `readable` says whether the file
   * opens; when it does not, the call raises before any request is sent.
   */
  function UploadStep(path: string, token: string, readable: string -> bool,
                      answer: (seq<Request>, Request) -> Reply, history: seq<Request>)
    : (s: Step<UploadResult>)
    ensures s.sent == if readable(path) then [Upload(path, token)] else []
    ensures !readable(path) ==> s.result == UploadRaised
    ensures readable(path) ==> s.result == UploadReply(answer(history, Upload(path, token)))
    ensures s.result.Returned? && s.result.id.Some? ==>
      answer(history, Upload(path, token)) == Response(200, Json(s.result.id))
  {
    if !readable(path) then Step(UploadRaised, [])
    else
      var request := Upload(path, token);
      Step(UploadReply(answer(history, request)), [request])
  }

  method UploadFile(server: Server, path: string, token: string, readable: string -> bool)
    returns (result: UploadResult)
    modifies server
    ensures var s := UploadStep(path, token, readable, server.answer, old(server.log));
            result == s.result && server.log == old(server.log) + s.sent
  {
    if !readable(path) {
      result := UploadRaised;
    } else {
      var reply := server.Post(Upload(path, token));
      result := UploadReply(reply);
    }
  }
}
