/**
 * What the two loops of the program do, as functions of their inputs and
 * of the server's answers: the bulk send of `send_bulk` (max3.py lines
 * 159-173) and the uploads of `attach_files` (lines 124-129). Both are
 * defined by the number of items the loop has handled so far, the way the
 * loops grow them.
 */
module Broadcast {
  import opened Wrappers
  import opened MaxApi

  /** The outcome of each attempt, in recipient order, and the requests sent. */
  datatype Trace = Trace(outcomes: seq<Outcome>, sent: seq<Request>)

  /**
   * The first `n` attempts of a run sending `text` to each of `ids` in turn,
   * one attempt per ID, whatever the earlier attempts gave; `history` holds
   * what the server received before the run.
   */
  function SendsUpTo(ids: seq<string>, n: nat, text: string, token: string, attachments: seq<string>,
                     toInt: string -> Option<int>, answer: (seq<Request>, Request) -> Reply,
                     history: seq<Request>): (t: Trace)
    requires n <= |ids|
    ensures |t.outcomes| == n && |t.sent| <= n
    decreases n
  {
    if n == 0 then Trace([], [])
    else
      var before := SendsUpTo(ids, n - 1, text, token, attachments, toInt, answer, history);
      var step := SendStep(ids[n - 1], text, token, attachments, toInt, answer, history + before.sent);
      Trace(before.outcomes + [step.result], before.sent + step.sent)
  }

  /** A whole run: every ID attempted. */
  function RunSends(ids: seq<string>, text: string, token: string, attachments: seq<string>,
                    toInt: string -> Option<int>, answer: (seq<Request>, Request) -> Reply,
                    history: seq<Request>): Trace
  {
    SendsUpTo(ids, |ids|, text, token, attachments, toInt, answer, history)
  }

  /** The `success` counter: attempts that got status 200. */
  function CountOk(outcomes: seq<Outcome>): (n: nat)
    ensures n <= |outcomes|
    ensures n == |outcomes| <==> forall k :: 0 <= k < |outcomes| ==> outcomes[k] == Ok
  {
    if outcomes == [] then 0
    else CountOk(outcomes[..|outcomes| - 1]) + if outcomes[|outcomes| - 1] == Ok then 1 else 0
  }

  /** The `fail` counter: attempts that got another status or raised. */
  function CountFailed(outcomes: seq<Outcome>): (n: nat)
    ensures n <= |outcomes|
    ensures n == 0 <==> forall k :: 0 <= k < |outcomes| ==> outcomes[k] == Ok
  {
    if outcomes == [] then 0
    else CountFailed(outcomes[..|outcomes| - 1]) + if outcomes[|outcomes| - 1] == Ok then 0 else 1
  }

  lemma CountsNext(outcomes: seq<Outcome>, o: Outcome)
    ensures CountOk(outcomes + [o]) == CountOk(outcomes) + if o == Ok then 1 else 0
    ensures CountFailed(outcomes + [o]) == CountFailed(outcomes) + if o == Ok then 0 else 1
  {
    assert (outcomes + [o])[..|outcomes|] == outcomes;
  }

  /** Every attempt is tallied exactly once: `success + fail` is the number of attempts. */
  lemma {:induction false} TallyTotal(outcomes: seq<Outcome>)
    ensures CountOk(outcomes) + CountFailed(outcomes) == |outcomes|
    decreases |outcomes|
  {
    if outcomes != [] {
      TallyTotal(outcomes[..|outcomes| - 1]);
    }
  }

  /** The successes are exactly the attempts whose outcome is `Ok`. */
  lemma {:induction false} CountOkAll(outcomes: seq<Outcome>)
    ensures CountOk(outcomes) == |outcomes| <==> forall k :: 0 <= k < |outcomes| ==> outcomes[k] == Ok
    ensures CountOk(outcomes) == 0 <==> forall k :: 0 <= k < |outcomes| ==> outcomes[k] != Ok
    decreases |outcomes|
  {
    if outcomes != [] {
      var init := outcomes[..|outcomes| - 1];
      CountOkAll(init);
      TallyTotal(init);
      assert forall k :: 0 <= k < |init| ==> init[k] == outcomes[k];
    }
  }

  /**
   * The requests a run sends, independently of what the server answers:
   * `[message(int(uid)) for uid in ids if int(uid) does not raise]`, each
   * message with the same text, token and attachment list.
   */
  function ExpectedSends(ids: seq<string>, text: string, token: string, attachments: seq<string>,
                         toInt: string -> Option<int>): seq<Request>
  {
    if ids == [] then []
    else
      (match toInt(ids[0])
       case None => []
       case Some(n) => [Message(token, MakePayload(n, text, attachments))])
      + ExpectedSends(ids[1..], text, token, attachments, toInt)
  }

  lemma {:induction false} ExpectedSendsAppend(a: seq<string>, b: seq<string>, text: string, token: string,
                                               attachments: seq<string>, toInt: string -> Option<int>)
    ensures ExpectedSends(a + b, text, token, attachments, toInt)
         == ExpectedSends(a, text, token, attachments, toInt) + ExpectedSends(b, text, token, attachments, toInt)
    decreases |a|
  {
    if a == [] {
      assert a + b == b;
    } else {
      assert (a + b)[1..] == a[1..] + b;
      ExpectedSendsAppend(a[1..], b, text, token, attachments, toInt);
    }
  }

  /**
   * No retry, no skip, no early stop: the first `n` attempts send exactly
   * the expected requests of the first `n` IDs, whatever the replies.
   */
  lemma {:induction false} RunSendsSent(ids: seq<string>, n: nat, text: string, token: string,
                                        attachments: seq<string>, toInt: string -> Option<int>,
                                        answer: (seq<Request>, Request) -> Reply, history: seq<Request>)
    requires n <= |ids|
    ensures SendsUpTo(ids, n, text, token, attachments, toInt, answer, history).sent
         == ExpectedSends(ids[..n], text, token, attachments, toInt)
    decreases n
  {
    if n > 0 {
      RunSendsSent(ids, n - 1, text, token, attachments, toInt, answer, history);
      assert ids[..n] == ids[..n - 1] + [ids[n - 1]];
      ExpectedSendsAppend(ids[..n - 1], [ids[n - 1]], text, token, attachments, toInt);
    }
  }

  /** Every request of a run carries the same token, text and attachment field. */
  lemma {:induction false} ExpectedSendsUniform(ids: seq<string>, text: string, token: string,
                                                attachments: seq<string>, toInt: string -> Option<int>)
    ensures var sent := ExpectedSends(ids, text, token, attachments, toInt);
      |sent| <= |ids| &&
      forall k :: 0 <= k < |sent| ==>
        sent[k].Message? && sent[k].token == token && sent[k].payload.text == text &&
        sent[k].payload.attachments == (if attachments == [] then None else Some(attachments))
    ensures (forall k :: 0 <= k < |ids| ==> toInt(ids[k]).Some?) ==>
      |ExpectedSends(ids, text, token, attachments, toInt)| == |ids|
    decreases |ids|
  {
    if ids != [] {
      ExpectedSendsUniform(ids[1..], text, token, attachments, toInt);
      assert forall k :: 1 <= k < |ids| ==> ids[1..][k - 1] == ids[k];
    }
  }

  /**
   * Attempt `k` of a run: an ID that `int()` rejects fails without a
   * request; any other is judged by the server's answer to its message,
   * given the requests of the earlier attempts.
   */
  lemma {:induction false} RunSendsAt(ids: seq<string>, n: nat, text: string, token: string,
                                      attachments: seq<string>, toInt: string -> Option<int>,
                                      answer: (seq<Request>, Request) -> Reply, history: seq<Request>,
                                      k: nat)
    requires k < n <= |ids|
    ensures var t := SendsUpTo(ids, n, text, token, attachments, toInt, answer, history);
      var before := SendsUpTo(ids, k, text, token, attachments, toInt, answer, history);
      t.outcomes[k] == SendStep(ids[k], text, token, attachments, toInt, answer, history + before.sent).result
    ensures toInt(ids[k]).None? ==>
      SendsUpTo(ids, n, text, token, attachments, toInt, answer, history).outcomes[k] == Raised
    decreases n
  {
    if k < n - 1 {
      RunSendsAt(ids, n - 1, text, token, attachments, toInt, answer, history, k);
    }
  }

  /**
   * A three-recipient run: IDs "1", "2", "3", every
   * ID an integer and the server rejecting only the message to user 2,
   * give two deliveries and one failure, "1" and "3" delivered.
   */
  lemma ExampleRun(text: string, token: string, attachments: seq<string>)
    ensures var toInt := (s: string) => if s == "1" then Some(1) else if s == "2" then Some(2) else Some(3);
      var answer := (h: seq<Request>, r: Request) =>
        if r.Message? && r.payload.userId == 2 then Response(500, Json(None)) else Response(200, Json(None));
      var t := RunSends(["1", "2", "3"], text, token, attachments, toInt, answer, []);
      t.outcomes == [Ok, Rejected, Ok] && CountOk(t.outcomes) == 2 && CountFailed(t.outcomes) == 1
  {
    var outcomes := [Ok, Rejected, Ok];
    assert outcomes[..2] == [Ok, Rejected] && outcomes[..2][..1] == [Ok] && outcomes[..2][..1][..0] == [];
    assert CountOk([Ok]) == 1 && CountOk([Ok, Rejected]) == 1 && CountOk(outcomes) == 2;
    assert CountFailed([Ok]) == 0 && CountFailed([Ok, Rejected]) == 1 && CountFailed(outcomes) == 1;
  }

  /** What the uploads of one attach action did. */
  datatype UploadTrace = UploadTrace(added: seq<string>, sent: seq<Request>, raised: bool)

  /** A value `if attach_id:` accepts: present and not the empty string. */
  predicate Truthy(id: Option<string>)
    ensures !Truthy(id) <==> id == None || id == Some("")
  {
    id.Some? && id.value != []
  }

  /** What one upload adds to the attachment list: its id when truthy. */
  function Kept(result: UploadResult): (r: seq<string>)
    ensures |r| <= 1
    ensures r != [] <==> result.Returned? && Truthy(result.id)
    ensures r != [] ==> r == [result.id.value] && r[0] != []
  {
    if result.Returned? && Truthy(result.id) then [result.id.value] else []
  }

  /**
   * The first `n` paths uploaded in order, keeping each truthy attachment
   * id; an exception from `upload_file` ends the loop (it is not caught
   * there), so the later paths are not uploaded.
   */
  function UploadsUpTo(paths: seq<string>, n: nat, token: string, readable: string -> bool,
                       answer: (seq<Request>, Request) -> Reply, history: seq<Request>)
    : (t: UploadTrace)
    requires n <= |paths|
    ensures |t.added| <= |t.sent| <= n
    ensures forall k :: 0 <= k < |t.added| ==> t.added[k] != []
    ensures forall k :: 0 <= k < |t.sent| ==> t.sent[k] == Upload(paths[k], token)
    ensures !t.raised ==> |t.sent| == n
    decreases n
  {
    if n == 0 then UploadTrace([], [], false)
    else
      var before := UploadsUpTo(paths, n - 1, token, readable, answer, history);
      if before.raised then before
      else
        var step := UploadStep(paths[n - 1], token, readable, answer, history + before.sent);
        UploadTrace(before.added + Kept(step.result), before.sent + step.sent, step.result.UploadRaised?)
  }

  /** All the uploads of one attach action. */
  function RunUploads(paths: seq<string>, token: string, readable: string -> bool,
                      answer: (seq<Request>, Request) -> Reply, history: seq<Request>): UploadTrace
  {
    UploadsUpTo(paths, |paths|, token, readable, answer, history)
  }

  /** One more path extends the trace by that path's upload step. */
  lemma UploadsUpToNext(paths: seq<string>, n: nat, token: string, readable: string -> bool,
                        answer: (seq<Request>, Request) -> Reply, history: seq<Request>)
    requires n < |paths|
    ensures var before := UploadsUpTo(paths, n, token, readable, answer, history);
      var step := UploadStep(paths[n], token, readable, answer, history + before.sent);
      UploadsUpTo(paths, n + 1, token, readable, answer, history) ==
        if before.raised then before
        else UploadTrace(before.added + Kept(step.result), before.sent + step.sent, step.result.UploadRaised?)
  {
  }

  /** Once an upload has raised, the remaining paths change nothing. */
  lemma {:induction false} UploadsAfterRaise(paths: seq<string>, j: nat, n: nat, token: string,
                                             readable: string -> bool,
                                             answer: (seq<Request>, Request) -> Reply,
                                             history: seq<Request>)
    requires j <= n <= |paths|
    requires UploadsUpTo(paths, j, token, readable, answer, history).raised
    ensures UploadsUpTo(paths, n, token, readable, answer, history)
         == UploadsUpTo(paths, j, token, readable, answer, history)
    decreases n
  {
    if j < n {
      UploadsAfterRaise(paths, j, n - 1, token, readable, answer, history);
      var before := UploadsUpTo(paths, n - 1, token, readable, answer, history);
      assert before.raised;
      UploadsUpToNext(paths, n - 1, token, readable, answer, history);
      assert UploadsUpTo(paths, n, token, readable, answer, history) == before;
    }
  }

  /** One upload request per path, in path order. */
  function UploadRequests(paths: seq<string>, token: string): seq<Request>
  {
    if paths == [] then [] else [Upload(paths[0], token)] + UploadRequests(paths[1..], token)
  }

  lemma {:induction false} UploadRequestsAt(paths: seq<string>, token: string)
    ensures |UploadRequests(paths, token)| == |paths|
    ensures forall k :: 0 <= k < |paths| ==> UploadRequests(paths, token)[k] == Upload(paths[k], token)
    decreases |paths|
  {
    if paths != [] {
      UploadRequestsAt(paths[1..], token);
    }
  }

  /**
   * The truthy ids the replies to the first `n` uploads carry, in path
   * order, each reply taken after the requests for the earlier paths.
   */
  function TruthyIds(paths: seq<string>, n: nat, token: string,
                     answer: (seq<Request>, Request) -> Reply, history: seq<Request>): seq<string>
    requires n <= |paths|
    decreases n
  {
    if n == 0 then []
    else
      var reply := answer(history + UploadRequests(paths[..n - 1], token), Upload(paths[n - 1], token));
      TruthyIds(paths, n - 1, token, answer, history) +
      (if reply.Response? && reply.status == 200 && reply.body.Json? && Truthy(reply.body.attachmentId)
       then [reply.body.attachmentId.value] else [])
  }

  /**
   * When no upload raises, each path contributes its id exactly when the
   * server's reply gives a truthy one, and the ids keep the path order.
   */
  lemma {:induction false} RunUploadsAdded(paths: seq<string>, n: nat, token: string, readable: string -> bool,
                                           answer: (seq<Request>, Request) -> Reply, history: seq<Request>)
    requires n <= |paths|
    requires !UploadsUpTo(paths, n, token, readable, answer, history).raised
    ensures UploadsUpTo(paths, n, token, readable, answer, history).added
         == TruthyIds(paths, n, token, answer, history)
    decreases n
  {
    if n > 0 {
      var before := UploadsUpTo(paths, n - 1, token, readable, answer, history);
      assert !before.raised;
      RunUploadsAdded(paths, n - 1, token, readable, answer, history);
      UploadRequestsAt(paths[..n - 1], token);
      assert before.sent == UploadRequests(paths[..n - 1], token);
    }
  }
}
