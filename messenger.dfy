/**
 * The window of the broadcast tool (class `MessengerApp`, max3.py lines
 * 41-176), reduced to the state its handlers read and write: the text of
 * the token, ID and message fields, the list of uploaded attachment ids
 * and the progress bar's `maximum` and `value`. Dialogs become the report
 * each handler returns; file choices, file contents and the network are
 * parameters.
 */
module Messenger {
  import opened Wrappers
  import opened Strings
  import opened RecipientIds
  import opened MaxApi
  import opened Broadcast

  /** What `load_from_file` ends with. */
  datatype LoadReport = LoadCancelled | LoadFailed | NothingLoaded | Loaded(count: nat)

  /** What `attach_files` ends with; `UploadAborted` is an exception escaping the handler. */
  datatype AttachReport = AttachNoToken | NoFilesChosen | NoneUploaded | Uploaded(count: nat) | UploadAborted

  /** What `send_bulk` ends with: a validation error, or the final tally. */
  datatype BulkReport = SendNoToken | MissingInput | Finished(sent: nat, failed: nat)

  /** The successive values the progress bar is set to during a run of `total` sends. */
  function Upto(total: nat): (r: seq<int>)
    ensures |r| == total + 1
  {
    if total == 0 then [0] else Upto(total - 1) + [total]
  }

  /** One more attempt appends its number to the values the progress bar went through. */
  lemma UptoNext(trail: seq<int>, n: nat)
    ensures trail + Upto(n) + [n + 1] == trail + Upto(n + 1)
  {
  }

  /** The progress bar goes through 0, 1, ..., `total`, one step per attempt. */
  lemma {:induction false} UptoCounts(total: nat)
    ensures forall k :: 0 <= k <= total ==> Upto(total)[k] == k
  {
    if total > 0 {
      UptoCounts(total - 1);
    }
  }

  /** The determinate progress bar (a `ttk.Progressbar`): its `maximum` and `value` options. */
  class Progressbar {
    var maximum: int
    var value: int
    /** Every value the bar has been set to, oldest first. */
    ghost var history: seq<int>

    constructor ()
      ensures maximum == 100 && value == 0 && history == []
    {
      maximum, value := 100, 0;
      history := [];
    }

    /** `progress["maximum"] = m`. */
    method SetMaximum(m: int)
      modifies this`maximum
      ensures maximum == m
    {
      maximum := m;
    }

    /** `progress["value"] = v`. */
    method SetValue(v: int)
      modifies this`value, this`history
      ensures value == v && history == old(history) + [v]
    {
      value := v;
      history := history + [v];
    }
  }

  class MessengerApp {
    var tokenEntry: string
    var idsEntry: string
    var msgEntry: string
    /** Every attachment id uploaded so far; sent with every message. */
    var attachments: seq<string>
    /** The progress bar of the window. */
    const progress: Progressbar

    /** The window as it opens: empty fields, no attachments, an idle progress bar. */
    constructor ()
      ensures tokenEntry == [] && idsEntry == [] && msgEntry == []
      ensures attachments == []
      ensures fresh(progress) && progress.maximum == 100 && progress.value == 0 && progress.history == []
    {
      tokenEntry, idsEntry, msgEntry := [], [], [];
      attachments := [];
      progress := new Progressbar();
    }

    /** `get_token` (max3.py lines 83-88): the stripped token, `None` when it is blank. */
    function GetToken(): (token: Option<string>)
      reads this
      ensures token.None? <==> AllSpace(tokenEntry)
      ensures token.Some? ==> IsClean(token.value) && token.value == Strip(tokenEntry)
    {
      var t := Strip(tokenEntry);
      if t == [] then None else Some(t)
    }

    /**
     * `load_from_file` (max3.py lines 90-113) once `path` is chosen (empty
     * when the dialog is cancelled): the ID field is replaced by the IDs
     * joined with ", ", and only when the file yields at least one ID.
     */
    method LoadFromFile(path: string, lines: Option<seq<string>>, rows: Option<seq<seq<string>>>)
      returns (report: LoadReport)
      modifies this`idsEntry
      ensures path == [] ==> report == LoadCancelled && idsEntry == old(idsEntry)
      ensures path != [] && IdsFromFile(path, lines, rows).None? ==>
        report == LoadFailed && idsEntry == old(idsEntry)
      ensures path != [] && IdsFromFile(path, lines, rows) == Some([]) ==>
        report == NothingLoaded && idsEntry == old(idsEntry)
      ensures path != [] && IdsFromFile(path, lines, rows).Some? && IdsFromFile(path, lines, rows).value != [] ==>
        var ids := IdsFromFile(path, lines, rows).value;
        report == Loaded(|ids|) && idsEntry == JoinIds(ids)
    {
      if path == [] {
        return LoadCancelled;
      }
      var ids := IdsFromFile(path, lines, rows);
      match ids {
        case None =>
          report := LoadFailed;
        case Some(found) =>
          if found != [] {
            idsEntry := JoinIds(found);
            report := Loaded(|found|);
          } else {
            report := NothingLoaded;
          }
      }
    }

    /**
     * `attach_files` (max3.py lines 115-137) once `paths` are chosen: each
     * file is uploaded in turn and each truthy id appended to the attachment
     * list, which is never cleared; an upload that raises ends the handler,
     * keeping what was appended before it.
     */
    method AttachFiles(server: Server, paths: seq<string>, readable: string -> bool)
      returns (report: AttachReport)
      modifies this`attachments, server
      ensures old(attachments) <= attachments
      ensures AllSpace(tokenEntry) ==>
        report == AttachNoToken && attachments == old(attachments) && server.log == old(server.log)
      ensures !AllSpace(tokenEntry) && paths == [] ==>
        report == NoFilesChosen && attachments == old(attachments) && server.log == old(server.log)
      ensures !AllSpace(tokenEntry) && paths != [] ==>
        var t := RunUploads(paths, Strip(tokenEntry), readable, server.answer, old(server.log));
        attachments == old(attachments) + t.added && server.log == old(server.log) + t.sent &&
        report == (if t.raised then UploadAborted else if t.added == [] then NoneUploaded else Uploaded(|t.added|))
    {
      var token := GetToken();
      if token.None? {
        return AttachNoToken;
      }
      if paths == [] {
        return NoFilesChosen;
      }
      var uploaded, raised := UploadAll(server, paths, token.value, readable);
      report := if raised then UploadAborted else if uploaded == 0 then NoneUploaded else Uploaded(uploaded);
    }

    /**
     * The loop of `attach_files` (max3.py lines 124-129): upload each path
     * in turn, appending each truthy id to the attachment list; `raised`
     * when an upload raised, which ends the loop.
     */
    method UploadAll(server: Server, paths: seq<string>, token: string, readable: string -> bool)
      returns (uploaded: nat, raised: bool)
      modifies this`attachments, server
      ensures var t := RunUploads(paths, token, readable, server.answer, old(server.log));
        attachments == old(attachments) + t.added && server.log == old(server.log) + t.sent &&
        uploaded == |t.added| && raised == t.raised
    {
      ghost var log0 := server.log;
      ghost var attachments0 := attachments;
      uploaded, raised := 0, false;
      var i := 0;
      while i < |paths| && !raised
        invariant 0 <= i <= |paths|
        invariant var t := UploadsUpTo(paths, i, token, readable, server.answer, log0);
          raised == t.raised && uploaded == |t.added| &&
          attachments == attachments0 + t.added && server.log == log0 + t.sent
      {
        raised, uploaded := AttachNext(server, paths, i, token, readable, attachments0, log0, uploaded);
        i := i + 1;
      }
      if raised {
        UploadsAfterRaise(paths, i, |paths|, token, readable, server.answer, log0);
      }
    }

    /**
     * One pass of the loop of `attach_files` (max3.py lines 126-128):
     * upload `paths[i]` and append the returned id to the attachment list
     * when it is truthy, after the uploads of the paths before it.
     */
    method AttachNext(server: Server, paths: seq<string>, i: nat, token: string, readable: string -> bool,
                      ghost attachments0: seq<string>, ghost log0: seq<Request>, uploaded: nat)
      returns (raised: bool, uploaded': nat)
      requires i < |paths|
      requires var t := UploadsUpTo(paths, i, token, readable, server.answer, log0);
        !t.raised && uploaded == |t.added| &&
        attachments == attachments0 + t.added && server.log == log0 + t.sent
      modifies this`attachments, server
      ensures var t := UploadsUpTo(paths, i + 1, token, readable, server.answer, log0);
        raised == t.raised && uploaded' == |t.added| &&
        attachments == attachments0 + t.added && server.log == log0 + t.sent
    {
      ghost var before := UploadsUpTo(paths, i, token, readable, server.answer, log0);
      ghost var step := UploadStep(paths[i], token, readable, server.answer, server.log);
      UploadsUpToNext(paths, i, token, readable, server.answer, log0);
      var result := UploadFile(server, paths[i], token, readable);
      assert server.log == log0 + (before.sent + step.sent) by {
        assert (log0 + before.sent) + step.sent == log0 + (before.sent + step.sent);
      }
      if result.Returned? && Truthy(result.id) {
        attachments := attachments + [result.id.value];
      }
      assert attachments == attachments0 + (before.added + Kept(result));
      raised := result.UploadRaised?;
      uploaded' := uploaded + |Kept(result)|;
    }

    /**
     * `send_bulk` (max3.py lines 142-176): validate the token, the ID text
     * and the message; parse the IDs; set the progress bar to 0 of `total`;
     * then attempt every ID once, in order, tallying successes and failures
     * and moving the progress bar to the number of attempts made.
     */
    method SendBulk(server: Server, toInt: string -> Option<int>) returns (report: BulkReport)
      modifies progress, server
      ensures AllSpace(tokenEntry) ==>
        report == SendNoToken && server.log == old(server.log) &&
        unchanged(progress)
      ensures !AllSpace(tokenEntry) && (AllSpace(idsEntry) || AllSpace(msgEntry)) ==>
        report == MissingInput && server.log == old(server.log) &&
        unchanged(progress)
      ensures !AllSpace(tokenEntry) && !AllSpace(idsEntry) && !AllSpace(msgEntry) ==>
        var ids := ParseIds(Strip(idsEntry));
        var t := RunSends(ids, Strip(msgEntry), Strip(tokenEntry), attachments, toInt, server.answer, old(server.log));
        server.log == old(server.log) + t.sent &&
        report == Finished(CountOk(t.outcomes), CountFailed(t.outcomes)) &&
        report.sent + report.failed == |ids| &&
        progress.maximum == |ids| && progress.value == |ids| &&
        progress.history == old(progress.history) + Upto(|ids|)
    {
      var token := GetToken();
      if token.None? {
        return SendNoToken;
      }
      var idsText := Strip(idsEntry);
      var message := Strip(msgEntry);
      if idsText == [] || message == [] {
        return MissingInput;
      }
      var ids := ParseIds(idsText);
      var success, fail := SendAll(server, ids, message, token.value, toInt);
      report := Finished(success, fail);
    }

    /**
     * The loop of `send_bulk` (max3.py lines 154-173): the progress bar is
     * set to 0 of `total`, then every ID is attempted once, in order, each
     * attempt counted as a success or a failure and moving the bar to the
     * number of attempts made.
     */
    method SendAll(server: Server, ids: seq<string>, message: string, token: string,
                   toInt: string -> Option<int>)
      returns (success: nat, fail: nat)
      modifies progress, server
      ensures var t := RunSends(ids, message, token, attachments, toInt, server.answer, old(server.log));
        server.log == old(server.log) + t.sent &&
        success == CountOk(t.outcomes) && fail == CountFailed(t.outcomes)
      ensures success + fail == |ids|
      ensures progress.maximum == |ids| && progress.value == |ids|
      ensures progress.history == old(progress.history) + Upto(|ids|)
    {
      var total := |ids|;
      StartProgress(total);
      var atts := attachments;
      ghost var log0 := server.log;
      ghost var trail0 := old(progress.history);
      success, fail := 0, 0;
      var idx := 0;
      while idx < total
        invariant 0 <= idx <= total
        invariant server.log == log0 + SendsUpTo(ids, idx, message, token, atts, toInt, server.answer, log0).sent
        invariant success == CountOk(SendsUpTo(ids, idx, message, token, atts, toInt, server.answer, log0).outcomes)
        invariant fail == CountFailed(SendsUpTo(ids, idx, message, token, atts, toInt, server.answer, log0).outcomes)
        invariant progress.maximum == total && progress.value == idx
        invariant progress.history == trail0 + Upto(idx)
      {
        success, fail := SendPass(server, ids, idx, message, token, atts, toInt, log0, trail0, success, fail);
        idx := idx + 1;
      }
      TallyTotal(SendsUpTo(ids, idx, message, token, atts, toInt, server.answer, log0).outcomes);
    }

    /**
     * One pass of the loop of `send_bulk` (max3.py lines 160-171): attempt
     * `ids[idx]`, count it, and move the progress bar to `idx + 1`.
     */
    method SendPass(server: Server, ids: seq<string>, idx: nat, message: string, token: string,
                    atts: seq<string>, toInt: string -> Option<int>,
                    ghost log0: seq<Request>, ghost trail0: seq<int>,
                    success: nat, fail: nat)
      returns (success': nat, fail': nat)
      requires idx < |ids|
      requires var t := SendsUpTo(ids, idx, message, token, atts, toInt, server.answer, log0);
        server.log == log0 + t.sent && success == CountOk(t.outcomes) && fail == CountFailed(t.outcomes)
      requires progress.value == idx && progress.history == trail0 + Upto(idx)
      modifies progress, server
      ensures var t := SendsUpTo(ids, idx + 1, message, token, atts, toInt, server.answer, log0);
        server.log == log0 + t.sent && success' == CountOk(t.outcomes) && fail' == CountFailed(t.outcomes)
      ensures progress.maximum == old(progress.maximum)
      ensures progress.value == idx + 1 && progress.history == trail0 + Upto(idx + 1)
    {
      ghost var trace := SendsUpTo(ids, idx, message, token, atts, toInt, server.answer, log0);
      ghost var step := SendStep(ids[idx], message, token, atts, toInt, server.answer, server.log);
      ghost var next := SendsUpTo(ids, idx + 1, message, token, atts, toInt, server.answer, log0);
      assert next == Trace(trace.outcomes + [step.result], trace.sent + step.sent);
      var outcome := SendMaxMessage(server, ids[idx], message, token, atts, toInt);
      assert server.log == log0 + next.sent by {
        assert (log0 + trace.sent) + step.sent == log0 + (trace.sent + step.sent);
      }
      CountsNext(trace.outcomes, outcome);
      if outcome == Ok {
        success', fail' := success + 1, fail;
      } else {
        success', fail' := success, fail + 1;
      }
      Advance(trail0, idx);
    }

    /** Sets the progress bar to 0 of `total` (max3.py lines 155-156). */
    method StartProgress(total: nat)
      modifies progress
      ensures progress.maximum == total && progress.value == 0
      ensures progress.history == old(progress.history) + Upto(0)
    {
      progress.SetMaximum(total);
      progress.SetValue(0);
    }

    /** Moves the progress bar from `n` attempts to `n + 1` (max3.py line 171). */
    method Advance(ghost trail: seq<int>, n: nat)
      requires progress.value == n && progress.history == trail + Upto(n)
      modifies progress
      ensures progress.maximum == old(progress.maximum)
      ensures progress.value == n + 1 && progress.history == trail + Upto(n + 1)
    {
      progress.SetValue(n + 1);
      UptoNext(trail, n);
    }
  }
}
