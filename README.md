# Max_mailing broadcast core, modelled in Dafny

`max3.py` is a small desktop tool that sends one text message, with optional
file attachments, to a list of user IDs through the MAX bot API. The user
types an access token, a comma-separated ID list (or loads one from a `.txt`
or `.csv` file) and a message. The user may upload files as attachments, then
sends the message to every ID in turn while a progress bar advances.

This project models the logic behind that window:

- `strings.dfy` (module `Strings`): the Python string operations the
  program relies on. These are `str.isspace`, `strip` (with its `lstrip` and
  `rstrip` halves), `split` on a one-character separator, and `join`.
- `recipient_ids.dfy` (module `RecipientIds`): how IDs are read from the
  ID field and from `.txt` and `.csv` files, and how loaded IDs are written
  back into the field.
- `max_api.dfy` (module `MaxApi`): the two API calls. `send_max_message`
  builds the payload and succeeds only on status 200. `upload_file` returns
  an attachment id, `None`, or raises. The network is a `Server` object.
  It records every request it receives in `log` and answers each one through
  `answer`, a fixed function of the earlier requests and the new one. The
  same request can therefore get different replies at different times.
- `broadcast.dfy` (module `Broadcast`): specification functions of the two
  loops. One is the bulk send with its success/failure tally. The other is
  the upload loop, which collects attachment ids. Lemmas prove ordering,
  counting and request-log properties of both.
- `messenger.dfy` (module `Messenger`): class `MessengerApp` with the
  window's fields. These are the token, ID and message text, the
  attachment list, and a `Progressbar` object. Its handlers `GetToken`,
  `LoadFromFile`, `AttachFiles` and `SendBulk` are methods, and each loop
  is proved against the specification functions of `Broadcast`.
- `wrappers.dfy` (module `Wrappers`): the `Option` type.

Three behaviours of the code are easy to miss, and the model follows the
code in each:

- A message counts as delivered only when the status is exactly 200.
  Any other 2xx status counts as a failure (`MaxApi.Classify`,
  `MaxApi.Only200Delivers`).
- The check before sending only asks that the stripped ID text is not
  empty. A field holding just "," passes it. The run then parses zero IDs,
  sends nothing and reports 0 sent, 0 failed, instead of a validation error
  (`RecipientIds.CommaOnlyField`, `Messenger.MessengerApp.SendBulk`).
- Exceptions from `upload_file` are not caught in `attach_files`. A file
  that cannot be opened, a transport error, or a non-JSON body with status
  200 ends the handler. Ids appended before that stay in the list
  (`Messenger.MessengerApp.AttachFiles`, `Broadcast.UploadsAfterRaise`).

## Model

| member | source | states |
|---|---|---|
| Strings.TrimStartSuffix | max3.py:84 | the left half of `strip()` keeps exactly the suffix starting at the first non-white-space character; everything before it is white space |
| Strings.TrimEndPrefix | max3.py:84 | the right half of `strip()` keeps exactly the prefix ending at the last non-white-space character; everything after it is white space |
| Strings.IsSpace | max3.py:84 | among ASCII characters, the white space `strip()` removes is exactly space, tab, line feed, carriage return, vertical tab, form feed and the four separators 0x1c-0x1f |
| Strings.Strip | max3.py:84 | `strip()` is empty exactly when the text is all white space; otherwise it has no white space at either end, and it is never longer than the text |
| Strings.StripMiddle | max3.py:153 | `strip()` returns the slice of the text between its leading and trailing white space |
| Strings.StripClean | max3.py:147 | a text with no white space at either end is returned unchanged by `strip()` |
| Strings.StripPadded | max3.py:153 | stripping white space + x + white space gives x, for x without white space at its ends |
| Strings.StripIdempotent | max3.py:153 | stripping twice is stripping once |
| Strings.Split | max3.py:153 | `split(sep)` gives at least one piece and no piece contains the separator |
| Strings.JoinSplit | max3.py:153 | joining the pieces of `split(sep)` with the separator gives back the text: splitting loses nothing |
| Strings.SplitJoin | max3.py:153 | splitting a join of separator-free pieces gives back those pieces |
| RecipientIds.CleanIds | max3.py:153 | stripping and dropping blank candidates yields no more IDs than candidates, each without white space at its ends |
| RecipientIds.CleanIdsAt | max3.py:153 | candidate k adds nothing when blank, and otherwise adds exactly its stripped form after the IDs of the candidates before it, so order is kept |
| RecipientIds.CleanIdsAppend | max3.py:153 | cleaning a concatenation cleans each part separately: no candidate affects another |
| RecipientIds.CleanIdsEmpty | max3.py:153 | no ID comes out exactly when every candidate is blank |
| RecipientIds.CleanIdsOfClean | max3.py:153 | IDs already free of outer white space pass through unchanged |
| RecipientIds.CleanIdsIdempotent | max3.py:153 | cleaning the cleaned IDs changes nothing |
| RecipientIds.ParseIds | max3.py:153 | every ID parsed from the field is non-empty, has no white space at its ends and contains no comma |
| RecipientIds.ParseIdsEmpty | max3.py:153 | the field yields no ID exactly when every comma-separated piece is blank |
| RecipientIds.CommaOnlyField | max3.py:147-153 | the text "," passes the non-empty check yet yields no ID |
| RecipientIds.CsvIdsAreFirstColumn | max3.py:101-105 | a `.csv` file yields the IDs a `.txt` file holding the first cell of each non-empty row would |
| RecipientIds.TxtIds | max3.py:101 | a `.txt` file yields no more IDs than lines, each without white space at its ends, and none exactly when every line is blank |
| RecipientIds.CsvIds | max3.py:105 | a `.csv` file yields no more IDs than rows, each without white space at its ends |
| RecipientIds.IdsFromFile | max3.py:97-108 | extraction fails exactly when the chosen `.txt` file, or failing that `.csv` file, cannot be read; a readable `.txt` file yields its `TxtIds` and a readable `.csv` file its `CsvIds`; any other file yields no IDs; every ID is non-empty with no outer white space |
| RecipientIds.JoinedIdsClean | max3.py:112 | the ", "-joined text of one or more clean IDs has no outer white space |
| RecipientIds.ParseJoinedIds | max3.py:112 | cutting the ", "-joined text at the commas and cleaning the pieces gives back the IDs |
| RecipientIds.JoinedIdsParseBack | max3.py:112 | IDs loaded from a file into the field are exactly the IDs `send_bulk` then parses from it, when no ID contains a comma |
| MaxApi.Server.Post | max3.py:37 | a request is appended to the server's log and answered from the log before it |
| MaxApi.MakePayload | max3.py:30-35 | the payload carries the user id and the text, and carries an attachment list exactly when the list is non-empty, and then that very list |
| MaxApi.AttachmentListOfPayload | max3.py:34-35 | the attachments a recipient receives are exactly the attachment list, empty or not |
| MaxApi.Classify | max3.py:38 | an attempt succeeds exactly when the reply has status 200; it raises exactly on a transport error |
| MaxApi.Only200Delivers | max3.py:38 | a 2xx status other than 200 counts as a failed send |
| MaxApi.SendStep | max3.py:27-38 | an ID that does not parse as an integer raises before any request; otherwise exactly one message request is sent, with the payload of that ID, and classified by its reply |
| MaxApi.SendMaxMessage | max3.py:27-38 | the call posts what `SendStep` sends and returns its outcome |
| MaxApi.UploadReply | max3.py:19-24 | status 200 with a JSON body returns exactly that body's `attachment_id` (`None` when absent), and an id is returned only that way; any other status returns `None`; it raises exactly on a transport error or a non-JSON body on 200 |
| MaxApi.UploadStep | max3.py:13-24 | a file that cannot be opened raises with no request; otherwise exactly one upload request is sent and the result is `UploadReply` of the server's reply to it, so an id is returned only from a 200 reply carrying it |
| MaxApi.UploadFile | max3.py:13-24 | the call posts what `UploadStep` sends and returns its result |
| Broadcast.SendsUpTo | max3.py:159-168 | after n IDs the run has exactly n outcomes and at most n requests |
| Broadcast.CountOk | max3.py:159-168 | `success` never exceeds the number of attempts and equals it exactly when every attempt succeeded |
| Broadcast.CountFailed | max3.py:159-168 | `fail` never exceeds the number of attempts and is 0 exactly when every attempt succeeded |
| Broadcast.CountsNext | max3.py:161-168 | each attempt adds one to `success` if it succeeded and one to `fail` otherwise |
| Broadcast.TallyTotal | max3.py:159-168 | `success + fail` equals the number of attempts |
| Broadcast.CountOkAll | max3.py:159-168 | `success` equals the number of attempts exactly when every attempt succeeded, and is 0 exactly when none did |
| Broadcast.RunSendsSent | max3.py:160-168 | the requests of a run are one message per integer-valued ID, in ID order, whatever the replies |
| Broadcast.ExpectedSendsUniform | max3.py:162 | every message of a run carries the same text and attachment list; when every ID is an integer there is one message per ID |
| Broadcast.RunSendsAt | max3.py:160-168 | the k-th outcome is the classification of the reply to the k-th ID's message, given the requests sent before it; a non-integer ID counts as raised, a failure |
| Broadcast.ExampleRun | max3.py:159-168 | three IDs with a 500 for the second give outcomes success, failure, success and the tally 2 sent, 1 failed |
| Broadcast.Truthy | max3.py:127 | `if attach_id:` rejects exactly `None` and the empty string |
| Broadcast.Kept | max3.py:127-128 | an upload adds its id to the list exactly when it returned a truthy id, and then adds only that id |
| Broadcast.UploadsUpTo | max3.py:124-128 | after n paths the uploads sent are one per path in path order, at most n of them and exactly n when none raised; no more ids are kept than uploads sent, each kept id non-empty |
| Broadcast.UploadsUpToNext | max3.py:125-128 | each further path extends the uploads with that path's upload step, unless an earlier upload raised |
| Broadcast.UploadsAfterRaise | max3.py:125-128 | once an upload raises, the remaining paths send nothing and add nothing |
| Broadcast.RunUploadsAdded | max3.py:126-128 | when no upload raises, the ids kept are exactly the truthy ids of the replies, in path order |
| Messenger.UptoNext | max3.py:171 | setting the bar after one more attempt appends that attempt's number to the values the bar went through |
| Messenger.UptoCounts | max3.py:156-171 | the bar goes through 0, 1, ..., total in order, one value per attempt |
| Messenger.Progressbar.SetMaximum | max3.py:155 | the bar's maximum becomes the given value and nothing else changes |
| Messenger.Progressbar.SetValue | max3.py:171 | the bar's value becomes the given value, recorded in its history |
| Messenger.MessengerApp.constructor | max3.py:42-77 | the window opens with empty fields, no attachments and an idle bar |
| Messenger.MessengerApp.GetToken | max3.py:83-88 | no token exactly when the field is blank; otherwise the stripped field, with no white space at its ends |
| Messenger.MessengerApp.LoadFromFile | max3.py:90-113 | a cancelled dialog, an unreadable file or a file with no IDs leaves the field as it was; otherwise the field becomes the IDs joined with ", " and the count is reported |
| Messenger.MessengerApp.AttachFiles | max3.py:115-137 | with a blank token or no files chosen nothing changes; otherwise the list grows by the kept ids of the uploads in path order and never loses an entry, and the report says whether the loop aborted, kept none, or how many it kept |
| Messenger.MessengerApp.UploadAll | max3.py:124-129 | the loop appends to the list, and posts to the server, exactly what the upload specification says for the chosen paths |
| Messenger.MessengerApp.AttachNext | max3.py:125-128 | one pass of the upload loop, which uploads one file and appends its id when truthy, moves the list and the server log from the state after i paths to the state after i + 1 |
| Messenger.MessengerApp.SendBulk | max3.py:142-176 | a blank token, ID text or message returns before any request and leaves the bar untouched; otherwise every parsed ID is attempted once in order, the tally is that of the run with `sent + failed` equal to the number of IDs, and the bar's maximum and final value are that number, having gone through 0 .. total |
| Messenger.MessengerApp.SendAll | max3.py:154-173 | the loop posts exactly the run's requests, its counters are the run's tally and add up to the number of IDs, and the bar ends at total after going through 0 .. total |
| Messenger.MessengerApp.SendPass | max3.py:160-171 | one pass of the send loop, which attempts one ID and adds one to exactly one counter, moves the log, the counters and the bar from the state after idx IDs to the state after idx + 1 |
| Messenger.MessengerApp.StartProgress | max3.py:155-156 | the bar is set to 0 of total before the loop |
| Messenger.MessengerApp.Advance | max3.py:171 | after the idx-th attempt the bar's value is idx |

## Left out

- The tkinter widgets, dialogs, labels and colours, and `update_idletasks`.
  The fields are plain strings. A dialog's outcome is the report a handler
  returns. The chosen file paths and the file contents are parameters.
- The `Text` widgets' trailing newline. Every read of them is stripped, so
  it makes no difference to the model.
- `requests.post` and the HTTP transport. The `Server` class stands in for
  them: every request goes into its log, and its `answer` function gives the
  reply. Status codes and bodies are inputs. Bodies are either not JSON, or
  JSON with or without an `attachment_id`.
- Parsing JSON and non-string `attachment_id` values. JSON that is valid
  but not an object (where `data.get` would raise) is not distinguished from
  a body that is not JSON.
- Python's `int()`: the `toInt` parameter says whether an ID parses and to
  what integer.
- Opening files, UTF-8 decoding and the CSV reader. A `.txt` file is its
  lines and a `.csv` file is its rows, or `None` when reading raises. For
  uploads, `readable` says whether the file opens.
- `threading.Thread` in `send_bulk_thread`. A send runs on its own thread,
  so it could overlap an attach action. The model runs each handler to
  completion.
- `print` logging, `os.path.basename` and the list of uploaded file names
  shown in a label. Only the count of kept ids is reported.
- Messenger.MessengerApp.SendBulk: reads the attachment list once for the
  whole run. The source reads it again for every ID, which differs only
  when another thread changes it during the run.
