# WhatsApp case correlator and campaign runner, in Dafny

This project models the two decision engines of a small WhatsApp-to-CRM
integration (Infobip for messaging, Salesforce as the CRM).

- **The conversation-to-case correlator** (`app.py`). Every inbound WhatsApp
  message is appended to a per-phone history (`MESSAGE_STORE`). A per-phone
  cache (`CASE_STORE`) holds the current Salesforce case and its last
  activity. `get_case_for_phone` reuses the cached case while the
  conversation is "active": the previous message is at most two hours
  older. Otherwise it asks Salesforce for a new case. The webhook loop
  classifies each result of the payload, stores it, resolves its case, and
  downloads the document or image it carries. It uploads that file to the
  case only when the download gave a non-empty body. The download goes to
  the account's own media host, with an extension taken from the
  Content-Type.
- **The campaign batch runner** (`send_campaign.py`). It checks the CSV's
  required columns and skips rows without a phone number. For every other
  row it sends one WhatsApp template whose four placeholders are sanitised
  (`clean_placeholder`). It classifies each answer as OK (2xx) or ERROR and
  picks the message cost by a three-level fallback: the response's price,
  then the price recorded by the delivery-report webhook, then
  `DEFAULT_PRICE_PER_MESSAGE`. It writes one report row per sent message
  and totals the run.

Modules:

| file | module | models |
|---|---|---|
| Wrappers.dfy | `Wrappers` | `Option`, `Result` |
| Seqs.dfy | `Seqs` | associativity of sequence concatenation (proof helper) |
| Text.dfy | `Text` | the Python `str` operations used: `isspace`, `strip`, `in`/`split(m, 1)`, `endswith`, ASCII `lower`, `split("/")[-1]` |
| Placeholder.dfy | `Placeholder` | `clean_placeholder` |
| Correlator.dfy | `Correlator` | `parse_infobip_timestamp`, `has_active_window`, `store_in_memory`, `get_case_for_phone`, and the two stores as a class |
| Media.dfy | `Media` | `normalize_infobip_media_url`, the extension and file-name choice, and `download_file` |
| Salesforce.dfy | `Salesforce` | the CRM client as an oracle object that records every request |
| Webhook.dfy | `Webhook` | the per-message loop of `infobip_webhook` |
| Campaign.dfy | `Campaign` | `get_current_price_from_webhook_file` (as an input), `send_template_message` and `run_campaign` |

Modelling choices:

- **Absent values.** Python's `None` and `""` are both falsy wherever the
  code tests them, so absent string fields are `""`.
- **Timestamps.** `strptime` is a parameter `parse: string -> Option<int>`
  (microseconds). `ParseTimestamp` adds the explicit rule that empty text
  never parses.
- **The CRM.** `Salesforce.Org` answers its n-th request with `replies(n)`
  and appends every request to `calls`.
- **The WhatsApp send endpoint.** `Campaign.Gateway` answers its n-th POST
  with `replies(n)` and appends every request to `sent`.
- **The media GET.** The GET of `download_file` is a function parameter
  `fetch`.
- **Money.** Money is `real`.
- **Files.** The CSV is its header plus a sequence of row maps. The report
  is a returned value. The price file is a `PriceFile` value.

The runner's loop is proved against a left fold, `Campaign.Run`. Each
pass (`Campaign.Step`) either skips a row, sends it and reports it, or
aborts on a failed POST. The properties of the run are lemmas about that
fold.

Behaviour of the code that is easy to misread, and that the model follows:

- **Cost fallback.** The fallback to the webhook price, then to
  `DEFAULT_PRICE_PER_MESSAGE`, runs whenever the response gave no cost
  (send_campaign.py:156-166). It runs before the status is tested
  (send_campaign.py:169-173), so an ERROR send can carry a cost.
  `Campaign.ReplyOutcome` does the same.
- **Failed POST.** The `requests.post` of `send_template_message`
  (send_campaign.py:125) is in no `try`, and neither is its call in
  `run_campaign` (send_campaign.py:239-245). A failed POST therefore ends
  the run. The model returns `Failure(SendAborted)` with the report rows
  written so far.
- **Every result is stored.** The loop stores every element of `results`
  whatever its type (app.py:225-277), so a delivery-status event is stored
  like a message. The model does the same.
- **Window across a gap.** The docstring of `has_active_window`
  (app.py:58-60) describes a previous message within the two hours before
  the current one. The loop stores the message (app.py:271-277) before
  `get_case_for_phone` checks the window (app.py:286), so the check compares
  the message with itself, and a gap longer than two hours never leads to a
  new case. See "## Findings".

## Model

| member | source | states |
|---|---|---|
| Text.Strip | send_campaign.py:64 | `strip` keeps the slice of the input after its leading whitespace run; everything cut after it is whitespace, and the result neither starts nor ends with whitespace |
| Text.StripEmpty | send_campaign.py:64 | `strip` gives "" exactly for a string made only of whitespace |
| Text.StripUnchanged | send_campaign.py:64 | a string with no leading or trailing whitespace is its own strip |
| Text.FindFirst | app.py:143-144 | the result is the first index where the marker occurs, and None exactly when it occurs nowhere |
| Text.LastSegment | app.py:189 | `split("/")[-1]` is a suffix of the URL with no '/', preceded by '/' when it is not the whole URL |
| Placeholder.ReplaceControls | send_campaign.py:62 | the value keeps its length; every '\n', '\r' and '\t' becomes a space and every other character stays in place |
| Placeholder.ReplaceControlsOneLine | send_campaign.py:62 | the three replacements leave a one-line value unchanged |
| Placeholder.ReplaceControlsVisible | send_campaign.py:62 | the replacements keep the value's non-whitespace characters in order |
| Placeholder.ReplaceControlsWords | send_campaign.py:62 | the replacements keep the value's words (maximal non-whitespace runs), in order |
| Placeholder.CollapseRunsCollapses | send_campaign.py:63 | `re.sub(r"\s{2,}", " ", s)` leaves no two adjacent whitespace characters, is empty exactly when `s` is, starts with whitespace exactly when `s` does, is made of spaces and characters of `s`, keeps the visible characters of `s` in order and splits into the same words as `s` |
| Placeholder.CollapseRunsUnchanged | send_campaign.py:63 | a value without whitespace runs is left as it is |
| Placeholder.StripKeeps | send_campaign.py:64 | stripping a one-line value without runs keeps it one-line and without runs, and keeps its visible characters and its words |
| Placeholder.CleanPlaceholder | send_campaign.py:59-64 | an empty value gives ""; any result has no '\n', '\r' or '\t', no run of two whitespace characters, no leading or trailing whitespace, the value's non-whitespace characters in order, and exactly the value's words in order, so words are neither joined nor split |
| Placeholder.CleanPlaceholderTwoWords | send_campaign.py:59-64 | two visible characters between blank runs, a line break and a tab come out as the first, one space, the second |
| Placeholder.CleanPlaceholderExample | send_campaign.py:59-64 | `clean_placeholder("  A\n\tB  ")` is `"A B"` |
| Placeholder.CleanPlaceholderKeepsClean | send_campaign.py:59-64 | a value that is already one-line, without runs and trimmed is returned unchanged |
| Placeholder.CleanPlaceholderIdempotent | send_campaign.py:59-64 | sanitising twice gives the same as sanitising once |
| Placeholder.CleanPlaceholderBlank | send_campaign.py:59-64 | a value made only of whitespace (blanks, tabs, line breaks) gives "" |
| Correlator.ParseTimestamp | app.py:43-54 | empty text never parses; other text parses exactly as the parser reads it |
| Correlator.HasActiveWindow | app.py:57-78 | false with no stored message, false when the current or the last stored timestamp does not parse (empty text included); otherwise true iff current - last <= 2 h, so an older message is always active |
| Correlator.Append | app.py:84-94 | exactly one entry is added at the end of the phone's list, which is created when absent; other phones' lists are unchanged |
| Correlator.Decide | app.py:108-112 | reuse only of a non-empty cached id, only with a stored message and a parsable timestamp; no cached case or no active window means a new case |
| Correlator.DecideHonoursWindow | app.py:104-112 | against the history before the message, the cached case is reused iff there is a previous message, a non-empty cached id, both timestamps parse and their difference is at most 2 h; the reused id is the cached one |
| Correlator.DecideAfterStoreIgnoresHistory | app.py:266-291 | once the message is stored first, the decision depends only on whether its own timestamp parses and a case is cached: the history plays no part |
| Correlator.ThreeHoursApart | app.py:271-291 | two messages three hours apart: deciding against the earlier history requests a new case, the stored-first order reuses the first case |
| Correlator.Correlator.constructor | app.py:29-36 | both stores start empty |
| Correlator.Correlator.StoreInMemory | app.py:81-97 | the history becomes `Append` of the new entry; the case cache is untouched |
| Correlator.Correlator.GetCaseForPhone | app.py:100-129 | on reuse: returns the cached id, sets only its last activity to `receivedAt`, makes no CRM request; otherwise exactly one case creation, which succeeds iff the CRM accepts it with a non-empty id, returns that id and caches it with `receivedAt`; on failure the cache is unchanged |
| Media.NormalizeMediaUrl | app.py:132-147 | empty input stays empty; a rewritten URL is the base and "/whatsapp" followed by a suffix of the input |
| Media.NormalizeMediaUrlCases | app.py:139-147 | empty input is returned unchanged; with no "/whatsapp" the input is returned; otherwise the result is the base followed by the input from its first "/whatsapp" on |
| Media.NormalizeMediaUrlIdempotent | app.py:139-147 | for a base without "/whatsapp", rewriting a rewritten URL changes nothing |
| Media.DefaultBaseUrlIsStable | app.py:21 | the default host contains no "/whatsapp", so the idempotence above applies to it |
| Media.Extension | app.py:171-183 | the extension is one of .jpg, .png, .pdf, .gif or none |
| Media.ExtensionChoice | app.py:171-183 | in the lowered Content-Type: .jpg iff "jpeg" or "jpg" occurs; .png iff "png" occurs and neither earlier keyword; .pdf iff "pdf" occurs and no earlier one; .gif iff "gif" occurs and no earlier one; none iff no keyword occurs |
| Media.ExtensionIsLower | app.py:171-183 | the chosen extension is already lower case |
| Media.BaseFilename | app.py:186-189 | the suggested name when given; otherwise the URL's last segment when it is not empty (a '/'-free suffix of the URL), else "whatsapp-file"; never empty |
| Media.WithExtension | app.py:191-193 | the name is a prefix of the result, which adds at most the extension |
| Media.WithExtensionProperties | app.py:191-193 | for a lower-case extension: the name plus the extension when the extension is non-empty and the lowered name does not end with it, else the name itself; a non-empty extension ends the lowered result; appending again changes nothing |
| Media.DownloadFilename | app.py:171-193 | the base name plus the chosen extension when there is one and the lowered base name does not end with it, else the base name; never empty; ends (ignoring case) with a chosen extension |
| Media.DownloadFile | app.py:150-199 | no payload and no name for an empty URL, a transport failure or a 4xx/5xx status; otherwise the body of the GET on the rewritten URL and the chosen file name |
| Salesforce.Org.GetSession | salesforce_client.py:21-58 | one login request; fails on an HTTP error or a missing instance URL, else returns the session |
| Salesforce.Org.CreateCase | salesforce_client.py:69-104 | one case-creation request; fails on an HTTP error or an answer without id; a returned id is never empty |
| Salesforce.Org.UploadDocumentForCase | salesforce_client.py:179-190 | one upload request with the case, bytes, file name and title; returns the link id or fails |
| Webhook.Classify | app.py:225-252 | the phone is `from`, else `sender`; only TEXT messages carry a text (own, else content's); only DOCUMENT/IMAGE messages carry a document URL (url, else document's, else image's); the caption is the message's for DOCUMENT/IMAGE and "" otherwise |
| Webhook.EntryOf | app.py:271-277 | the stored entry has the message's type and timestamp and the classified text and URL, so no text unless TEXT and no URL unless DOCUMENT/IMAGE |
| Webhook.StoreAll | app.py:271-277 | storing a payload loses no phone and gives every phone of the payload a history |
| Webhook.StoreAllEntries | app.py:225-277 | storing a payload keeps every earlier entry of every phone and appends exactly that phone's results, in payload order |
| Webhook.AttachCalls | app.py:293-307 | an upload request iff the message has a document URL and its download gave a non-empty body; it then carries the case, that body, the chosen file name and the title with the phone |
| Webhook.AttachDocument | app.py:293-307 | the CRM requests made are exactly `AttachCalls`: an upload only for a non-empty downloaded body |
| Webhook.ResolveAndAttach | app.py:285-307 | on reuse the cached case gets the document requests; otherwise one case request, and when the CRM accepts it with a non-empty id that id is cached and gets the document requests, else nothing more is requested and the cache is unchanged; the history is unchanged and only this phone's cache entry may change |
| Webhook.Integrate | app.py:279-313 | a login is requested only when there is no session; it gives a session iff the CRM accepts it with a non-empty instance URL, and that URL is the session; a failed login ends the turn with the cache unchanged; otherwise as `ResolveAndAttach`, after the login, with the case request answered by the reply that follows it |
| Webhook.ProcessMessage | app.py:225-313 | the entry is stored whatever the CRM does; the login as in `Integrate`; with a session and a parsable `receivedAt`, a cached case is always reused with its last activity refreshed and no case is requested; with a session but no cached case or an unparsable `receivedAt`, one case request follows the login, and its accepted id is cached |
| Webhook.ProcessMessageDecidingFirst | app.py:266-307 | corrected turn: the entry is still stored; a failed login ends the turn with no further request and the cache unchanged; a cached case is reused only as decided on the earlier history; a message more than two hours after the previous one makes the CRM request a new case, whose accepted id is cached |
| Webhook.HandleWebhook | app.py:217-315 | no results: "no_results" and nothing changes; otherwise "ok", every result stored in order whatever happened to earlier ones, and CRM requests only appended |
| Campaign.Field | send_campaign.py:227-231 | a missing column gives ""; a non-empty value neither starts nor ends with whitespace |
| Campaign.DataOf | send_campaign.py:227-231 | a row without the "Num tele" column has no number; a number neither starts nor ends with whitespace |
| Campaign.FieldOfCell | send_campaign.py:227-231 | a present cell is read as the slice after its leading whitespace, with only whitespace after that slice, and with the cell's words kept |
| Campaign.DataOfNumber | send_campaign.py:228-233 | a row has no number, and is skipped, exactly when its "Num tele" column is missing or holds only whitespace |
| Campaign.MissingColumns | send_campaign.py:200-207 | exactly the required columns absent from the header, in the order of REQUIRED_COLUMNS |
| Campaign.WebhookPrice | send_campaign.py:38-57 | the recorded price when the file holds a number; 0.0 when the file is missing, unreadable or has no usable `pricePerMessage` |
| Campaign.ReplyOutcome | send_campaign.py:127-175 | OK iff 200 <= status < 300; a non-zero response price is the cost; otherwise the webhook price if > 0, else the default if > 0, else 0.0, whatever the status; the error text is the response text only for ERROR; an unreadable price loses the message id |
| Campaign.InterpretReply | send_campaign.py:127-175 | the step-by-step reassignment of the cost computes `ReplyOutcome` |
| Campaign.Gateway.Post | send_campaign.py:125 | one request recorded, answered with the reply for its position |
| Campaign.TemplateFor | send_campaign.py:93-104 | the request goes to the given number and has four placeholders |
| Campaign.TemplateForSanitised | send_campaign.py:93-104 | the number goes out as given, and each of the four placeholders is its value sanitised, words included, as `CleanPlaceholder` states |
| Campaign.SendTemplateMessage | send_campaign.py:68-175 | exactly one request with the sanitised placeholders; no outcome when the POST fails, else `ReplyOutcome` of the answer |
| Campaign.Numbered | send_campaign.py:233-235 | no more rows than the input, each with a number |
| Campaign.NumberedMembers | send_campaign.py:233-235 | a row is kept iff it is in the input and has a number |
| Campaign.Step | send_campaign.py:226-265 | after an abort or for a row without a number nothing changes; the report rows written so far are kept, and at most one is added |
| Campaign.SentStep | send_campaign.py:237-251 | for a numbered row of a run that has not aborted, the send's outcome decides: no answer aborts with the row sent, an answer reports it |
| Campaign.TotalsStep | send_campaign.py:247-251 | one more report row adds to the OK count and cost when OK, to the error count otherwise |
| Campaign.AbortedStays | send_campaign.py:239-245 | after a failed POST no later row is sent or reported |
| Campaign.CountsPartition | send_campaign.py:237-251 | every report row is counted once, as OK or ERROR; with no OK row the total cost is 0.0 |
| Campaign.RunFollowsSource | send_campaign.py:226-265 | for the left fold `Run` of `Step` over the rows: a completed run sends to and reports every numbered row in source order; an aborted run sent to a prefix of them and reported all but the failed last one |
| Campaign.RunCounts | send_campaign.py:237-265 | sends = report rows (+1 if aborted); a completed run reports as many rows as have a number |
| Campaign.AnsweredRunCompletes | send_campaign.py:239-245 | when every POST is answered the run never aborts |
| Campaign.Tally | send_campaign.py:267-275 | the totals of a report: as many rows as were reported, each counted once as OK or ERROR, and a zero cost when no row is OK |
| Campaign.Count | send_campaign.py:247-251 | the counters after an answered send are the totals of the report with the new row |
| Campaign.SendRow | send_campaign.py:237-265 | one request for the row's values; the run advances by exactly one pass, and the counters stay the totals of the report |
| Campaign.SendRows | send_campaign.py:226-265 | the report rows, the requests and the totals are those of the run over the rows; totals only when no POST failed |
| Campaign.RunCampaign | send_campaign.py:180-285 | missing API key, then missing CSV, then missing columns (listed in order) fail before any send or report; otherwise the report is the header plus the run's rows, every numbered row is sent once, and the totals count rows, OK, ERROR and the OK cost |

## Left out

- Flask routing, the GET handler, JSON parsing of the request, the JSON responses' HTTP codes and `app.run` (app.py:206-215, 318-320): web plumbing.
- All `print` logging, including the only-logged `has_active_window` call at app.py:266.
- `strptime` and time-zone arithmetic: timestamps are an abstract parser to integers.
- The HTTP requests (`requests.get`, `requests.post`) and their headers, authentication and timeouts: they are oracles.
- The Salesforce payloads: field names, record-type id, base64 encoding and the ContentVersion lookup (salesforce_client.py:61-176). They are network I/O.
- Salesforce.Org.GetSession: does not model the `KeyError` of a missing `access_token` or the `rstrip("/")` of the instance URL.
- Salesforce.Org.UploadDocumentForCase: the three requests of the upload are one request.
- CSV and JSON file reading and writing, and the file-existence checks. They are the `CsvSource`, `Report` and `PriceFile` values.
- The `timestamp_envoi` column, the summary's `timestamp` and its `csv_path`/`report_path`: `datetime.now()` and echoed arguments.
- The sender number, template name and language constants of the payload (send_campaign.py:17-19, 106-122): they are not part of any decision.
- Floating-point rounding of costs: money is `real`.
- Crashes on a JSON `null` where an object is expected (for example `"content": null`), and non-string field values: absent fields are "".
- `lower()` beyond ASCII letters: other characters are kept as they are.
- Placeholder.CollapseRunsCollapses: says which characters separate the words only as far as "a space or a character of the input"; a lone whitespace character other than '\n', '\r', '\t' (for example '\x0b' or '\xa0') is kept by the code, and the contract does not pin which one stands between two words. `Placeholder.CleanPlaceholder` inherits this.
- Salesforce.Org.GetSession: the check that raises before any request when the credentials are unset (salesforce_client.py:27-31) is not modelled; the model always makes the login request.
- Campaign.ReplyOutcome: the price file is read again on every send whose response gave no cost (send_campaign.py:157); the model reads one `PriceFile` value for the whole run, so a file that changes during the run is not modelled.
- Webhook.Classify: Python keeps a `None` phone (no `from` and no `sender`) apart from `""`; the model merges them into `""`.
- Webhook.HandleWebhook: states the history and that CRM requests are only appended; the requests of each message are stated by `Webhook.ProcessMessage`.
- Concurrency between webhook requests: the loop runs alone on the two stores.
- Price-receipt ingestion, ticket status reset and acknowledgement messages: no code for them appears in these files.

## Findings

| source | as written | input that shows it | evidently intended | confidence | as-written member | corrected member |
|---|---|---|---|---|---|---|
| app.py:271-291 | `store_in_memory` runs before `get_case_for_phone`, so `has_active_window` compares the message's timestamp with itself (difference 0) | two messages from one phone three hours apart, the first having created a case: the second reuses it | decide against the history before the message, as the docstring at app.py:58-60 and the logged check at app.py:266 describe, so a gap over two hours requests a new case | not executed; high | Correlator.ThreeHoursApart | Webhook.ProcessMessageDecidingFirst |
