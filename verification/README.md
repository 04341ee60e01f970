# PWA Trascrizione: a Dafny model of the upload-to-transcript relay

The service records a voice memo in the browser, uploads it to `/trascrivi`, converts it to mp3, sends it to a speech-to-text API, mails the transcript and returns it as `{ testo }`. The code around those calls is glue: routing, ffmpeg, OpenAI, Microsoft Graph, SMTP and the browser media APIs. This project models the decisions made around those calls. Every external call is an outcome that the caller supplies as a datatype.

- `Auth` (auth.dfy) models the authorization middleware of the mail server. In local mode it passes a simulated user. Otherwise it decodes the EasyAuth principal and answers 401 when there is none. It answers 403 when the principal lacks the required Entra group. Otherwise it takes the groups from every "groups" claim in order, and the name and email from the first matching claim (module `Claims`, claims.dfy).
- `Mail` (mail.dfy) models the Graph path: the client-credentials token, then `sendMail` with inline attachments. It also models the attachment map-and-filter and the single fall-back to SMTP when Graph throws.
- `Http` (http.dfy) holds the per-request state of a handler as a class `Exchange`. The state is the temporary files on disk, the responses sent (at most one: a second attempt throws), the external steps in order, and the errors that escape the handler.
- `Server` (server.dfy) models the `/trascrivi` handler of `serverMail.js` as imperative methods on that state. The handler has early exits for no file (400), a conversion error (500), an empty upstream body (502) and a thrown error (500). Its transcript path notifies, cleans up, then answers 200. The upstream body is read defensively: an empty body, an unparsable one (read as `{}`), or a parsed value with an optional `text`.
- `LegacyServer` (legacy_server.dfy) models the `serverOld.js` handler. It has no file guard, chooses the response from `text`, `error` or neither, and unlinks both files after responding.
- `Client` (client.dfy) holds the pure client pieces: the API base, the 1000-byte upload guard, the result line, the `mm:ss` timer, the user-menu defaults and the dropdown toggle. `Text` (text.dfy) holds the JavaScript string operations they use: `includes`, `String(n)` and `padStart`.
- `Recorder` (recorder.dfy) and `LegacyRecorder` (legacy_recorder.dfy) are the recorder controllers of `public/app.js` and `app.js`, as classes with one method per browser event. They hold the button flags, `audioChunks`, the log, the result line, the timer (`public/app.js` only) and the uploads made.

The model follows the code in these places:
- The response field is `testo`.
- The mail server removes the temporary files only on the 200 path. The 500 and 502 exits leave them on disk.
- The old server has no 400 guard: with no file, `req.file.path` throws and no response is sent.

Some edge cases come straight from the code as written:
- A body that is the JSON literal `null` makes `data.text` throw, which gives a 500 in both servers.
- In `serverOld.js`, an unlink failure after the response makes the `catch` block try a second response. Express refuses it, and `Exchange.Respond` records that as an escaped `ERR_HTTP_HEADERS_SENT`.

## Model

| member | source | states |
|---|---|---|
| `Auth.EnvOr` | serverMail.js:35 | `process.env.X \|\| fallback`: an unset or empty variable gives the fallback, otherwise its value |
| `Auth.ClientPrincipal` | serverMail.js:73-85 | a missing or empty header gives null, and so does a decode failure; a non-empty header that decodes gives exactly its decoded principal |
| `Auth.DevUser` | serverMail.js:90-97 | the local user has groups exactly `["LOCAL-DEVELOPER"]` and a name and an email |
| `Auth.RequirePwaAccessGroup` | serverMail.js:88-133 | local mode always calls next with the simulated user. In Azure mode no principal or a falsy one gives 401. Access iff some "groups" claim carries the required group, else 403. groups = the "groups" values in claim order. name = first "name" claim or null. email = first "preferred_username" claim, else first "emails" claim, else null |
| `Claims.FindIndex` | serverMail.js:120-124 | `find`: none iff no claim has the type; otherwise the earliest index with that type |
| `Claims.FirstVal` | serverMail.js:124-127 | the value of the first claim of the type; none iff there is no such claim |
| `Claims.Vals` | serverMail.js:110-112 | filter-then-map yields at most one value per claim |
| `Claims.ValsAppend` | serverMail.js:110-112 | filter-then-map keeps claim order: it distributes over concatenation |
| `Claims.InVals` | serverMail.js:110-114 | a value is among the groups iff some claim of that type carries it (both directions) |
| `Mail.GraphAttachments` | serverMail.js:196-214 | map-then-filter yields at most one entry per descriptor |
| `Mail.GraphAttachmentOne` | serverMail.js:197-213 | a descriptor whose path exists maps to that file's bytes; else one with content maps to the content; else it is dropped |
| `Mail.GraphAttachmentsAppend` | serverMail.js:196-214 | the mapping preserves input order: it distributes over concatenation |
| `Mail.InGraphAttachments` | serverMail.js:196-214 | an entry is sent iff some descriptor maps to it (both directions) |
| `Mail.GraphAttachmentsKeepAll` | serverMail.js:196-214 | when every descriptor has a source, nothing is dropped and entry i comes from descriptor i |
| `Mail.AccessToken` | serverMail.js:177-190 | a token iff the body has a non-empty `access_token`; a missing one throws the fixed message; a failed request throws its own |
| `Mail.SendMailGraph` | serverMail.js:192-241 | the message (body and mapped attachments) is posted iff a token came; it succeeds iff there is a token and the POST is ok; a non-ok POST throws "Graph sendMail error: " plus the body |
| `Mail.Dispatch` | serverMail.js:343-361 | delivered by Graph iff Graph succeeds; by SMTP iff Graph throws and SMTP succeeds; undelivered otherwise |
| `Http.Mp3Path` | serverMail.js:269-270 | the output path is the input path followed by ".mp3", so it differs from the input |
| `Http.Exchange.Respond` | serverOld.js:57-69 | the first response is sent and takes its place in the step trace; any later attempt sends nothing, adds no step and throws "Cannot set headers after they are sent to the client" |
| `Http.Exchange.UnlinkFile` | serverMail.js:364-366 | `fs.unlinkSync` succeeds iff the file exists and may be deleted; then only that file leaves the disk; otherwise it throws ENOENT, or a platform error such as EACCES, and nothing changes |
| `Server.Classify` | serverMail.js:312-331 | an empty body gives 502 and only it does. A thrown request, or `null` as the body, gives 500 with "❌ Errore nella richiesta a OpenAI: " plus the error's message. A non-empty `text` is the transcript. Any other non-empty body (unparsable, no `text`, an empty `text`) gives the transcript "❌ Nessuna trascrizione ricevuta". A transcript is never empty |
| `Server.UnparsableIsEmptyObject` | serverMail.js:323-331 | an unparsable body gets the same verdict as `{}` |
| `Server.BothAttachmentsSent` | serverMail.js:338-341 | with the mp3 on disk and a non-empty transcript, Graph receives both attachments, the mp3 first |
| `Server.NotifySteps` | serverMail.js:343-361 | the token request comes first; the Graph POST runs iff a token came, and carries the message `sendMailGraph` built; SMTP is tried iff Graph threw, once and last; there are no other steps |
| `Server.Notify` | serverMail.js:343-361 | records exactly those notification steps and reports the delivery outcome; the disk and the response are untouched |
| `Server.CleanUp` | serverMail.js:363-373 | unlinks the input, then the output only if the first unlink succeeded; the files left are stated for each outcome |
| `Server.Trascrivi` | serverMail.js:255-383 | Exactly one response and nothing escapes. No file: 400 with no step run. Conversion error: 500, with only the conversion run and the input left on disk. 502/500 from the reply: no mail and no cleanup, so both files stay. Otherwise: notification, then cleanup, and the 200 with the transcript as the last step, whatever the mail and cleanup outcomes. Each exit's full step trace, response included, is stated |
| `LegacyServer.Answer` | serverOld.js:57-63 | 200 iff `text` is non-empty, carrying it. Otherwise 400 with "❌ Errore OpenAI: " plus the error's message ("undefined" when absent), or 400 "❌ Nessuna trascrizione ricevuta" when there is no error. A `null` body throws |
| `LegacyServer.CleanUp` | serverOld.js:65-70 | unlinks the input, then the output; a failure makes the catch try a second response, which throws |
| `LegacyServer.Trascrivi` | serverOld.js:17-71 | No file: `req.file.path` throws and no response is sent. Conversion error: 500 and no transcription. A thrown request or decode: 500 "❌ Errore nel server: " plus the message, with no cleanup. Otherwise the chosen response is sent first and both unlinks follow it in the step trace |
| `Text.ContainsIff` | public/app.js:190-192 | `includes` holds iff some window of the host name spells the substring (both directions) |
| `Text.ValueDigits` | public/app.js:159-160 | `String(n)` reads back to n |
| `Text.PadStartShape` | public/app.js:159-160 | `padStart` pads on the left up to the width with the fill character and never truncates |
| `Client.ApiBase` | public/app.js:190-194 | "http://localhost:3000" when the host name contains "127.0.0.1" or "localhost" at some offset, otherwise the origin |
| `Client.BlobSizeAppend` | public/app.js:176-177 | the blob size is additive over the chunk list |
| `Client.ResultText` | public/app.js:205 | "📝 Testo: " followed by `data.testo` when it is non-empty, otherwise by "Errore o risposta vuota" |
| `Client.TwoDigitsReadsBack` | public/app.js:159-160 | a padded field is all digits, at least two of them, and reads back to its number; below 100 it is exactly two |
| `Client.ClockReadsBack` | public/app.js:158-161 | the timer's `mm:ss` has minutes × 60 + seconds = whole elapsed seconds, with seconds below 60; below an hour it is exactly five characters |
| `Client.UserProfile` | public/app.js:22-39 | name = first "name" claim, else "Utente"; email = first "preferred_username" claim, else "N/A"; nothing when the lookup throws |
| `Client.Toggle` | public/app.js:18-20 | the dropdown becomes "none" iff it was "block", and "block" otherwise |
| `Client.ToggleTwice` | public/app.js:18-20 | between "block" and "none", two clicks restore the display |
| `Client.Click` | public/app.js:79-83 | a click outside the menu closes the dropdown; one inside toggles it |
| `Recorder.Recorder.constructor` | public/app.js:100-125 | page load: the log holds its header, with no recorder, no chunks, no timer and no uploads |
| `Recorder.Recorder.Record` | public/app.js:127-219 | the log restarts from its header. With a microphone and a started recorder: a recording recorder, empty chunks, record disabled and stop enabled. A refused microphone: an error line and message, with recorder, chunks and buttons unchanged. A recorder that cannot be built: the "granted" line and then the error, with nothing replaced. A failing `start()`: the same lines, but a new inactive recorder and empty chunks stay installed. The buttons change only on success |
| `Recorder.Recorder.Started` | public/app.js:149-163 | starts the timer at the given time, showing "00:00". An interval that was still running is overwritten without being cleared and becomes a stray that keeps firing |
| `Recorder.Recorder.Data` | public/app.js:144-147 | the chunk is appended at the end of `audioChunks` and a line logged |
| `Recorder.Recorder.Tick` | public/app.js:157-162 | any firing interval, stray ones included, sets the timer text to the whole seconds elapsed since the latest start |
| `Recorder.Recorder.Stop` | public/app.js:221-233 | with a live recorder, a stop is scheduled, record is enabled and stop disabled; otherwise the buttons are unchanged and only log lines are appended |
| `Recorder.Recorder.StopTimeout` | public/app.js:224-227 | the scheduled stop logs and leaves the recorder inactive |
| `Recorder.Recorder.Stopped` | public/app.js:165-210 | The interval `timerInterval` refers to is cleared (`timerInterval` null); stray intervals keep firing and can overwrite "✅ Registrazione completata". A blob under 1000 bytes is not uploaded and the result shows "⚠️ Nessun audio registrato". Otherwise one upload to the API base, and the result shows the reply's text or the communication error. The log only grows |
| `LegacyRecorder.LegacyRecorder.constructor` | app.js:23-39 | page load: the log holds its header, with no recorder, no chunks and no uploads |
| `LegacyRecorder.LegacyRecorder.Record` | app.js:41-116 | the log restarts from its header. With a microphone and a started recorder: empty chunks, record disabled and stop enabled. A refused microphone: an error line and message, with the rest unchanged. A recorder that cannot be built: the "granted" line and then the error, with nothing replaced. A failing `start()`: the same lines, but a new inactive recorder and empty chunks stay installed |
| `LegacyRecorder.LegacyRecorder.Started` | app.js:64-67 | only a log line and the "recording" result |
| `LegacyRecorder.LegacyRecorder.Data` | app.js:59-62 | the chunk is appended at the end of `audioChunks` and a line logged |
| `LegacyRecorder.LegacyRecorder.Stop` | app.js:118-130 | with a live recorder the buttons flip back; on a missing or inactive one only log lines are appended |
| `LegacyRecorder.LegacyRecorder.StopTimeout` | app.js:121-124 | the scheduled stop logs and leaves the recorder inactive |
| `LegacyRecorder.LegacyRecorder.Stopped` | app.js:69-107 | a blob under 1000 bytes is not uploaded and the result shows "⚠️ Nessun audio registrato"; otherwise one upload, and the result shows the reply's text or the communication error |

## Left out

- Express, CORS, static serving, the EasyAuth callback, the catch-all routes, the `/api/debug/auth` route and multer storage are framework plumbing. The uploaded file's path is a parameter.
- The ffmpeg process is reduced to a success or an error, and its codec parameters are not modelled. On an error the model assumes no output file was written.
- The 300 ms pause before the transcription call, the `setInterval` and 500 ms `setTimeout` scheduling, `Date.now()`-based attachment names and the `toLocaleString` mail subject are timing and locale concerns. Names and times are parameters.
- The HTTP calls to OpenAI, to the identity endpoint (the OAuth 2.0 client-credentials grant, section 4.4 of RFC 6749) and to Graph, plus nodemailer/SMTP and its start-up `verify`, keep only their outcomes. The recipient, sender and subject of the mail are not modelled.
- Base64 (RFC 4648), UTF-8 and `JSON.parse` are opaque: the gate takes a `decode` function, and attachments carry the source of their bytes instead of their base64 text.
- Claims are assumed to be `{typ, val}` records of strings inside an array. A non-array `claims` would make `.filter` throw, and that path is not modelled. Non-string `text`, `testo` or `error` values are not modelled either.
- A failure to read the mp3 while building the Graph attachments (`readFileSync`, before the POST) is folded into the Graph send outcome as a failed request. The step trace then shows a Graph POST that was not made.
- A reply to the client's upload whose JSON is `null` logs the reply line and then the fetch-error line. No `ServerReply` value covers it, and neither server sends such a reply.
- Errors escaping a handler are recorded. What Node does next is not modelled: the process-level handlers of `serverMail.js` only log, and without them an unhandled rejection may stop the process.
- Concurrency between requests is not modelled.
- MediaRecorder, getUserMedia, Blob contents, DOM rendering, scroll position and the timer's CSS classes are not modelled. Neither is the avatar (`loadMicrosoftAvatar` and its object URLs). A recorder's "paused" state is not modelled.
- The `onstop` handler awaits the upload, but it is modelled as one step, so other events cannot interleave with it.
- Recorder.Recorder.Record and LegacyRecorder.LegacyRecorder.Record: the `getUserMedia` await is modelled as one step with the log reset before it. A stop scheduled by an earlier Stop click cannot fire during that await, so the model has no log where "⏹️ Arresto registrazione forzato" (and the old recorder's upload) comes between the reset and "✅ Accesso microfono ottenuto". Events from a recorder that a later Record replaced are not modelled.
- The model assumes the `debug-log` element exists.
- The initial button states and result text come from the page's HTML, which is not part of this model. They are constructor parameters.
- Recorder.Recorder.Tick: requires the clock not to run backwards (`now >= startTime`). A negative elapsed time, which JavaScript would render with a minus sign, is not modelled.
