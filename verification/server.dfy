/**
 * The `/trascrivi` handler of the mail-enabled server: intake, conversion to
 * mp3, transcription, mail notification (Graph, then SMTP once), cleanup of
 * the two temporary files, and a single JSON response `{ testo }`. Each
 * external call is an outcome supplied by the caller.
 */
module Server {
  import opened Wrappers
  import opened Http
  import Mail

  const NoFile: string := "❌ Nessun file ricevuto"
  const ConversionFailed: string := "Errore nella conversione audio"
  const EmptyUpstream: string := "❌ Nessuna risposta da OpenAI (vuota)"
  const NoTranscript: string := "❌ Nessuna trascrizione ricevuta"
  const RequestErrorPrefix: string := "❌ Errore nella richiesta a OpenAI: "
  /** The TypeError `data.text` throws when the body was the JSON literal `null`. */
  const NullText: string := "Cannot read properties of null (reading 'text')"
  /** The transcription model this server asks for. */
  const Model: string := "whisper-1"

  /** What `JSON.parse(rawText)` gave: it threw, the literal null, or a value with an optional `text`. */
  datatype Parsed = Unparsable | ParsedNull | ParsedValue(text: Option<string>)

  /** The transcription call: the request throws, or a raw body with its parse. */
  datatype Reply = RequestFailed(message: string) | Body(raw: string, parsed: Parsed)

  /** The transcript to send on, or the response that ends the request. */
  datatype Verdict = Transcript(testo: string) | Abort(response: Response)

  /** The defensive reading of the transcription reply (empty, unparsable, parsed). */
  function Classify(reply: Reply): (v: Verdict)
    // every transcript is a non-empty phrase: the text received or the fixed sentinel
    ensures v.Transcript? ==> v.testo != ""
    ensures v.Transcript? ==> v.testo == NoTranscript || (reply.Body? && reply.parsed == ParsedValue(Some(v.testo)))
    ensures (reply.Body? && reply.raw != "" && reply.parsed.ParsedValue? && reply.parsed.text.Some?
             && reply.parsed.text.value != "") ==> v == Transcript(reply.parsed.text.value)
    // any other non-empty, non-null body (unparsable, no `text`, an empty `text`) gets the sentinel
    ensures (reply.Body? && reply.raw != "" && !reply.parsed.ParsedNull?
             && !(reply.parsed.ParsedValue? && reply.parsed.text.Some? && reply.parsed.text.value != ""))
            ==> v == Transcript(NoTranscript)
    // 502 exactly for the empty body; a thrown error is a 500 with its message
    ensures v.Abort? ==> v.response.status == 500 || v.response.status == 502
    ensures (v.Abort? && v.response.status == 502) <==> reply.Body? && reply.raw == ""
    ensures reply.Body? && reply.raw == "" ==> v == Abort(Response(502, EmptyUpstream))
    ensures reply.RequestFailed? ==> v == Abort(Response(500, RequestErrorPrefix + reply.message))
    ensures reply.Body? && reply.raw != "" && reply.parsed.ParsedNull? ==> v == Abort(Response(500, RequestErrorPrefix + NullText))
  {
    match reply
    case RequestFailed(m) => Abort(Response(500, RequestErrorPrefix + m))
    case Body(raw, parsed) =>
      if raw == "" then Abort(Response(502, EmptyUpstream))
      else match parsed
        case Unparsable => Transcript(NoTranscript)
        case ParsedNull => Abort(Response(500, RequestErrorPrefix + NullText))
        case ParsedValue(text) =>
          Transcript(if text.Some? && text.value != "" then text.value else NoTranscript)
  }

  /** A body that does not parse is read as `{}`: the same verdict as an object without `text`. */
  lemma UnparsableIsEmptyObject(raw: string)
    ensures Classify(Body(raw, Unparsable)) == Classify(Body(raw, ParsedValue(None)))
    ensures raw != "" ==> Classify(Body(raw, Unparsable)) == Transcript(NoTranscript)
  {
  }

  /** The two descriptors the handler mails: the mp3 by path and the transcript inline. */
  function MailAttachments(audioName: string, output: string, textName: string, testo: string): seq<Mail.Attachment> {
    [Mail.Attachment(audioName, Some(output), None), Mail.Attachment(textName, None, Some(testo))]
  }

  /** With the mp3 on disk and a non-empty transcript, Graph receives both attachments, mp3 first. */
  lemma BothAttachmentsSent(audioName: string, output: string, textName: string,
                            testo: string, disk: set<string>)
    requires output != "" && output in disk && testo != ""
    ensures Mail.GraphAttachments(MailAttachments(audioName, output, textName, testo), disk)
            == [Mail.GraphAttachment(audioName, Mail.FileContents(output)),
                Mail.GraphAttachment(textName, Mail.TextContents(testo))]
  {
  }

  /** The notification steps: the token request, the Graph POST if a token came, SMTP iff Graph failed. */
  function NotifySteps(graph: Mail.GraphAttempt, testo: string, atts: seq<Mail.Attachment>): (r: seq<Step>)
    ensures |r| >= 1 && r[0] == RequestToken
    ensures SendSmtp(testo, atts) in r <==> graph.failure.Some?
    ensures (exists m :: PostGraph(m) in r) <==> graph.posted.Some?
    ensures graph.posted.Some? ==> |r| >= 2 && r[1] == PostGraph(graph.posted.value)
    ensures forall i :: 0 <= i < |r| - 1 ==> !r[i].SendSmtp?
    ensures |r| == 1 + (if graph.posted.Some? then 1 else 0) + (if graph.failure.Some? then 1 else 0)
  {
    [RequestToken]
    + (if graph.posted.Some? then [PostGraph(graph.posted.value)] else [])
    + (if graph.failure.Some? then [SendSmtp(testo, atts)] else [])
  }

  /** The mail block: Graph, then SMTP once if Graph threw; an SMTP error is swallowed. */
  method Notify(ex: Exchange, testo: string, atts: seq<Mail.Attachment>,
                token: Mail.TokenReply, send: Mail.SendReply, smtpOk: bool)
    returns (delivery: Mail.Delivery)
    modifies ex`steps
    ensures delivery == Mail.Dispatch(Mail.SendMailGraph(token, send, testo, atts, ex.files), smtpOk)
    ensures ex.steps == old(ex.steps) + NotifySteps(Mail.SendMailGraph(token, send, testo, atts, ex.files), testo, atts)
  {
    ex.Record(RequestToken);
    var graph := Mail.SendMailGraph(token, send, testo, atts, ex.files);
    if graph.posted.Some? {
      ex.Record(PostGraph(graph.posted.value));
    }
    if graph.failure.Some? {
      ex.Record(SendSmtp(testo, atts));
    }
    delivery := Mail.Dispatch(graph, smtpOk);
  }

  /** The cleanup `try`: unlink the input, then the output; the first failure ends the block. */
  method CleanUp(ex: Exchange, input: string, output: string)
    requires input != output
    modifies ex`files, ex`steps
    ensures ex.steps == old(ex.steps) + [Unlink(input)]
                        + (if Removable(old(ex.files), ex.locked, input) then [Unlink(output)] else [])
    ensures ex.files == if !Removable(old(ex.files), ex.locked, input) then old(ex.files)
                        else if Removable(old(ex.files), ex.locked, output) then old(ex.files) - {input, output}
                        else old(ex.files) - {input}
  {
    var error := ex.UnlinkFile(input);
    if error.None? {
      error := ex.UnlinkFile(output);
    }
  }

  /**
   * The handler. `upload` is `req.file.path` (None: no file), `converted` the
   * encoder's outcome, then the transcription reply, the two Graph replies and
   * whether the SMTP transport succeeds. `delivery` is what the mail log says.
   */
  method Trascrivi(ex: Exchange, upload: Option<string>, converted: bool, reply: Reply,
                   token: Mail.TokenReply, send: Mail.SendReply, smtpOk: bool,
                   audioName: string, textName: string)
    returns (delivery: Option<Mail.Delivery>)
    requires ex.responses == [] && ex.steps == [] && ex.escaped == []
    modifies ex
    // exactly one response, and nothing escapes the handler
    ensures ex.Valid() && |ex.responses| == 1 && ex.escaped == []
    // no file: 400 before any conversion
    ensures upload.None? ==>
      ex.responses == [Response(400, NoFile)] && ex.steps == [Send(Response(400, NoFile))]
      && ex.files == old(ex.files) && delivery.None?
    ensures upload.Some? ==> |ex.steps| >= 1 && ex.steps[0] == Convert(upload.value, Mp3Path(upload.value))
    // conversion error: 500, nothing else runs, the upload stays on disk
    ensures upload.Some? && !converted ==>
      && ex.responses == [Response(500, ConversionFailed)]
      && ex.steps == [Convert(upload.value, Mp3Path(upload.value)), Send(Response(500, ConversionFailed))]
      && ex.files == old(ex.files) && delivery.None?
    // reply that ends the request (502 or 500): no mail, no cleanup, both files stay
    ensures upload.Some? && converted && Classify(reply).Abort? ==>
      && ex.responses == [Classify(reply).response]
      && ex.steps == [Convert(upload.value, Mp3Path(upload.value)), Transcribe(Mp3Path(upload.value), Model),
                      Send(Classify(reply).response)]
      && ex.files == old(ex.files) + {Mp3Path(upload.value)} && delivery.None?
    // transcript: notify, clean up, and only then answer 200, whatever the mail and cleanup outcomes
    ensures upload.Some? && converted && Classify(reply).Transcript? ==>
      var input := upload.value;
      var output := Mp3Path(input);
      var testo := Classify(reply).testo;
      var atts := MailAttachments(audioName, output, textName, testo);
      var mid := old(ex.files) + {output};
      var graph := Mail.SendMailGraph(token, send, testo, atts, mid);
      && ex.responses == [Response(200, testo)]
      && delivery == Some(Mail.Dispatch(graph, smtpOk))
      && ex.steps == [Convert(input, output), Transcribe(output, Model)]
                     + NotifySteps(graph, testo, atts)
                     + [Unlink(input)]
                     + (if Removable(mid, ex.locked, input) then [Unlink(output)] else [])
                     + [Send(Response(200, testo))]
      && ex.files == if !Removable(mid, ex.locked, input) then mid
                     else if Removable(mid, ex.locked, output) then mid - {input, output}
                     else mid - {input}
  {
    delivery := None;
    if upload.None? {
      ex.Respond(Response(400, NoFile));
      return;
    }
    var input := upload.value;
    var output := Mp3Path(input);
    ex.Record(Convert(input, output));
    if !converted {
      ex.Respond(Response(500, ConversionFailed));
      return;
    }
    ex.Create(output);
    ex.Record(Transcribe(output, Model));
    var verdict := Classify(reply);
    if verdict.Abort? {
      ex.Respond(verdict.response);
      return;
    }
    var testo := verdict.testo;
    var atts := MailAttachments(audioName, output, textName, testo);
    var d := Notify(ex, testo, atts, token, send, smtpOk);
    delivery := Some(d);
    CleanUp(ex, input, output);
    ex.Respond(Response(200, testo));
  }
}
