/**
 * The `/trascrivi` handler of the earlier server without mail: conversion to
 * mp3, one transcription call, a response chosen from `text`, `error` or
 * neither, then removal of both temporary files inside the same `try`.
 */
module LegacyServer {
  import opened Wrappers
  import opened Http

  const ConversionFailed: string := "Errore nella conversione audio"
  const ServerErrorPrefix: string := "❌ Errore nel server: "
  const OpenAiErrorPrefix: string := "❌ Errore OpenAI: "
  const NoTranscript: string := "❌ Nessuna trascrizione ricevuta"
  /** The TypeError `req.file.path` throws when no file was uploaded. */
  const UndefinedPath: string := "Cannot read properties of undefined (reading 'path')"
  /** The TypeError `data.text` throws when the body was the JSON literal `null`. */
  const NullText: string := "Cannot read properties of null (reading 'text')"
  /** The transcription model this server asks for. */
  const Model: string := "gpt-4o-mini-transcribe"

  /** The `error` object of a transcription reply; its `message` may be absent. */
  datatype ApiError = ApiError(message: Option<string>)

  /** What `response.json()` gave: the literal null, or a value with optional `text` and `error`. */
  datatype Json = JsonNull | JsonValue(text: Option<string>, error: Option<ApiError>)

  /** The transcription call: the request or `response.json()` throws, or a decoded body. */
  datatype Reply = RequestFailed(message: string) | Parsed(json: Json)

  /** `error.message` inside a string concatenation: an absent message reads "undefined". */
  function MessageText(e: ApiError): string {
    e.message.GetOr("undefined")
  }

  /** The if / else-if / else response chain, or the TypeError message when the body is null. */
  function Answer(json: Json): (r: Result<Response, string>)
    ensures r.Failure? <==> json.JsonNull?
    ensures r.Failure? ==> r.error == NullText
    // 200 exactly when there is a non-empty text, and it carries that text
    ensures r.Success? ==> (r.value.status == 200 <==> json.text.Some? && json.text.value != "")
    ensures r.Success? && r.value.status == 200 ==> r.value.testo == json.text.value
    // otherwise 400, with the provider's message when an error came back
    ensures r.Success? && r.value.status != 200 ==>
      r.value.status == 400 &&
      r.value.testo == if json.error.Some? then OpenAiErrorPrefix + MessageText(json.error.value) else NoTranscript
  {
    match json
    case JsonNull => Failure(NullText)
    case JsonValue(text, error) =>
      if text.Some? && text.value != "" then Success(Response(200, text.value))
      else if error.Some? then Success(Response(400, OpenAiErrorPrefix + MessageText(error.value)))
      else Success(Response(400, NoTranscript))
  }

  /** The unlinks after the response: input, then output; a failure goes to the `catch`, which tries to answer 500 again. */
  method CleanUp(ex: Exchange, input: string, output: string)
    requires ex.Valid() && |ex.responses| == 1 && input != output
    modifies ex`files, ex`steps, ex`responses, ex`escaped
    ensures ex.Valid() && ex.responses == old(ex.responses)
    ensures ex.steps == old(ex.steps) + [Unlink(input)]
                        + (if Removable(old(ex.files), ex.locked, input) then [Unlink(output)] else [])
    ensures ex.files == if !Removable(old(ex.files), ex.locked, input) then old(ex.files)
                        else if Removable(old(ex.files), ex.locked, output) then old(ex.files) - {input, output}
                        else old(ex.files) - {input}
    // a failed unlink makes the catch block send a second response, which throws
    ensures ex.escaped == old(ex.escaped) +
              if Removable(old(ex.files), ex.locked, input) && Removable(old(ex.files), ex.locked, output)
              then [] else [HeadersSent]
  {
    var error := ex.UnlinkFile(input);
    if error.Some? {
      ex.Respond(Response(500, ServerErrorPrefix + error.value));
      return;
    }
    error := ex.UnlinkFile(output);
    if error.Some? {
      ex.Respond(Response(500, ServerErrorPrefix + error.value));
    }
  }

  /** The handler. `upload` is `req.file.path`, None when no file was sent. */
  method Trascrivi(ex: Exchange, upload: Option<string>, converted: bool, reply: Reply)
    requires ex.responses == [] && ex.steps == [] && ex.escaped == []
    modifies ex
    ensures ex.Valid()
    // no file: `req.file.path` throws before the try; no response is sent
    ensures upload.None? ==>
      ex.responses == [] && ex.escaped == [UndefinedPath] && ex.steps == [] && ex.files == old(ex.files)
    ensures upload.Some? ==> |ex.responses| == 1 && |ex.steps| >= 1 && ex.steps[0] == Convert(upload.value, Mp3Path(upload.value))
    // conversion error: 500, the transcription call is never made
    ensures upload.Some? && !converted ==>
      && ex.responses == [Response(500, ConversionFailed)]
      && ex.steps == [Convert(upload.value, Mp3Path(upload.value)), Send(Response(500, ConversionFailed))]
      && ex.files == old(ex.files) && ex.escaped == []
    // the request, the JSON decoding or `data.text` throws: 500 with the message, no cleanup
    ensures upload.Some? && converted && (reply.RequestFailed? || reply.json.JsonNull?) ==>
      && ex.responses == [Response(500, ServerErrorPrefix + if reply.RequestFailed? then reply.message else NullText)]
      && ex.steps == [Convert(upload.value, Mp3Path(upload.value)), Transcribe(Mp3Path(upload.value), Model),
                      Send(ex.responses[0])]
      && ex.files == old(ex.files) + {Mp3Path(upload.value)} && ex.escaped == []
    // otherwise: the chosen response goes out first, then both files are removed
    ensures upload.Some? && converted && reply.Parsed? && reply.json.JsonValue? ==>
      var input := upload.value;
      var output := Mp3Path(input);
      var mid := old(ex.files) + {output};
      && ex.responses == [Answer(reply.json).value]
      && ex.steps == [Convert(input, output), Transcribe(output, Model), Send(Answer(reply.json).value), Unlink(input)]
                     + (if Removable(mid, ex.locked, input) then [Unlink(output)] else [])
      && ex.files == (if !Removable(mid, ex.locked, input) then mid
                      else if Removable(mid, ex.locked, output) then mid - {input, output}
                      else mid - {input})
      && ex.escaped == if Removable(mid, ex.locked, input) && Removable(mid, ex.locked, output)
                       then [] else [HeadersSent]
  {
    if upload.None? {
      ex.Escape(UndefinedPath);
      return;
    }
    var input := upload.value;
    var output := Mp3Path(input);
    ex.Record(Convert(input, output));
    if !converted {
      ex.Respond(Response(500, ConversionFailed));
      return;
    }
    ex.Create(output);
    ex.Record(Transcribe(output, Model));
    if reply.RequestFailed? {
      ex.Respond(Response(500, ServerErrorPrefix + reply.message));
      return;
    }
    match Answer(reply.json)
    case Failure(m) =>
      ex.Respond(Response(500, ServerErrorPrefix + m));
    case Success(response) =>
      ex.Respond(response);
      CleanUp(ex, input, output);
  }
}
