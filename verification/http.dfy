/**
 * The per-request state a `/trascrivi` handler works on: the temporary files on
 * disk, the response(s) it sends, the external steps it runs, and the errors
 * that escape it. Express sends one response per request; a second attempt
 * throws `ERR_HTTP_HEADERS_SENT`, which is recorded as an escaped error.
 */
module Http {
  import opened Wrappers
  import Mail

  /** `res.status(status).json({ testo })`. */
  datatype Response = Response(status: int, testo: string)

  /** The external effects of a handler, in the order it runs them. */
  datatype Step =
    | Convert(input: string, output: string)
    | Transcribe(path: string, model: string)
    | RequestToken
    | PostGraph(message: Mail.GraphMessage)
    | SendSmtp(text: string, attachments: seq<Mail.Attachment>)
    | Unlink(path: string)
    | Send(response: Response)

  /** The encoder writes next to the upload, with ".mp3" appended. */
  function Mp3Path(input: string): (r: string)
    ensures |r| == |input| + 4 && r[..|input|] == input && r[|input|..] == ".mp3"
    ensures r != input
  {
    input + ".mp3"
  }

  const HeadersSent: string := "Cannot set headers after they are sent to the client"

  /** The message `fs.unlinkSync` throws with; a file that may not be deleted gets a platform error such as EACCES. */
  function UnlinkError(path: string, present: bool): string {
    if present then "EACCES: permission denied, unlink '" + path + "'"
    else "ENOENT: no such file or directory, unlink '" + path + "'"
  }

  /** `fs.unlinkSync(path)` would succeed. */
  predicate Removable(files: set<string>, locked: set<string>, path: string) {
    path in files && path !in locked
  }

  class Exchange {
    /** Paths that exist in the upload directory. */
    var files: set<string>
    /** Paths the process may not delete. */
    const locked: set<string>
    /** Responses sent, at most one. */
    var responses: seq<Response>
    /** External steps run so far. */
    var steps: seq<Step>
    /** Errors thrown out of the handler (unhandled rejections). */
    var escaped: seq<string>

    ghost predicate Valid()
      reads this
    {
      |responses| <= 1
    }

    constructor (files: set<string>, locked: set<string>)
      ensures this.files == files && this.locked == locked
      ensures responses == [] && steps == [] && escaped == [] && Valid()
    {
      this.files := files;
      this.locked := locked;
      responses, steps, escaped := [], [], [];
    }

    method Record(step: Step)
      modifies this`steps
      ensures steps == old(steps) + [step]
    {
      steps := steps + [step];
    }

    /** An error is thrown out of the handler. */
    method Escape(message: string)
      modifies this`escaped
      ensures escaped == old(escaped) + [message]
    {
      escaped := escaped + [message];
    }

    /** A file appears on disk (the encoder wrote it). */
    method Create(path: string)
      modifies this`files
      ensures files == old(files) + {path}
    {
      files := files + {path};
    }

    /** Sends a response, a step of its own; once one has gone out, the attempt throws instead. */
    method Respond(r: Response)
      requires Valid()
      modifies this`responses, this`escaped, this`steps
      ensures Valid()
      ensures old(responses) == [] ==>
        responses == [r] && steps == old(steps) + [Send(r)] && escaped == old(escaped)
      ensures old(responses) != [] ==>
        responses == old(responses) && steps == old(steps) && escaped == old(escaped) + [HeadersSent]
    {
      if responses == [] {
        responses := [r];
        steps := steps + [Send(r)];
      } else {
        escaped := escaped + [HeadersSent];
      }
    }

    /** `fs.unlinkSync(path)`: None on success, otherwise the message it throws. */
    method UnlinkFile(path: string) returns (error: Option<string>)
      modifies this`files, this`steps
      ensures steps == old(steps) + [Unlink(path)]
      ensures error.None? <==> Removable(old(files), locked, path)
      ensures error.None? ==> files == old(files) - {path}
      ensures error.Some? ==> files == old(files) && error.value == UnlinkError(path, path in old(files))
    {
      steps := steps + [Unlink(path)];
      if path in files && path !in locked {
        files := files - {path};
        error := None;
      } else {
        error := Some(UnlinkError(path, path in files));
      }
    }
  }
}
