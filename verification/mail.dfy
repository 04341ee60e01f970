/**
 * The notification side of `/trascrivi`: the Microsoft Graph `sendMail` path
 * (client-credentials token, then a JSON message with inline attachments) and
 * the SMTP fallback tried once when Graph fails. The HTTP exchanges and the
 * SMTP transport are outcomes supplied by the caller; base64 encoding is left
 * abstract, so an attachment carries where its bytes come from.
 */
module Mail {
  import opened Wrappers

  /** A nodemailer attachment descriptor: a file name and a path or an inline string. */
  datatype Attachment = Attachment(filename: string, path: Option<string>, content: Option<string>)

  /** The bytes a Graph file attachment carries (before base64): a file's contents, or a string's. */
  datatype Payload = FileContents(path: string) | TextContents(text: string)

  /** A `#microsoft.graph.fileAttachment` entry. */
  datatype GraphAttachment = GraphAttachment(name: string, payload: Payload)

  /** `a.path && fs.existsSync(a.path)`; `disk` is the set of existing paths. */
  predicate FromFile(a: Attachment, disk: set<string>) {
    a.path.Some? && a.path.value != "" && a.path.value in disk
  }

  /** `a.content` is truthy. */
  predicate FromContent(a: Attachment) {
    a.content.Some? && a.content.value != ""
  }

  /** The callback of `attachments.map`: an entry, or `null` for a descriptor with neither source. */
  function ToGraph(a: Attachment, disk: set<string>): Option<GraphAttachment> {
    if FromFile(a, disk) then Some(GraphAttachment(a.filename, FileContents(a.path.value)))
    else if FromContent(a) then Some(GraphAttachment(a.filename, TextContents(a.content.value)))
    else None
  }

  /** `attachments.map(...).filter(Boolean)`. */
  function GraphAttachments(atts: seq<Attachment>, disk: set<string>): (r: seq<GraphAttachment>)
    ensures |r| <= |atts|
  {
    if atts == [] then []
    else (match ToGraph(atts[0], disk) case Some(g) => [g] case None => [])
         + GraphAttachments(atts[1..], disk)
  }

  /** One descriptor: the file wins over the inline content, and one with neither is dropped. */
  lemma GraphAttachmentOne(a: Attachment, disk: set<string>)
    ensures FromFile(a, disk) ==> GraphAttachments([a], disk) == [GraphAttachment(a.filename, FileContents(a.path.value))]
    ensures !FromFile(a, disk) && FromContent(a) ==> GraphAttachments([a], disk) == [GraphAttachment(a.filename, TextContents(a.content.value))]
    ensures !FromFile(a, disk) && !FromContent(a) ==> GraphAttachments([a], disk) == []
  {
  }

  /** The mapping keeps input order: it distributes over concatenation. */
  lemma {:induction false} GraphAttachmentsAppend(a: seq<Attachment>, b: seq<Attachment>, disk: set<string>)
    ensures GraphAttachments(a + b, disk) == GraphAttachments(a, disk) + GraphAttachments(b, disk)
  {
    if a == [] {
      assert a + b == b;
    } else {
      assert (a + b)[0] == a[0] && (a + b)[1..] == a[1..] + b;
      GraphAttachmentsAppend(a[1..], b, disk);
    }
  }

  /** An entry is sent exactly when some descriptor maps to it. */
  lemma {:induction false} InGraphAttachments(atts: seq<Attachment>, disk: set<string>, g: GraphAttachment)
    ensures g in GraphAttachments(atts, disk) <==> exists i :: 0 <= i < |atts| && ToGraph(atts[i], disk) == Some(g)
  {
    if atts != [] {
      InGraphAttachments(atts[1..], disk, g);
      if exists i :: 0 <= i < |atts[1..]| && ToGraph(atts[1..][i], disk) == Some(g) {
        var i :| 0 <= i < |atts[1..]| && ToGraph(atts[1..][i], disk) == Some(g);
        assert ToGraph(atts[i + 1], disk) == Some(g);
      }
      if exists i :: 0 <= i < |atts| && ToGraph(atts[i], disk) == Some(g) {
        var i :| 0 <= i < |atts| && ToGraph(atts[i], disk) == Some(g);
        if i > 0 {
          assert ToGraph(atts[1..][i - 1], disk) == Some(g);
        }
      }
    }
  }

  /** When every descriptor has a source, nothing is dropped and position i maps descriptor i. */
  lemma {:induction false} GraphAttachmentsKeepAll(atts: seq<Attachment>, disk: set<string>)
    requires forall i :: 0 <= i < |atts| ==> FromFile(atts[i], disk) || FromContent(atts[i])
    ensures |GraphAttachments(atts, disk)| == |atts|
    ensures forall i :: 0 <= i < |atts| ==> Some(GraphAttachments(atts, disk)[i]) == ToGraph(atts[i], disk)
  {
    if atts != [] {
      GraphAttachmentsKeepAll(atts[1..], disk);
      var rest := GraphAttachments(atts[1..], disk);
      forall i | 0 <= i < |atts|
        ensures Some(GraphAttachments(atts, disk)[i]) == ToGraph(atts[i], disk)
      {
        if i > 0 {
          assert GraphAttachments(atts, disk)[i] == rest[i - 1];
          assert atts[1..][i - 1] == atts[i];
        }
      }
    }
  }

  const TokenError: string := "❌ Impossibile ottenere token da Microsoft Graph"
  const GraphErrorPrefix: string := "Graph sendMail error: "

  /** The token endpoint: the request or its JSON decoding throws, or a body with an optional `access_token`. */
  datatype TokenReply = TokenRequestFailed(message: string) | TokenBody(accessToken: Option<string>)

  /** `getGraphAccessToken`: the token, or the message of the error it throws. */
  function AccessToken(reply: TokenReply): (r: Result<string, string>)
    ensures r.Success? <==> reply.TokenBody? && reply.accessToken.Some? && reply.accessToken.value != ""
    ensures r.Success? ==> r.value == reply.accessToken.value
    ensures reply.TokenRequestFailed? ==> r == Failure(reply.message)
    ensures reply.TokenBody? && r.Failure? ==> r.error == TokenError
  {
    match reply
    case TokenRequestFailed(m) => Failure(m)
    case TokenBody(t) => if t.Some? && t.value != "" then Success(t.value) else Failure(TokenError)
  }

  /** The `sendMail` POST: it throws, or answers with `response.ok` and its body text. */
  datatype SendReply = SendRequestFailed(message: string) | SendStatus(ok: bool, errText: string)

  /** The message body and attachments posted to Graph. */
  datatype GraphMessage = GraphMessage(body: string, attachments: seq<GraphAttachment>)

  /** What `sendMailGraph` did: the message it posted, if it got that far, and the error it threw, if any. */
  datatype GraphAttempt = GraphAttempt(posted: Option<GraphMessage>, failure: Option<string>)

  /** `sendMailGraph(to, subject, bodyText, attachments)`. */
  function SendMailGraph(token: TokenReply, send: SendReply, bodyText: string,
                         atts: seq<Attachment>, disk: set<string>): (r: GraphAttempt)
    // the message is posted iff a token was obtained, and it carries the mapped attachments
    ensures r.posted.Some? <==> AccessToken(token).Success?
    ensures r.posted.Some? ==> r.posted.value == GraphMessage(bodyText, GraphAttachments(atts, disk))
    // it succeeds iff there is a token and the POST answered ok
    ensures r.failure.None? <==> AccessToken(token).Success? && send.SendStatus? && send.ok
    ensures AccessToken(token).Failure? ==> r.failure == Some(AccessToken(token).error)
    ensures AccessToken(token).Success? && send.SendStatus? && !send.ok ==>
              r.failure == Some(GraphErrorPrefix + send.errText)
  {
    match AccessToken(token)
    case Failure(e) => GraphAttempt(None, Some(e))
    case Success(_) =>
      var message := GraphMessage(bodyText, GraphAttachments(atts, disk));
      match send
      case SendRequestFailed(m) => GraphAttempt(Some(message), Some(m))
      case SendStatus(ok, errText) =>
        GraphAttempt(Some(message), if ok then None else Some(GraphErrorPrefix + errText))
  }

  datatype Channel = Graph | Smtp

  /** Who delivered the mail, if anyone. */
  datatype Delivery = Delivered(channel: Channel) | Undelivered

  /**
   * The dispatcher in the handler: Graph first; the SMTP transport exactly once
   * when Graph throws; an SMTP error is swallowed.
   */
  function Dispatch(graph: GraphAttempt, smtpOk: bool): (d: Delivery)
    ensures d == Delivered(Graph) <==> graph.failure.None?
    ensures d == Delivered(Smtp) <==> graph.failure.Some? && smtpOk
    ensures d == Undelivered <==> graph.failure.Some? && !smtpOk
  {
    if graph.failure.None? then Delivered(Graph)
    else if smtpOk then Delivered(Smtp)
    else Undelivered
  }
}
