/**
 * The pure pieces of the browser client: the API base, the upload-size guard,
 * the result and timer texts, the user-menu defaults and the dropdown toggle,
 * and the fixed log lines both recorder scripts write.
 */
module Client {
  import opened Wrappers
  import opened Text
  import opened Claims

  const LocalApi: string := "http://localhost:3000"
  /** Blobs below this many bytes are not uploaded. */
  const MinUploadBytes: nat := 1000

  /** The API base: the local server when the page is served from a local host name, else the page's origin. */
  function ApiBase(hostname: string, origin: string): (r: string)
    ensures (exists i :: OccursAt(hostname, "127.0.0.1", i) || OccursAt(hostname, "localhost", i)) ==> r == LocalApi
    ensures !(exists i :: OccursAt(hostname, "127.0.0.1", i) || OccursAt(hostname, "localhost", i)) ==> r == origin
  {
    ContainsIff(hostname, "127.0.0.1");
    ContainsIff(hostname, "localhost");
    if Contains(hostname, "127.0.0.1") || Contains(hostname, "localhost") then LocalApi else origin
  }

  /** A piece of recorded audio, as far as the client looks at it: its size. */
  datatype Chunk = Chunk(size: nat)

  /** `new Blob(audioChunks).size`: the sizes of the parts added up. */
  function BlobSize(chunks: seq<Chunk>): nat {
    if chunks == [] then 0 else BlobSize(chunks[..|chunks| - 1]) + chunks[|chunks| - 1].size
  }

  /** Appending a chunk can only grow the blob, by exactly its size; concatenation adds sizes. */
  lemma {:induction false} BlobSizeAppend(a: seq<Chunk>, b: seq<Chunk>)
    ensures BlobSize(a + b) == BlobSize(a) + BlobSize(b)
    decreases |b|
  {
    if b == [] {
      assert a + b == a;
    } else {
      assert (a + b)[..|a + b| - 1] == a + b[..|b| - 1];
      BlobSizeAppend(a, b[..|b| - 1]);
    }
  }

  /** The size guard of the stop handler: upload only from `MinUploadBytes` bytes on. */
  predicate WorthUploading(chunks: seq<Chunk>) {
    BlobSize(chunks) >= MinUploadBytes
  }

  const ResultPrefix: string := "📝 Testo: "
  const EmptyResult: string := "Errore o risposta vuota"

  /** The result line after a server reply: `data.testo`, or a fixed phrase when it is empty or absent. */
  function ResultText(testo: Option<string>): (r: string)
    ensures StartsWith(r, ResultPrefix)
    ensures testo.Some? && testo.value != "" ==> r[|ResultPrefix|..] == testo.value
    ensures testo.None? || testo.value == "" ==> r[|ResultPrefix|..] == EmptyResult
  {
    ResultPrefix + if testo.Some? && testo.value != "" then testo.value else EmptyResult
  }

  /** `String(n).padStart(2, "0")`. */
  function TwoDigits(n: nat): string {
    PadStart(Digits(n), 2, '0')
  }

  /** The padded field is all digits, at least two of them, and reads back to `n`; below 100 it is exactly two. */
  lemma TwoDigitsReadsBack(n: nat)
    ensures IsDigits(TwoDigits(n)) && |TwoDigits(n)| >= 2 && Value(TwoDigits(n)) == n
    ensures n < 100 ==> |TwoDigits(n)| == 2
  {
    ValueDigits(n);
    DigitsShape(n);
    var d := Digits(n);
    if |d| >= 2 {
      assert TwoDigits(n) == d;
    } else {
      assert TwoDigits(n) == Repeat('0', 2 - |d|) + d;
      RepeatShape('0', 2 - |d|);
      ValueLeadingZeros(2 - |d|, d);
    }
  }

  /** `mm:ss` for an elapsed time in milliseconds: whole seconds, split into minutes and seconds. */
  function Clock(elapsedMs: nat): string {
    var elapsed := elapsedMs / 1000;
    TwoDigits(elapsed / 60) + ":" + TwoDigits(elapsed % 60)
  }

  /** The parts of `mm + ":" + ss` for a two-character `ss`. */
  lemma ColonSplit(mm: string, ss: string)
    requires |ss| == 2
    ensures var c := mm + ":" + ss; var k := |c|;
      k == |mm| + 3 && c[..k - 3] == mm && c[k - 3] == ':' && c[k - 2..] == ss
  {
  }

  /** The clock reads back to the elapsed whole seconds, and has the `mm:ss` shape below an hour. */
  lemma ClockReadsBack(elapsedMs: nat)
    ensures var c := Clock(elapsedMs); var k := |c|;
      && k >= 5 && c[k - 3] == ':' && IsDigits(c[..k - 3]) && IsDigits(c[k - 2..])
      && Value(c[k - 2..]) < 60
      && Value(c[..k - 3]) * 60 + Value(c[k - 2..]) == elapsedMs / 1000
    ensures elapsedMs < 3600000 ==> |Clock(elapsedMs)| == 5
  {
    var elapsed := elapsedMs / 1000;
    TwoDigitsReadsBack(elapsed / 60);
    TwoDigitsReadsBack(elapsed % 60);
    ColonSplit(TwoDigits(elapsed / 60), TwoDigits(elapsed % 60));
    assert elapsed / 60 * 60 + elapsed % 60 == elapsed;
  }

  const TimerPrefix: string := "⏱️ "
  const TimerSuffix: string := " / registrazione in corso..."

  /** The timer line refreshed every second while recording. */
  function TimerText(elapsedMs: nat): string {
    TimerPrefix + Clock(elapsedMs) + TimerSuffix
  }

  /** The reply of `/.auth/me`: the request or its decoding fails, or `data[0].user_claims` (None when missing). */
  datatype MeReply = MeFailed | Me(userClaims: Option<seq<Claim>>)

  datatype Profile = Profile(name: string, email: string)

  /** The user menu: the first "name" and "preferred_username" claims, or "Utente" and "N/A"; None when the lookup throws. */
  function UserProfile(me: MeReply): (r: Option<Profile>)
    ensures r.Some? <==> me.Me? && me.userClaims.Some?
    ensures r.Some? ==> r.value.name == FirstVal(me.userClaims.value, "name").GetOr("Utente")
    ensures r.Some? ==> r.value.email == FirstVal(me.userClaims.value, "preferred_username").GetOr("N/A")
  {
    match me
    case MeFailed => None
    case Me(claims) =>
      if claims.None? then None
      else Some(Profile(FirstVal(claims.value, "name").GetOr("Utente"),
                        FirstVal(claims.value, "preferred_username").GetOr("N/A")))
  }

  /** The user-menu click: the dropdown's `display` switches between "block" and "none". */
  function Toggle(display: string): (r: string)
    ensures r == "none" <==> display == "block"
    ensures r == "block" <==> display != "block"
  {
    if display == "block" then "none" else "block"
  }

  /** After the first click the dropdown alternates: two clicks restore the display. */
  lemma ToggleTwice(display: string)
    requires display == "block" || display == "none"
    ensures Toggle(Toggle(display)) == display
  {
  }

  /** A click anywhere: inside the menu it toggles, outside it closes the dropdown. */
  function Click(display: string, insideMenu: bool): (r: string)
    ensures !insideMenu ==> r == "none"
    ensures insideMenu ==> r == Toggle(display)
  {
    if insideMenu then Toggle(display) else "none"
  }

  /** `mediaRecorder`: never created, or its `state`. */
  datatype RecorderState = Absent | Recording | Inactive

  /**
   * The record button's set-up: all of it succeeds; `getUserMedia` rejects;
   * `new MediaRecorder(stream, {mimeType: "audio/webm"})` throws after the
   * microphone was granted; or `start()` throws after the new recorder and the
   * empty `audioChunks` were already installed.
   */
  datatype Mic = Granted | Denied(message: string) | SetupFailed(message: string) | StartFailed(message: string)

  /** The upload: `fetch` or `resp.json()` throws, or the decoded reply (its `JSON.stringify` and `testo`). */
  datatype ServerReply = FetchFailed(message: string) | Answered(json: string, testo: Option<string>)

  /** A POST of the recorded blob. */
  datatype Upload = Upload(url: string, bytes: nat)

  // The lines both recorder scripts write to the on-screen log and the result box.
  const LogHeader: string := "Log in tempo reale:"
  const LogCleared: string := "🧹 Log precedente cancellato"
  const LogRecordPressed: string := "🎙️ Bottone Registra premuto"
  const LogMicGranted: string := "✅ Accesso microfono ottenuto"
  const LogMicErrorPrefix: string := "❌ Errore microfono: "
  const LogStarted: string := "▶️ Registrazione avviata"
  const LogStopped: string := "⏹️ Registrazione fermata"
  const LogTooShort: string := "⚠️ Audio troppo corto o vuoto"
  const LogSending: string := "📤 Invio al server..."
  const LogEndpointPrefix: string := "🌐 Endpoint API rilevato: "
  const LogReplyPrefix: string := "📩 Risposta server: "
  const LogFetchErrorPrefix: string := "❌ Errore fetch verso server: "
  const LogStopPressed: string := "🛑 Bottone Ferma premuto"
  const LogForcedStop: string := "⏹️ Arresto registrazione forzato"
  const LogNotRecording: string := "⚠️ Nessuna registrazione in corso"
  const ResultMicDenied: string := "⚠️ Accesso al microfono negato o non disponibile."
  const ResultRecording: string := "🎙️ Registrazione in corso..."
  const ResultSending: string := "⏳ Invio audio al server..."
  const ResultNoAudio: string := "⚠️ Nessun audio registrato"
  const ResultFetchError: string := "❌ Errore di comunicazione con il server."

  /** The log line for one `dataavailable` event. */
  function ChunkLine(c: Chunk): string {
    "🎧 Dato audio disponibile (" + Digits(c.size) + " byte)"
  }
}
