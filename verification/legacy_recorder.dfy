/**
 * The recorder controller of the root `app.js`, the version before the timer:
 * `mediaRecorder`, `audioChunks`, the two buttons' `disabled` flags, the
 * on-screen log and the result line.
 */
module LegacyRecorder {
  import opened Client

  class LegacyRecorder {
    const hostname: string
    const origin: string
    var recorder: RecorderState
    var chunks: seq<Chunk>
    var recordDisabled: bool
    var stopDisabled: bool
    /** Stop callbacks scheduled with `setTimeout` and not yet run. */
    var pendingStops: nat
    var log: seq<string>
    var result: string
    var uploads: seq<Upload>

    ghost predicate Valid()
      reads this
    {
      && |log| >= 1 && log[0] == LogHeader
      && (pendingStops > 0 ==> !recorder.Absent?)
    }

    /** Page load: the log box holds its header; the buttons start as the page declares them. */
    constructor (hostname: string, origin: string, recordDisabled: bool, stopDisabled: bool, result: string)
      ensures Valid()
      ensures this.hostname == hostname && this.origin == origin
      ensures this.recordDisabled == recordDisabled && this.stopDisabled == stopDisabled && this.result == result
      ensures recorder == Absent && chunks == [] && pendingStops == 0 && log == [LogHeader] && uploads == []
    {
      this.hostname, this.origin := hostname, origin;
      this.recordDisabled, this.stopDisabled, this.result := recordDisabled, stopDisabled, result;
      recorder, chunks, pendingStops := Absent, [], 0;
      log, uploads := [LogHeader], [];
    }

    /** The record button: the log restarts from its header; with a microphone, a fresh recorder starts. */
    method Record(mic: Mic)
      requires Valid()
      modifies this`log, this`result, this`recorder, this`chunks, this`recordDisabled, this`stopDisabled
      ensures Valid()
      ensures mic.Granted? ==>
        && log == [LogHeader, LogCleared, LogRecordPressed, LogMicGranted]
        && recorder == Recording && chunks == []
        && recordDisabled && !stopDisabled
        && result == old(result)
      ensures mic.Denied? ==>
        && log == [LogHeader, LogCleared, LogRecordPressed, LogMicErrorPrefix + mic.message]
        && result == ResultMicDenied
        && recorder == old(recorder) && chunks == old(chunks)
        && recordDisabled == old(recordDisabled) && stopDisabled == old(stopDisabled)
      // the microphone was granted, then the recorder could not be built: nothing was replaced
      ensures mic.SetupFailed? ==>
        && log == [LogHeader, LogCleared, LogRecordPressed, LogMicGranted, LogMicErrorPrefix + mic.message]
        && result == ResultMicDenied
        && recorder == old(recorder) && chunks == old(chunks)
        && recordDisabled == old(recordDisabled) && stopDisabled == old(stopDisabled)
      // `start()` threw: the new, never started recorder and the empty chunk list stay installed
      ensures mic.StartFailed? ==>
        && log == [LogHeader, LogCleared, LogRecordPressed, LogMicGranted, LogMicErrorPrefix + mic.message]
        && result == ResultMicDenied
        && recorder == Inactive && chunks == []
        && recordDisabled == old(recordDisabled) && stopDisabled == old(stopDisabled)
    {
      log := [LogHeader, LogCleared, LogRecordPressed];
      match mic
      case Granted =>
        log := log + [LogMicGranted];
        recorder := Recording;
        chunks := [];
        recordDisabled := true;
        stopDisabled := false;
      case Denied(message) =>
        log := log + [LogMicErrorPrefix + message];
        result := ResultMicDenied;
      case SetupFailed(message) =>
        log := log + [LogMicGranted, LogMicErrorPrefix + message];
        result := ResultMicDenied;
      case StartFailed(message) =>
        log := log + [LogMicGranted];
        recorder := Inactive;
        chunks := [];
        log := log + [LogMicErrorPrefix + message];
        result := ResultMicDenied;
    }

    /** `onstart`: only a log line and the result text. */
    method Started()
      requires Valid()
      modifies this`log, this`result
      ensures Valid()
      ensures log == old(log) + [LogStarted] && result == ResultRecording
    {
      log := log + [LogStarted];
      result := ResultRecording;
    }

    /** `ondataavailable`: the chunk goes at the end of `audioChunks`. */
    method Data(chunk: Chunk)
      requires Valid()
      modifies this`chunks, this`log
      ensures Valid()
      ensures chunks == old(chunks) + [chunk] && log == old(log) + [ChunkLine(chunk)]
    {
      chunks := chunks + [chunk];
      log := log + [ChunkLine(chunk)];
    }

    /** The stop button: with a live recorder, schedule its stop and flip the buttons; otherwise only log. */
    method Stop()
      requires Valid()
      modifies this`log, this`pendingStops, this`recordDisabled, this`stopDisabled
      ensures Valid()
      ensures old(recorder) == Recording ==>
        && log == old(log) + [LogStopPressed] && pendingStops == old(pendingStops) + 1
        && !recordDisabled && stopDisabled
      ensures old(recorder) != Recording ==>
        && log == old(log) + [LogStopPressed, LogNotRecording] && pendingStops == old(pendingStops)
        && recordDisabled == old(recordDisabled) && stopDisabled == old(stopDisabled)
    {
      log := log + [LogStopPressed];
      if recorder == Recording {
        pendingStops := pendingStops + 1;
        recordDisabled := false;
        stopDisabled := true;
      } else {
        log := log + [LogNotRecording];
      }
    }

    /** The scheduled stop callback: `mediaRecorder.stop()`, which does nothing on an inactive recorder. */
    method StopTimeout()
      requires Valid() && pendingStops > 0
      modifies this`log, this`pendingStops, this`recorder
      ensures Valid()
      ensures log == old(log) + [LogForcedStop] && pendingStops == old(pendingStops) - 1
      ensures recorder == Inactive
    {
      log := log + [LogForcedStop];
      pendingStops := pendingStops - 1;
      recorder := Inactive;
    }

    /** `onstop`: a blob of at least `MinUploadBytes` bytes is posted and the reply shown. */
    method Stopped(reply: ServerReply)
      requires Valid()
      modifies this`log, this`result, this`uploads
      ensures Valid()
      // a blob under the threshold is never uploaded
      ensures !WorthUploading(chunks) ==>
        && uploads == old(uploads)
        && log == old(log) + [LogStopped, LogTooShort]
        && result == ResultNoAudio
      ensures WorthUploading(chunks) ==>
        var url := ApiBase(hostname, origin) + "/trascrivi";
        && uploads == old(uploads) + [Upload(url, BlobSize(chunks))]
        && log == old(log) + [LogStopped, LogSending, LogEndpointPrefix + url]
                  + (if reply.Answered? then [LogReplyPrefix + reply.json] else [LogFetchErrorPrefix + reply.message])
        && result == if reply.Answered? then ResultText(reply.testo) else ResultFetchError
    {
      log := log + [LogStopped];
      result := ResultSending;
      if BlobSize(chunks) < MinUploadBytes {
        log := log + [LogTooShort];
        result := ResultNoAudio;
        return;
      }
      log := log + [LogSending];
      var url := ApiBase(hostname, origin) + "/trascrivi";
      log := log + [LogEndpointPrefix + url];
      uploads := uploads + [Upload(url, BlobSize(chunks))];
      match reply
      case Answered(json, testo) =>
        log := log + [LogReplyPrefix + json];
        result := ResultText(testo);
      case FetchFailed(message) =>
        log := log + [LogFetchErrorPrefix + message];
        result := ResultFetchError;
    }
  }
}
