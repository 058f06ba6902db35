/** The live-session hook: the connection status, the session and the
    recording resources it holds, and the callbacks the live API and the
    audio worklet call. The SDK, the microphone and the audio graph are
    outside the model: a session, a media stream, an audio context and a
    worklet node are opaque handles, what the SDK's `connect` or the device
    calls come back with is a parameter, and what the hook does to the
    outside world (audio and transcripts handed to the page, errors
    reported, resources released, frames sent) is recorded in order. */
module GeminiLive {
  import opened Wrappers
  import AudioUtils

  datatype Status = Disconnected | Connecting | Connected | Error

  /** An opaque handle on an SDK or browser object. */
  type Handle = nat

  /** A part of the model's turn; only its text matters here. */
  datatype Part = Part(text: Option<string>)

  /** An incoming live message: its inline audio (base64) and the parts of
      `serverContent.modelTurn`, when present. */
  datatype Message = Message(data: Option<string>, parts: Option<seq<Part>>)

  /** What `ai.live.connect` comes back with. */
  datatype ConnectOutcome = Opened(session: Handle) | ConnectFailed(message: string)

  /** How far the microphone setup gets: access refused, the worklet module
      failed to load after the stream and the context were created, or
      everything ready. */
  datatype DeviceOutcome =
    | MicDenied(message: string)
    | ModuleFailed(stream: Handle, context: Handle, message: string)
    | Ready(stream: Handle, context: Handle, node: Handle)

  /** A release of an outside resource. */
  datatype Release =
    | TracksStopped(stream: Handle)
    | NodeDisconnected(node: Handle)
    | ContextClosed(context: Handle)
    | SessionClosed(session: Handle)

  /** A JavaScript string value that is truthy: present and not empty. */
  predicate Truthy(s: Option<string>)
  {
    s.Some? && s.value != ""
  }

  /** `parts.find(part => part.text)?.text`. */
  function FirstText(parts: seq<Part>): (r: Option<string>)
    ensures r.None? <==> forall i :: 0 <= i < |parts| ==> !Truthy(parts[i].text)
    ensures r.Some? ==> Truthy(r) && exists i :: 0 <= i < |parts| && parts[i].text == r
                                               && (forall j :: 0 <= j < i ==> !Truthy(parts[j].text))
  {
    if |parts| == 0 then None
    else if Truthy(parts[0].text) then parts[0].text
    else
      var r := FirstText(parts[1..]);
      assert forall i :: 1 <= i < |parts| ==> parts[i] == parts[1..][i - 1];
      r
  }

  /** The releases `stopRecording` performs: tracks, then node, then
      context, each only if held. */
  function StopReleases(stream: Option<Handle>, node: Option<Handle>, context: Option<Handle>): seq<Release>
  {
    (if stream.Some? then [TracksStopped(stream.value)] else [])
    + (if node.Some? then [NodeDisconnected(node.value)] else [])
    + (if context.Some? then [ContextClosed(context.value)] else [])
  }

  /** The PCM samples of a float buffer, one by one. */
  function Pcm(xs: seq<real>): (ys: seq<AudioUtils.Int16>)
    ensures |ys| == |xs|
    ensures forall i :: 0 <= i < |xs| ==> ys[i] == AudioUtils.PcmSample(xs[i])
  {
    seq(|xs|, i requires 0 <= i < |xs| => AudioUtils.PcmSample(xs[i]))
  }

  /** The text sent for one 4096-sample worklet frame: resampled from
      48 kHz to 16 kHz, converted to PCM, then base64-encoded. */
  function FramePayload(frame: seq<real>): string
  {
    AudioUtils.EncodeSamples(Pcm(AudioUtils.Resampled(frame, 48000.0 / 16000.0)))
  }

  /** What the service receives for a frame decodes to the PCM value of
      every third captured sample. */
  lemma FramePayloadDecodes(frame: seq<real>)
    ensures var r := AudioUtils.DecodeSamples(FramePayload(frame));
      r.Some? && |r.value| == |AudioUtils.Resampled(frame, 48000.0 / 16000.0)|
      && forall i :: 0 <= i < |r.value| ==> 3 * i < |frame| && r.value[i] == AudioUtils.PcmSample(frame[3 * i])
  {
    var down := AudioUtils.Resampled(frame, 48000.0 / 16000.0);
    AudioUtils.SamplesRoundTrip(Pcm(down));
    forall i | 0 <= i < |down| ensures 3 * i < |frame| && down[i] == frame[3 * i] {
      AudioUtils.DownsampleByThree(frame, i);
    }
  }

  class LiveConnection {
    /** Whether the page passed `onTranscript` and `onError`. */
    const hasOnTranscript: bool
    const hasOnError: bool

    var status: Status
    var isRecording: bool
    /** `sessionRef`, `audioContextRef`, `mediaStreamRef`, `audioWorkletNodeRef`. */
    var session: Option<Handle>
    var audioContext: Option<Handle>
    var mediaStream: Option<Handle>
    var workletNode: Option<Handle>
    /** `responseQueueRef`: every message received. */
    var responseQueue: seq<Message>

    /** Calls of `onAudioData`, `onTranscript` and `onError`, in order. */
    var audioOut: seq<string>
    var transcripts: seq<string>
    var errors: seq<string>
    /** Resources released, in order. */
    var released: seq<Release>
    /** Audio sent with `sendRealtimeInput`: the session and the base64 text. */
    var sent: seq<(Handle, string)>

    constructor (hasOnTranscript: bool, hasOnError: bool)
      ensures this.hasOnTranscript == hasOnTranscript && this.hasOnError == hasOnError
      ensures status == Disconnected && !isRecording
      ensures session == None && audioContext == None && mediaStream == None && workletNode == None
      ensures responseQueue == [] && audioOut == [] && transcripts == [] && errors == []
      ensures released == [] && sent == []
    {
      this.hasOnTranscript := hasOnTranscript;
      this.hasOnError := hasOnError;
      status := Disconnected;
      isRecording := false;
      session := None;
      audioContext := None;
      mediaStream := None;
      workletNode := None;
      responseQueue := [];
      audioOut := [];
      transcripts := [];
      errors := [];
      released := [];
      sent := [];
    }

    /** `connect`: the status becomes 'connecting'; on success the new
        session is stored (over any previous one, which is not closed) and
        the status waits for `onopen`; on failure the session is left as it
        was, the status becomes 'error' and the error is reported. */
    method Connect(outcome: ConnectOutcome)
      modifies this
      ensures outcome.Opened? ==> session == Some(outcome.session) && status == Connecting && errors == old(errors)
      ensures outcome.ConnectFailed? ==>
        session == old(session) && status == Error
        && errors == old(errors) + (if hasOnError then [outcome.message] else [])
      ensures isRecording == old(isRecording) && audioContext == old(audioContext)
      ensures mediaStream == old(mediaStream) && workletNode == old(workletNode)
      ensures responseQueue == old(responseQueue) && audioOut == old(audioOut) && transcripts == old(transcripts)
      ensures released == old(released) && sent == old(sent)
    {
      status := Connecting;
      match outcome
      case Opened(s) =>
        session := Some(s);
      case ConnectFailed(message) =>
        status := Error;
        if hasOnError {
          errors := errors + [message];
        }
    }

    /** `onopen`. */
    method OnOpen()
      modifies this`status
      ensures status == Connected
    {
      status := Connected;
    }

    /** `onclose`: the status only; the session handle stays stored. */
    method OnClose()
      modifies this`status
      ensures status == Disconnected
    {
      status := Disconnected;
    }

    /** `onerror`: status 'error' and the error's message, or 'Connection
        error' when it has none, reported. */
    method OnError(message: Option<string>)
      modifies this`status, this`errors
      ensures status == Error
      ensures errors == old(errors)
        + (if hasOnError then [if Truthy(message) then message.value else "Connection error"] else [])
    {
      status := Error;
      if hasOnError {
        var text := if Truthy(message) then message.value else "Connection error";
        errors := errors + [text];
      }
    }

    /** `onmessage`: the message is queued; its audio, when present, goes
        to `onAudioData`; the first part with text, when there is one, goes
        to `onTranscript`. */
    method OnMessage(m: Message)
      modifies this`responseQueue, this`audioOut, this`transcripts
      ensures responseQueue == old(responseQueue) + [m]
      ensures audioOut == old(audioOut) + (if Truthy(m.data) then [m.data.value] else [])
      ensures transcripts == old(transcripts)
        + (if m.parts.Some? && FirstText(m.parts.value).Some? && hasOnTranscript
           then [FirstText(m.parts.value).value] else [])
    {
      responseQueue := responseQueue + [m];
      if Truthy(m.data) {
        audioOut := audioOut + [m.data.value];
      }
      if m.parts.Some? {
        var textPart := FirstText(m.parts.value);
        if textPart.Some? && hasOnTranscript {
          transcripts := transcripts + [textPart.value];
        }
      }
    }

    /** `startRecording`: connects first only when no session is stored
        (a failed connection is reported by `connect` and the setup goes
        on), then sets up the microphone. The stream and the context are
        stored as soon as they exist, so a failure to load the worklet
        module leaves them stored; only a complete setup stores the node and
        raises `isRecording`. */
    method StartRecording(connection: ConnectOutcome, device: DeviceOutcome)
      modifies this
      ensures old(session).Some? ==> session == old(session) && status == old(status)
      ensures old(session).None? ==>
        (connection.Opened? ==> session == Some(connection.session) && status == Connecting)
        && (connection.ConnectFailed? ==> session == None && status == Error)
      ensures device.MicDenied? ==>
        mediaStream == old(mediaStream) && audioContext == old(audioContext)
        && workletNode == old(workletNode) && isRecording == old(isRecording)
      ensures device.ModuleFailed? ==>
        mediaStream == Some(device.stream) && audioContext == Some(device.context)
        && workletNode == old(workletNode) && isRecording == old(isRecording)
      ensures device.Ready? ==>
        mediaStream == Some(device.stream) && audioContext == Some(device.context)
        && workletNode == Some(device.node) && isRecording
      ensures errors == old(errors)
        + (if old(session).None? && connection.ConnectFailed? && hasOnError then [connection.message] else [])
        + (if !device.Ready? && hasOnError then [device.message] else [])
      ensures responseQueue == old(responseQueue) && audioOut == old(audioOut) && transcripts == old(transcripts)
      ensures released == old(released) && sent == old(sent)
    {
      if session.None? {
        Connect(connection);
      }
      match device
      case MicDenied(message) =>
        if hasOnError {
          errors := errors + [message];
        }
      case ModuleFailed(stream, context, message) =>
        mediaStream := Some(stream);
        audioContext := Some(context);
        if hasOnError {
          errors := errors + [message];
        }
      case Ready(stream, context, node) =>
        mediaStream := Some(stream);
        audioContext := Some(context);
        workletNode := Some(node);
        isRecording := true;
    }

    /** The worklet's `port.onmessage` for an 'audio' frame: sent, after
        resampling, PCM conversion and base64 encoding, only while a session
        is stored. */
    method OnWorkletFrame(frame: array<real>)
      modifies this`sent
      ensures sent == old(sent) + (if session.Some? then [(session.value, FramePayload(frame[..]))] else [])
    {
      if session.Some? {
        ghost var samples := frame[..];
        var resampled := AudioUtils.ResampleAudio(frame, 48000.0, 16000.0);
        ghost var down := resampled[..];
        assert down == AudioUtils.Resampled(samples, 48000.0 / 16000.0);
        var pcm16 := AudioUtils.Float32To16BitPcm(resampled);
        assert pcm16[..] == Pcm(down);
        var base64Audio := AudioUtils.Int16ArrayToBase64(pcm16);
        assert base64Audio == FramePayload(samples);
        sent := sent + [(session.value, base64Audio)];
      }
    }

    /** `stopRecording`: stops the tracks, disconnects the node and closes
        the context, each only if held, clears all three and lowers
        `isRecording`. With nothing held it releases nothing, so a second
        call changes nothing. */
    method StopRecording()
      modifies this`mediaStream, this`workletNode, this`audioContext, this`isRecording, this`released
      ensures mediaStream == None && workletNode == None && audioContext == None && !isRecording
      ensures released == old(released) + StopReleases(old(mediaStream), old(workletNode), old(audioContext))
      ensures old(mediaStream) == None && old(workletNode) == None && old(audioContext) == None
        ==> released == old(released)
    {
      if mediaStream.Some? {
        released := released + [TracksStopped(mediaStream.value)];
        mediaStream := None;
      }
      if workletNode.Some? {
        released := released + [NodeDisconnected(workletNode.value)];
        workletNode := None;
      }
      if audioContext.Some? {
        released := released + [ContextClosed(audioContext.value)];
        audioContext := None;
      }
      isRecording := false;
    }

    /** `disconnect`: stops recording, closes and clears the session if one
        is stored, and ends in 'disconnected'. Afterwards nothing is held,
        so a second call releases nothing and leaves the state as it is. */
    method Disconnect()
      modifies this`mediaStream, this`workletNode, this`audioContext, this`isRecording, this`released
      modifies this`session, this`status
      ensures mediaStream == None && workletNode == None && audioContext == None && !isRecording
      ensures session == None && status == Disconnected
      ensures released == old(released) + StopReleases(old(mediaStream), old(workletNode), old(audioContext))
        + (if old(session).Some? then [SessionClosed(old(session).value)] else [])
      ensures (old(mediaStream) == None && old(workletNode) == None && old(audioContext) == None
               && old(session) == None) ==> released == old(released)
    {
      StopRecording();
      if session.Some? {
        released := released + [SessionClosed(session.value)];
        session := None;
      }
      status := Disconnected;
    }
  }
}
