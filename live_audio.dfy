/**
 * The dual-leg live orchestrator (`LiveAudioService`): one `active` flag gates every forwarding
 * call to the two legs it owns, the realtime conversational leg (Gemini) and the transcription
 * leg. The legs are abstract: each records the calls it receives in a ghost log, and the
 * outcome of starting a leg is a parameter. The service keeps, in addition, the interleaved
 * ghost trace of every call it made to either leg, in order.
 */
module LiveAudio {
  import opened Wrappers

  /** A call received by the Gemini leg, named after the leg method that was called. */
  datatype GeminiCall =
    | SessionStarted               // startSession(onMessage)
    | AudioSent(chunk: Bytes)      // sendAudioChunk(chunk)
    | ImageSent(jpeg: string)      // sendImageChunk(base64Jpeg)
    | TurnFinished                 // finishTurn()
    | SessionEnded                 // endSession()
    | TextSent(text: string)       // sendTextInput(text)

  /** A call received by the transcription leg. */
  datatype TranscribeCall =
    | TranscribeStarted            // start(onTranscript)
    | ChunkSent(chunk: Bytes)      // sendChunk(chunk)
    | TranscribeFinished           // finish()

  /** One call made by the service, tagged with the leg it went to. */
  datatype LegCall = ToGemini(g: GeminiCall) | ToTranscribe(t: TranscribeCall)

  /** The calls of a trace that went to the Gemini leg, in order. */
  function GeminiPart(trace: seq<LegCall>): seq<GeminiCall>
    decreases |trace|
  {
    if trace == [] then []
    else (if trace[0].ToGemini? then [trace[0].g] else []) + GeminiPart(trace[1..])
  }

  /** The calls of a trace that went to the transcription leg, in order. */
  function TranscribePart(trace: seq<LegCall>): seq<TranscribeCall>
    decreases |trace|
  {
    if trace == [] then []
    else (if trace[0].ToTranscribe? then [trace[0].t] else []) + TranscribePart(trace[1..])
  }

  /** Splitting a trace by leg distributes over concatenation. */
  lemma PartsAppend(a: seq<LegCall>, b: seq<LegCall>)
    ensures GeminiPart(a + b) == GeminiPart(a) + GeminiPart(b)
    ensures TranscribePart(a + b) == TranscribePart(a) + TranscribePart(b)
  {
    GeminiPartAppend(a, b);
    TranscribePartAppend(a, b);
  }

  lemma {:induction false} GeminiPartAppend(a: seq<LegCall>, b: seq<LegCall>)
    ensures GeminiPart(a + b) == GeminiPart(a) + GeminiPart(b)
    decreases |a|
  {
    if a == [] {
      assert a + b == b;
    } else {
      var h := if a[0].ToGemini? then [a[0].g] else [];
      assert (a + b)[0] == a[0] && (a + b)[1..] == a[1..] + b;
      GeminiPartAppend(a[1..], b);
      calc {
        GeminiPart(a + b);
        h + GeminiPart(a[1..] + b);
        h + (GeminiPart(a[1..]) + GeminiPart(b));
        (h + GeminiPart(a[1..])) + GeminiPart(b);
      }
    }
  }

  lemma {:induction false} TranscribePartAppend(a: seq<LegCall>, b: seq<LegCall>)
    ensures TranscribePart(a + b) == TranscribePart(a) + TranscribePart(b)
    decreases |a|
  {
    if a == [] {
      assert a + b == b;
    } else {
      var h := if a[0].ToTranscribe? then [a[0].t] else [];
      assert (a + b)[0] == a[0] && (a + b)[1..] == a[1..] + b;
      TranscribePartAppend(a[1..], b);
      calc {
        TranscribePart(a + b);
        h + TranscribePart(a[1..] + b);
        h + (TranscribePart(a[1..]) + TranscribePart(b));
        (h + TranscribePart(a[1..])) + TranscribePart(b);
      }
    }
  }

  /** The part of a one-call trace that belongs to each leg. */
  lemma PartsOne(x: LegCall)
    ensures GeminiPart([x]) == if x.ToGemini? then [x.g] else []
    ensures TranscribePart([x]) == if x.ToTranscribe? then [x.t] else []
  {
    assert [x][1..] == [];
  }

  /** The conversational leg, seen from the service. `acceptsText` is the leg's own answer to
      `canAcceptTextInput()`, which the service only queries. */
  class GeminiLeg {
    ghost var log: seq<GeminiCall>
    var acceptsText: bool

    constructor (acceptsText: bool)
      ensures log == [] && this.acceptsText == acceptsText
    {
      log := [];
      this.acceptsText := acceptsText;
    }

    /** `startSession`, which resolves when `outcome` holds and rejects otherwise. */
    method StartSession(outcome: bool) returns (ok: bool)
      modifies this
      ensures ok == outcome && log == old(log) + [SessionStarted] && acceptsText == old(acceptsText)
    {
      log := log + [SessionStarted];
      ok := outcome;
    }

    method SendAudioChunk(chunk: Bytes)
      modifies this
      ensures log == old(log) + [AudioSent(chunk)] && acceptsText == old(acceptsText)
    {
      log := log + [AudioSent(chunk)];
    }

    method SendImageChunk(jpeg: string)
      modifies this
      ensures log == old(log) + [ImageSent(jpeg)] && acceptsText == old(acceptsText)
    {
      log := log + [ImageSent(jpeg)];
    }

    method FinishTurn()
      modifies this
      ensures log == old(log) + [TurnFinished] && acceptsText == old(acceptsText)
    {
      log := log + [TurnFinished];
    }

    method EndSession()
      modifies this
      ensures log == old(log) + [SessionEnded] && acceptsText == old(acceptsText)
    {
      log := log + [SessionEnded];
    }

    function CanAcceptTextInput(): bool
      reads this
    {
      acceptsText
    }

    method SendTextInput(text: string)
      modifies this
      ensures log == old(log) + [TextSent(text)] && acceptsText == old(acceptsText)
    {
      log := log + [TextSent(text)];
    }
  }

  /** The transcription leg, seen from the service. */
  class TranscribeLeg {
    ghost var log: seq<TranscribeCall>

    constructor ()
      ensures log == []
    {
      log := [];
    }

    /** `start`, which resolves when `outcome` holds and rejects otherwise. */
    method Start(outcome: bool) returns (ok: bool)
      modifies this
      ensures ok == outcome && log == old(log) + [TranscribeStarted]
    {
      log := log + [TranscribeStarted];
      ok := outcome;
    }

    method SendChunk(chunk: Bytes)
      modifies this
      ensures log == old(log) + [ChunkSent(chunk)]
    {
      log := log + [ChunkSent(chunk)];
    }

    method Finish()
      modifies this
      ensures log == old(log) + [TranscribeFinished]
    {
      log := log + [TranscribeFinished];
    }
  }

  class LiveAudioService {
    const gemini: GeminiLeg
    const transcribe: TranscribeLeg
    var active: bool
    /** Every call the service made to either leg, in the order it made them. */
    ghost var trace: seq<LegCall>

    /** Each leg's log is exactly the part of the trace addressed to it. */
    ghost predicate Valid()
      reads this, gemini, transcribe
    {
      gemini.log == GeminiPart(trace) && transcribe.log == TranscribePart(trace)
    }

    /** A service over two fresh legs, inactive; `geminiAcceptsText` is the conversational
        leg's text-input capability. */
    constructor (geminiAcceptsText: bool)
      ensures Valid() && fresh(gemini) && fresh(transcribe)
      ensures !active && trace == [] && gemini.acceptsText == geminiAcceptsText
    {
      gemini := new GeminiLeg(geminiAcceptsText);
      transcribe := new TranscribeLeg();
      active := false;
      trace := [];
    }

    function IsActive(): bool
      reads this
    {
      active
    }

    /** Appends `calls` to the trace; the legs' logs must already have been extended by them. */
    ghost method Record(calls: seq<LegCall>)
      requires gemini.log == GeminiPart(trace) + GeminiPart(calls)
      requires transcribe.log == TranscribePart(trace) + TranscribePart(calls)
      modifies this
      ensures Valid() && trace == old(trace) + calls && active == old(active)
    {
      PartsAppend(trace, calls);
      trace := trace + calls;
    }

    /** `start`: ignored while active. Otherwise both legs are started (both calls are made,
        whatever the first one's outcome), and the service becomes active only when both
        succeed; a leg that did start is not stopped again when the other fails. The result
        says whether the returned promise resolves. */
    method Start(geminiOutcome: bool, transcribeOutcome: bool) returns (resolved: bool)
      requires Valid()
      modifies this, gemini, transcribe
      ensures Valid() && gemini.acceptsText == old(gemini.acceptsText)
      ensures old(active) ==> resolved && active && trace == old(trace)
      ensures !old(active) ==>
                && trace == old(trace) + [ToGemini(SessionStarted), ToTranscribe(TranscribeStarted)]
                && resolved == (geminiOutcome && transcribeOutcome)
                && active == resolved
    {
      if active {
        return true;
      }
      var g := gemini.StartSession(geminiOutcome);
      var t := transcribe.Start(transcribeOutcome);
      PartsOne(ToGemini(SessionStarted));
      PartsOne(ToTranscribe(TranscribeStarted));
      PartsAppend([ToGemini(SessionStarted)], [ToTranscribe(TranscribeStarted)]);
      assert [ToGemini(SessionStarted)] + [ToTranscribe(TranscribeStarted)] == [ToGemini(SessionStarted), ToTranscribe(TranscribeStarted)];
      Record([ToGemini(SessionStarted), ToTranscribe(TranscribeStarted)]);
      if !(g && t) {
        return false;
      }
      active := true;
      resolved := true;
    }

    /** Forwards the chunk to the Gemini leg and then to the transcription leg, when active. */
    method SendAudioChunk(chunk: Bytes)
      requires Valid()
      modifies this, gemini, transcribe
      ensures Valid() && active == old(active) && gemini.acceptsText == old(gemini.acceptsText)
      ensures trace == if old(active)
                       then old(trace) + [ToGemini(AudioSent(chunk)), ToTranscribe(ChunkSent(chunk))]
                       else old(trace)
    {
      if !active {
        return;
      }
      gemini.SendAudioChunk(chunk);
      transcribe.SendChunk(chunk);
      var calls := [ToGemini(AudioSent(chunk)), ToTranscribe(ChunkSent(chunk))];
      assert calls == [calls[0]] + [calls[1]];
      PartsOne(calls[0]);
      PartsOne(calls[1]);
      PartsAppend([calls[0]], [calls[1]]);
      Record(calls);
    }

    /** Ends both legs, once each, and becomes inactive; does nothing when inactive. */
    method Stop()
      requires Valid()
      modifies this, gemini, transcribe
      ensures Valid() && !active && gemini.acceptsText == old(gemini.acceptsText)
      ensures trace == if old(active)
                       then old(trace) + [ToGemini(SessionEnded), ToTranscribe(TranscribeFinished)]
                       else old(trace)
    {
      if !active {
        return;
      }
      gemini.EndSession();
      transcribe.Finish();
      var calls := [ToGemini(SessionEnded), ToTranscribe(TranscribeFinished)];
      assert calls == [calls[0]] + [calls[1]];
      PartsOne(calls[0]);
      PartsOne(calls[1]);
      PartsAppend([calls[0]], [calls[1]]);
      Record(calls);
      active := false;
    }

    /** Signals the end of the user's turn to the Gemini leg only, when active. */
    method FinishTurn()
      requires Valid()
      modifies this, gemini
      ensures Valid() && active == old(active) && gemini.acceptsText == old(gemini.acceptsText)
      ensures trace == if old(active) then old(trace) + [ToGemini(TurnFinished)] else old(trace)
    {
      if !active {
        return;
      }
      gemini.FinishTurn();
      PartsOne(ToGemini(TurnFinished));
      Record([ToGemini(TurnFinished)]);
    }

    /** Sends a video frame to the Gemini leg only, when active. */
    method SendImageChunk(jpeg: string)
      requires Valid()
      modifies this, gemini
      ensures Valid() && active == old(active) && gemini.acceptsText == old(gemini.acceptsText)
      ensures trace == if old(active) then old(trace) + [ToGemini(ImageSent(jpeg))] else old(trace)
    {
      if !active {
        return;
      }
      gemini.SendImageChunk(jpeg);
      PartsOne(ToGemini(ImageSent(jpeg)));
      Record([ToGemini(ImageSent(jpeg))]);
    }

    /** Relays text to the Gemini leg when that leg accepts text input, active or not. */
    method SendTextInput(text: string)
      requires Valid()
      modifies this, gemini
      ensures Valid() && active == old(active) && gemini.acceptsText == old(gemini.acceptsText)
      ensures trace == if old(gemini.CanAcceptTextInput())
                       then old(trace) + [ToGemini(TextSent(text))]
                       else old(trace)
    {
      if gemini.CanAcceptTextInput() {
        gemini.SendTextInput(text);
        PartsOne(ToGemini(TextSent(text)));
        Record([ToGemini(TextSent(text))]);
      }
    }
  }

  /** After a failed start, or after stop, audio, image and turn calls reach neither leg;
      an image never reaches the transcription leg. */
  method StopThenSendScenario(chunk: Bytes, jpeg: string)
  {
    var s := new LiveAudioService(false);
    var ok := s.Start(true, false);
    assert !ok && !s.IsActive();
    assert s.trace == [ToGemini(SessionStarted), ToTranscribe(TranscribeStarted)];
    ok := s.Start(true, true);
    assert ok && s.IsActive();
    var before := s.trace;
    s.SendImageChunk(jpeg);
    assert s.trace == before + [ToGemini(ImageSent(jpeg))];
    s.Stop();
    before := s.trace;
    s.SendAudioChunk(chunk);
    s.SendImageChunk(jpeg);
    s.FinishTurn();
    s.SendTextInput("hi");
    assert s.trace == before;
  }
}
