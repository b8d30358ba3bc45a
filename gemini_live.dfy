/**
 * The synchronous core of `GeminiLiveHelper`: the `onmessage` callback that turns server
 * messages into `{text}` / `{reset: true}` chunks and closes the session after the turn that
 * follows `finishTurn`, the `startSession` guard, and the three realtime senders.
 * The session is an abstract handle that logs what is sent on it and how often it is closed;
 * the chunks handed to the caller's `onMessage` callback are kept as a ghost log.
 */
module GeminiLive {
  import opened Wrappers

  /** The chunk handed to `onMessage`. */
  datatype ChatChunk = TextChunk(text: string) | Reset

  /** A server message, reduced to what `onmessage` reads: its text (if any) and
      `serverContent.turnComplete`. */
  datatype ServerMessage = ServerMessage(text: Option<string>, turnComplete: bool)

  /** An input sent with `sendRealtimeInput`; the audio payload stands for its base64 encoding. */
  datatype RealtimeInput =
    | Audio(audio: Bytes, mimeType: string)
    | Video(jpeg: string, mimeType: string)
    | AudioStreamEnd

  const AudioMimeType := "audio/pcm;rate=16000"
  const ImageMimeType := "image/jpeg"

  /** JavaScript truthiness of `m.text`: present and not the empty string. */
  predicate HasText(m: ServerMessage) {
    m.text.Some? && m.text.value != ""
  }

  // ---------- the chunk stream, as functions ----------

  /** The chunks one message produces, given whether a turn has just completed. */
  function MessageChunks(turnJustCompleted: bool, m: ServerMessage): seq<ChatChunk> {
    if HasText(m) then (if turnJustCompleted then [Reset] else []) + [TextChunk(m.text.value)]
    else []
  }

  /** `turnJustCompleted` after one message: set by `turnComplete`, cleared by a text that
      consumed the pending reset, otherwise kept. */
  function FlagAfter(turnJustCompleted: bool, m: ServerMessage): bool {
    m.turnComplete || (turnJustCompleted && !HasText(m))
  }

  /** The chunks a sequence of messages produces, starting from the given flag. */
  function StreamChunks(turnJustCompleted: bool, msgs: seq<ServerMessage>): seq<ChatChunk>
    decreases |msgs|
  {
    if msgs == [] then []
    else MessageChunks(turnJustCompleted, msgs[0]) + StreamChunks(FlagAfter(turnJustCompleted, msgs[0]), msgs[1..])
  }

  /** The texts of the text-bearing messages, in order. */
  function Texts(msgs: seq<ServerMessage>): seq<string>
    decreases |msgs|
  {
    if msgs == [] then []
    else (if HasText(msgs[0]) then [msgs[0].text.value] else []) + Texts(msgs[1..])
  }

  /** The texts of a chunk stream, with the resets dropped. */
  function ChunkTexts(chunks: seq<ChatChunk>): seq<string>
    decreases |chunks|
  {
    if chunks == [] then []
    else (if chunks[0].TextChunk? then [chunks[0].text] else []) + ChunkTexts(chunks[1..])
  }

  function CountResets(chunks: seq<ChatChunk>): nat
    decreases |chunks|
  {
    if chunks == [] then 0 else (if chunks[0].Reset? then 1 else 0) + CountResets(chunks[1..])
  }

  function CountTurnComplete(msgs: seq<ServerMessage>): nat
    decreases |msgs|
  {
    if msgs == [] then 0 else (if msgs[0].turnComplete then 1 else 0) + CountTurnComplete(msgs[1..])
  }

  /** Every reset is immediately followed by a text chunk. */
  ghost predicate ResetsPrecedeText(chunks: seq<ChatChunk>) {
    forall k :: 0 <= k < |chunks| && chunks[k].Reset? ==> k + 1 < |chunks| && chunks[k + 1].TextChunk?
  }

  lemma {:induction false} ChunkTextsAppend(a: seq<ChatChunk>, b: seq<ChatChunk>)
    ensures ChunkTexts(a + b) == ChunkTexts(a) + ChunkTexts(b)
    ensures CountResets(a + b) == CountResets(a) + CountResets(b)
    decreases |a|
  {
    if a == [] {
      assert a + b == b;
    } else {
      assert (a + b)[0] == a[0] && (a + b)[1..] == a[1..] + b;
      ChunkTextsAppend(a[1..], b);
    }
  }

  /** One message: its chunks carry exactly its text, with at most one reset, and a reset only
      when a turn had just completed. */
  lemma MessageChunksFacts(flag: bool, m: ServerMessage)
    ensures ChunkTexts(MessageChunks(flag, m)) == if HasText(m) then [m.text.value] else []
    ensures CountResets(MessageChunks(flag, m)) == if flag && HasText(m) then 1 else 0
    ensures ResetsPrecedeText(MessageChunks(flag, m))
  {
    var t := [TextChunk(if HasText(m) then m.text.value else "")];
    assert t[1..] == [];
    if HasText(m) && flag {
      assert MessageChunks(flag, m) == [Reset] + t;
      ChunkTextsAppend([Reset], t);
      assert [Reset][1..] == [];
    }
  }

  /** Dropping the resets from the stream gives back exactly the texts of the messages, in
      order: nothing is lost, duplicated or reordered. */
  lemma {:induction false} StreamKeepsTexts(flag: bool, msgs: seq<ServerMessage>)
    ensures ChunkTexts(StreamChunks(flag, msgs)) == Texts(msgs)
    decreases |msgs|
  {
    if msgs != [] {
      var m := msgs[0];
      ChunkTextsAppend(MessageChunks(flag, m), StreamChunks(FlagAfter(flag, m), msgs[1..]));
      MessageChunksFacts(flag, m);
      StreamKeepsTexts(FlagAfter(flag, m), msgs[1..]);
    }
  }

  /** At most one reset per completed turn: the resets never outnumber the `turnComplete`
      messages (plus one for a turn that had completed before the stream began). */
  lemma {:induction false} ResetsBoundedByTurns(flag: bool, msgs: seq<ServerMessage>)
    ensures CountResets(StreamChunks(flag, msgs)) <= CountTurnComplete(msgs) + (if flag then 1 else 0)
    decreases |msgs|
  {
    if msgs != [] {
      var m := msgs[0];
      ChunkTextsAppend(MessageChunks(flag, m), StreamChunks(FlagAfter(flag, m), msgs[1..]));
      MessageChunksFacts(flag, m);
      ResetsBoundedByTurns(FlagAfter(flag, m), msgs[1..]);
    }
  }

  /** Once a turn has completed, messages without text deliver nothing and keep the reset
      pending, so it goes to the next text-bearing message. */
  lemma {:induction false} SilentGapKeepsReset(gap: seq<ServerMessage>, m: ServerMessage)
    requires forall k :: 0 <= k < |gap| ==> !HasText(gap[k])
    requires HasText(m)
    ensures StreamChunks(true, gap + [m]) == [Reset, TextChunk(m.text.value)]
    decreases |gap|
  {
    if gap == [] {
      assert gap + [m] == [m];
      assert [m][1..] == [];
    } else {
      assert (gap + [m])[0] == gap[0] && (gap + [m])[1..] == gap[1..] + [m];
      assert !HasText(gap[0]);
      SilentGapKeepsReset(gap[1..], m);
    }
  }

  /** A message with `turnComplete` does not reset itself, whatever text it carries; the next
      text-bearing message, however many messages without text come between, is preceded by
      exactly one reset. */
  lemma TurnCompleteResetsNextText(flag: bool, m1: ServerMessage, gap: seq<ServerMessage>, m2: ServerMessage)
    requires m1.turnComplete
    requires forall k :: 0 <= k < |gap| ==> !HasText(gap[k])
    requires HasText(m2)
    ensures StreamChunks(flag, [m1] + gap + [m2])
            == MessageChunks(flag, m1) + [Reset, TextChunk(m2.text.value)]
  {
    var msgs := [m1] + gap + [m2];
    assert msgs[0] == m1 && msgs[1..] == gap + [m2];
    SilentGapKeepsReset(gap, m2);
  }

  // ---------- the session handle ----------

  /** The live session returned by `connect`: `sendRealtimeInput` and `close`. */
  class LiveSession {
    ghost var sent: seq<RealtimeInput>
    ghost var closeCount: nat

    constructor ()
      ensures sent == [] && closeCount == 0
    {
      sent := [];
      closeCount := 0;
    }

    method SendRealtimeInput(input: RealtimeInput)
      modifies this
      ensures sent == old(sent) + [input] && closeCount == old(closeCount)
    {
      sent := sent + [input];
    }

    method Close()
      modifies this
      ensures closeCount == old(closeCount) + 1 && sent == old(sent)
    {
      closeCount := closeCount + 1;
    }
  }

  // ---------- the helper ----------

  class GeminiLiveHelper {
    var session: LiveSession?
    var closePending: bool
    var turnJustCompleted: bool
    /** The messages received by `onmessage` in the current session (`responseQueue`). */
    var responseQueue: seq<ServerMessage>
    /** Every chunk handed to `onMessage`, oldest first. */
    ghost var delivered: seq<ChatChunk>

    /** A close is only ever pending on an open session, and no reset is delivered without
        the text that follows it. */
    ghost predicate Valid()
      reads this
    {
      (closePending ==> session != null) && ResetsPrecedeText(delivered)
    }

    constructor ()
      ensures Valid()
      ensures session == null && !closePending && !turnJustCompleted && responseQueue == [] && delivered == []
    {
      session := null;
      closePending := false;
      turnJustCompleted := false;
      responseQueue := [];
      delivered := [];
    }

    /** `startSession`: a no-op while a session exists. Otherwise `connection` is what
        `connect` produced (`null` when it rejected); a new session starts with an empty
        response queue. The flags are carried over as they are. */
    method StartSession(connection: LiveSession?) returns (ok: bool)
      requires Valid()
      modifies this
      ensures Valid()
      ensures closePending == old(closePending) && turnJustCompleted == old(turnJustCompleted)
      ensures delivered == old(delivered)
      ensures old(session) != null ==> ok && session == old(session) && responseQueue == old(responseQueue)
      ensures old(session) == null ==> ok == (connection != null) && session == connection
                                       && responseQueue == (if ok then [] else old(responseQueue))
    {
      if session != null {
        return true;
      }
      if connection == null {
        return false;
      }
      responseQueue := [];
      session := connection;
      ok := true;
    }

    /** The `onmessage` callback. */
    method OnMessage(m: ServerMessage)
      requires Valid()
      modifies this, session
      ensures Valid()
      ensures responseQueue == old(responseQueue) + [m]
      ensures delivered == old(delivered) + MessageChunks(old(turnJustCompleted), m)
      ensures turnJustCompleted == FlagAfter(old(turnJustCompleted), m)
      ensures if m.turnComplete && old(closePending) && old(session) != null
              then session == null && !closePending
                   && old(session).closeCount == old(session.closeCount) + 1
                   && old(session).sent == old(session.sent)
              else session == old(session) && closePending == old(closePending)
                   && (session != null ==> session.closeCount == old(session.closeCount)
                                           && session.sent == old(session.sent))
    {
      responseQueue := responseQueue + [m];
      if HasText(m) {
        if turnJustCompleted {
          delivered := delivered + [Reset];
          turnJustCompleted := false;
        }
        delivered := delivered + [TextChunk(m.text.value)];
      }
      if m.turnComplete {
        turnJustCompleted := true;
      }
      if m.turnComplete && closePending && session != null {
        session.Close();
        session := null;
        closePending := false;
      }
      DeliverKeepsResetsBeforeText(old(delivered), old(turnJustCompleted), m);
    }

    /** Sends one audio chunk as realtime input; a no-op without a session. */
    method SendAudioChunk(chunk: Bytes)
      requires Valid()
      modifies session
      ensures Valid()
      ensures session != null ==> session.sent == old(session.sent) + [Audio(chunk, AudioMimeType)]
                                  && session.closeCount == old(session.closeCount)
    {
      if session == null {
        return;
      }
      session.SendRealtimeInput(Audio(chunk, AudioMimeType));
    }

    /** Sends one JPEG frame as realtime input; a no-op without a session. */
    method SendImageChunk(jpeg: string)
      requires Valid()
      modifies session
      ensures Valid()
      ensures session != null ==> session.sent == old(session.sent) + [Video(jpeg, ImageMimeType)]
                                  && session.closeCount == old(session.closeCount)
    {
      if session == null {
        return;
      }
      session.SendRealtimeInput(Video(jpeg, ImageMimeType));
    }

    /** Sends the end-of-audio marker and asks for the session to be closed after the next
        completed turn; a no-op without a session. */
    method FinishTurn()
      requires Valid()
      modifies this, session
      ensures Valid()
      ensures session == old(session) && turnJustCompleted == old(turnJustCompleted)
      ensures responseQueue == old(responseQueue) && delivered == old(delivered)
      ensures session == null ==> closePending == old(closePending)
      ensures session != null ==> closePending
                                  && session.sent == old(session.sent) + [AudioStreamEnd]
                                  && session.closeCount == old(session.closeCount)
    {
      if session == null {
        return;
      }
      session.SendRealtimeInput(AudioStreamEnd);
      closePending := true;
    }
  }

  /** Appending one message's chunks to a log whose resets all precede text keeps that so. */
  lemma DeliverKeepsResetsBeforeText(log: seq<ChatChunk>, flag: bool, m: ServerMessage)
    requires ResetsPrecedeText(log)
    ensures ResetsPrecedeText(log + MessageChunks(flag, m))
  {
    var r := log + MessageChunks(flag, m);
    forall k | 0 <= k < |r| && r[k].Reset?
      ensures k + 1 < |r| && r[k + 1].TextChunk?
    {
      if k < |log| {
        assert r[k] == log[k];
      }
    }
  }

  /** `finishTurn` followed by a completed turn closes the session exactly once; a second
      completed turn finds no session to close. */
  method CloseAfterTurnScenario(s: LiveSession)
    requires s.closeCount == 0 && s.sent == []
    modifies s
  {
    var h := new GeminiLiveHelper();
    var ok := h.StartSession(s);
    assert ok && h.session == s;
    h.FinishTurn();
    h.OnMessage(ServerMessage(Some("partial"), false));
    assert h.session == s && s.closeCount == 0;
    h.OnMessage(ServerMessage(Some("done"), true));
    assert h.session == null && !h.closePending && s.closeCount == 1;
    h.OnMessage(ServerMessage(None, true));
    assert s.closeCount == 1;
    assert s.sent == [AudioStreamEnd];
    assert h.delivered == [TextChunk("partial"), TextChunk("done")];
  }
}
