/**
 * The browser client's push-to-talk state machine (`TrelloVoiceAssistant`).
 * Browser events (button presses, recognition and utterance events, room
 * events, timer expiry) are methods; the clock reading `Date.now()` is a
 * parameter. What the client asks of the browser (start or stop
 * recognition, restart it after a delay, speak, cancel speech) is appended
 * to an effect log, and the conversation panel is a sequence of messages.
 */
module VoiceAssistant {
  import opened Text

  // ---------------------------------------------------------------- strings

  /** JavaScript `toLowerCase` on ASCII letters; other characters are kept. */
  function Lower(s: string): (r: string)
    ensures |r| == |s|
  {
    seq(|s|, i requires 0 <= i < |s| => if 'A' <= s[i] <= 'Z' then (s[i] as int + 32) as char else s[i])
  }

  lemma LowerIdempotent(s: string)
    ensures Lower(Lower(s)) == Lower(s)
  {
  }

  /** The characters JavaScript `trim` removes: WhiteSpace and LineTerminator. */
  predicate IsJsSpace(c: char) {
    var n := c as int;
    (9 <= n <= 13) || n == 0x20 || n == 0xA0 || n == 0x1680 || (0x2000 <= n <= 0x200A)
    || n == 0x2028 || n == 0x2029 || n == 0x202F || n == 0x205F || n == 0x3000 || n == 0xFEFF
  }

  function TrimStart(s: string): string
    decreases |s|
  {
    if s != [] && IsJsSpace(s[0]) then TrimStart(s[1..]) else s
  }

  function TrimEnd(s: string): string
    decreases |s|
  {
    if s != [] && IsJsSpace(s[|s| - 1]) then TrimEnd(s[..|s| - 1]) else s
  }

  /** `s.trim()`. */
  function Trim(s: string): string { TrimEnd(TrimStart(s)) }

  lemma {:induction false} TrimStartSuffix(s: string)
    ensures |TrimStart(s)| <= |s| && TrimStart(s) == s[|s| - |TrimStart(s)|..]
    ensures TrimStart(s) == [] || !IsJsSpace(TrimStart(s)[0])
    ensures forall i :: 0 <= i < |s| - |TrimStart(s)| ==> IsJsSpace(s[i])
    decreases |s|
  {
    if s != [] && IsJsSpace(s[0]) {
      TrimStartSuffix(s[1..]);
      assert s[1..][|s| - 1 - |TrimStart(s)|..] == s[|s| - |TrimStart(s)|..];
      forall k | 0 <= k < |s| - |TrimStart(s)| ensures IsJsSpace(s[k]) {
        if k > 0 { assert s[k] == s[1..][k - 1]; }
      }
    }
  }

  lemma {:induction false} TrimEndPrefix(s: string)
    ensures |TrimEnd(s)| <= |s| && TrimEnd(s) == s[..|TrimEnd(s)|]
    ensures TrimEnd(s) == [] || !IsJsSpace(TrimEnd(s)[|TrimEnd(s)| - 1])
    ensures forall j :: |TrimEnd(s)| <= j < |s| ==> IsJsSpace(s[j])
    decreases |s|
  {
    if s != [] && IsJsSpace(s[|s| - 1]) {
      TrimEndPrefix(s[..|s| - 1]);
      assert s[..|s| - 1][..|TrimEnd(s)|] == s[..|TrimEnd(s)|];
      forall k | |TrimEnd(s)| <= k < |s| ensures IsJsSpace(s[k]) {
        if k < |s| - 1 { assert s[k] == s[..|s| - 1][k]; }
      }
    }
  }

  lemma TrimStartFixed(s: string)
    requires s == [] || !IsJsSpace(s[0])
    ensures TrimStart(s) == s
  {
  }

  lemma TrimEndFixed(s: string)
    requires s == [] || !IsJsSpace(s[|s| - 1])
    ensures TrimEnd(s) == s
  {
  }

  /**
   * `trim` drops exactly the whitespace at both ends: the result is a
   * contiguous piece of the input with every character before and after it
   * whitespace, and itself neither starts nor ends with whitespace.
   */
  lemma TrimMeaning(s: string)
    ensures exists i, j :: (0 <= i <= j <= |s| && Trim(s) == s[i..j]
      && (forall k :: 0 <= k < i ==> IsJsSpace(s[k]))
      && (forall k :: j <= k < |s| ==> IsJsSpace(s[k])))
    ensures Trim(s) == [] || (!IsJsSpace(Trim(s)[0]) && !IsJsSpace(Trim(s)[|Trim(s)| - 1]))
  {
    var t := TrimStart(s);
    TrimStartSuffix(s);
    TrimEndPrefix(t);
    var i := |s| - |t|;
    var j := i + |TrimEnd(t)|;
    assert Trim(s) == s[i..j] by {
      assert t[..|TrimEnd(t)|] == s[i..j];
    }
    forall k | j <= k < |s| ensures IsJsSpace(s[k]) {
      assert s[k] == t[k - i];
    }
    if TrimEnd(t) != [] {
      assert TrimEnd(t)[0] == t[0];
    }
  }

  /** Trimming twice is trimming once. */
  lemma TrimIdempotent(s: string)
    ensures Trim(Trim(s)) == Trim(s)
  {
    TrimMeaning(s);
    var t := Trim(s);
    if t != [] {
      TrimStartFixed(t);
      TrimEndFixed(t);
    }
  }

  /** `s.length`: UTF-16 code units, two for a character outside the Basic Multilingual Plane. */
  function Utf16Length(s: string): (n: nat)
    ensures |s| <= n <= 2 * |s|
    decreases |s|
  {
    if s == [] then 0 else (if s[0] as int >= 0x10000 then 2 else 1) + Utf16Length(s[1..])
  }

  /** For text inside the Basic Multilingual Plane the JavaScript length is the number of characters. */
  lemma {:induction false} Utf16LengthBmp(s: string)
    requires forall i :: 0 <= i < |s| ==> s[i] as int < 0x10000
    ensures Utf16Length(s) == |s|
    decreases |s|
  {
    if s != [] {
      Utf16LengthBmp(s[1..]);
    }
  }

  // ---------------------------------------------------------------- responses

  const DefaultReply: string := "I'm processing your request..."
  const BoardsReply: string := "I found 3 Trello boards: 'Personal Tasks', 'Work Projects', and 'Ideas'. Which one would you like to explore?"
  const CardsReply: string := "You have 12 cards assigned to you. 3 are due this week, including 'Review quarterly report' due tomorrow."
  const CreateReply: string := "I'll help you create a new card. What should the title be and which list should I add it to?"
  const HelloReply: string := "Hello! I'm your Trello voice assistant. I can help you manage your boards, create cards, check due dates, and much more. What would you like to do?"
  const WelcomeMessage: string := "Voice assistant connected! Hold the microphone button and speak, then release to process."

  /** This text of `generateResponse`: the first keyword the lower-cased input contains decides. */
  function Response(input: string): string {
    var s := Lower(input);
    if Contains(s, "boards") then BoardsReply
    else if Contains(s, "cards") then CardsReply
    else if Contains(s, "create") then CreateReply
    else if Contains(s, "hello") then HelloReply
    else DefaultReply
  }

  /** The reply is that of the first keyword of boards, cards, create, hello found in the input regardless of case, and the default when none is. */
  lemma ResponsePriority(input: string)
    ensures var s := Lower(input);
      (Response(input) == BoardsReply <==> Contains(s, "boards"))
      && (Response(input) == CardsReply <==> !Contains(s, "boards") && Contains(s, "cards"))
      && (Response(input) == CreateReply <==> !Contains(s, "boards") && !Contains(s, "cards") && Contains(s, "create"))
      && (Response(input) == HelloReply <==>
            !Contains(s, "boards") && !Contains(s, "cards") && !Contains(s, "create") && Contains(s, "hello"))
      && (Response(input) == DefaultReply <==>
            !Contains(s, "boards") && !Contains(s, "cards") && !Contains(s, "create") && !Contains(s, "hello"))
  {
    assert |DefaultReply| < |CreateReply| < |CardsReply| < |BoardsReply| < |HelloReply|;
  }

  /** Matching ignores case. */
  lemma ResponseIgnoresCase(input: string)
    ensures Response(Lower(input)) == Response(input)
  {
    LowerIdempotent(input);
  }

  /** "cards" inside "boards"-less text wins over a later "hello", and upper case is matched. */
  lemma ResponseExample()
    ensures Response("Hello, show me my CARDS") == CardsReply
  {
    LowerExample();
    var s := "hello, show me my cards";
    assert s[18..23] == "cards";
    ContainsAt(s, "cards", 18);
    assert 'b' !in s;
    MissingFirstChar(s, "boards");
  }

  lemma LowerExample()
    ensures Lower("Hello, show me my CARDS") == "hello, show me my cards"
  {
  }

  // ---------------------------------------------------------------- recognition results

  /** One entry of `event.results`: its first alternative's transcript and whether it is final. */
  datatype RecognitionResult = RecognitionResult(transcript: string, isFinal: bool)

  /** The concatenation of the final results' transcripts, in order. */
  function FinalText(rs: seq<RecognitionResult>): string
    decreases |rs|
  {
    if rs == [] then ""
    else FinalText(rs[..|rs| - 1]) + (if rs[|rs| - 1].isFinal then rs[|rs| - 1].transcript else "")
  }

  /** The results from `resultIndex` on, which is what `onresult` reads. */
  function NewResults(results: seq<RecognitionResult>, resultIndex: nat): seq<RecognitionResult> {
    if resultIndex <= |results| then results[resultIndex..] else []
  }

  /** What `onresult` appends to the transcript: the final text and one space, or nothing. */
  function Appended(results: seq<RecognitionResult>, resultIndex: nat): string {
    var f := FinalText(NewResults(results, resultIndex));
    if f != "" then f + " " else ""
  }

  /** Two result lists that agree on which entries are final, and on the final entries' text, give the same final text. */
  lemma {:induction false} InterimIgnored(rs: seq<RecognitionResult>, qs: seq<RecognitionResult>)
    requires |rs| == |qs|
    requires forall i :: 0 <= i < |rs| ==> rs[i].isFinal == qs[i].isFinal
    requires forall i :: 0 <= i < |rs| && rs[i].isFinal ==> rs[i].transcript == qs[i].transcript
    ensures FinalText(rs) == FinalText(qs)
    decreases |rs|
  {
    if rs != [] {
      InterimIgnored(rs[..|rs| - 1], qs[..|qs| - 1]);
    }
  }

  /** A batch without final results leaves the transcript as it is. */
  lemma {:induction false} NoFinalNoText(rs: seq<RecognitionResult>)
    requires forall i :: 0 <= i < |rs| ==> !rs[i].isFinal
    ensures FinalText(rs) == ""
    decreases |rs|
  {
    if rs != [] {
      NoFinalNoText(rs[..|rs| - 1]);
    }
  }

  lemma {:induction false} FinalTextAppend(a: seq<RecognitionResult>, b: seq<RecognitionResult>)
    ensures FinalText(a + b) == FinalText(a) + FinalText(b)
    decreases |b|
  {
    if b == [] {
      assert a + b == a;
    } else {
      assert (a + b)[..|a + b| - 1] == a + b[..|b| - 1];
      FinalTextAppend(a, b[..|b| - 1]);
    }
  }

  // ---------------------------------------------------------------- the client

  datatype Sender = User | Assistant
  datatype Message = Message(sender: Sender, content: string)

  /** A request to the browser's speech services. */
  datatype Effect =
    | StartRecognition
    | StopRecognition
    | RestartRecognitionSoon
    | Speak(text: string)
    | CancelSpeech

  /** What the getUserMedia request comes to: granted, or rejected at the given time. */
  datatype MicAccess = Granted | Denied(at: int)

  /** The inputs a voice input queues for a reply: the transcript, unless shorter than three code units. */
  function Queued(transcript: string): seq<string> {
    if Utf16Length(transcript) < 3 then [] else [transcript]
  }

  /** The messages a voice input adds to the conversation: the user's words once, unless shorter than three code units. */
  function VoiceInputMessages(transcript: string): seq<Message> {
    if Utf16Length(transcript) < 3 then [] else [Message(User, transcript)]
  }

  /** The same, as `handleVoiceInput` is written: it adds the user's words and so does `processVoiceInput`. */
  function VoiceInputMessagesAsWritten(transcript: string): seq<Message> {
    if Utf16Length(transcript) < 3 then [] else [Message(User, transcript), Message(User, transcript)]
  }

  /**
   * Every queued input is shown as a user message exactly as often as it is
   * queued once corrected, and twice as often as written; for every input the
   * as-written messages are the corrected ones shown twice.
   */
  lemma VoiceInputShownPerQueued(transcript: string)
    ensures multiset(VoiceInputMessages(transcript))[Message(User, transcript)] == |Queued(transcript)|
    ensures multiset(VoiceInputMessagesAsWritten(transcript))[Message(User, transcript)] == 2 * |Queued(transcript)|
    ensures VoiceInputMessagesAsWritten(transcript) == VoiceInputMessages(transcript) + VoiceInputMessages(transcript)
  {
  }

  /** The as-written panel shows `show me my boards` twice for its one queued reply. */
  lemma VoiceInputDuplicateExample()
    ensures var t := "show me my boards";
      |Queued(t)| == 1 && multiset(VoiceInputMessagesAsWritten(t))[Message(User, t)] == 2
  {
    VoiceInputShownPerQueued("show me my boards");
  }

  class TrelloVoiceAssistant {
    var isListening: bool
    var isSpeaking: bool
    var isConnected: bool
    var isPushToTalk: bool
    var isPressed: bool
    var pressStartTime: int
    var accumulatedTranscript: string
    /** Whether the browser offers speech recognition. */
    const hasRecognition: bool
    /** Whether microphone access has been obtained. */
    var hasMediaStream: bool
    /** The messages shown in the conversation panel. */
    var conversation: seq<Message>
    /** Inputs whose processing delay is still running, oldest first. */
    var pending: seq<string>
    /** What has been asked of the browser's speech services, in order. */
    var effects: seq<Effect>

    constructor (hasRecognition: bool)
      ensures this.hasRecognition == hasRecognition
      ensures !isListening && !isSpeaking && !isConnected && isPushToTalk && !isPressed
      ensures pressStartTime == 0 && accumulatedTranscript == "" && !hasMediaStream
      ensures conversation == [] && pending == [] && effects == []
    {
      this.hasRecognition := hasRecognition;
      isListening := false;
      isSpeaking := false;
      isConnected := false;
      isPushToTalk := true;
      isPressed := false;
      pressStartTime := 0;
      accumulatedTranscript := "";
      hasMediaStream := false;
      conversation := [];
      pending := [];
      effects := [];
    }

    /** The room's `Connected` event. */
    method OnConnected()
      modifies this
      ensures isConnected
      ensures conversation == old(conversation) + [Message(Assistant, WelcomeMessage)]
      ensures unchanged(this`isListening, this`isSpeaking, this`isPushToTalk, this`isPressed, this`pressStartTime)
      ensures unchanged(this`accumulatedTranscript, this`hasMediaStream, this`pending, this`effects)
    {
      isConnected := true;
      conversation := conversation + [Message(Assistant, WelcomeMessage)];
    }

    /** The room's `Disconnected` event. */
    method OnDisconnected()
      modifies this`isConnected
      ensures !isConnected
    {
      isConnected := false;
    }

    /**
     * `startPushToTalk`: refused while pressed, speaking or disconnected;
     * otherwise the press starts with an empty transcript, microphone access
     * is obtained if need be (a refusal ends the press through
     * `stopPushToTalk`), and recognition is started unless already running.
     */
    method StartPushToTalk(now: int, mic: MicAccess)
      modifies this
      ensures old(isPressed || isSpeaking || !isConnected) ==> unchanged(this)
      ensures !old(isPressed || isSpeaking || !isConnected) ==>
        pressStartTime == now && accumulatedTranscript == ""
        && unchanged(this`isListening, this`isSpeaking, this`isConnected, this`isPushToTalk, this`conversation, this`pending)
      ensures !old(isPressed || isSpeaking || !isConnected) && (old(hasMediaStream) || mic.Granted?) ==>
        isPressed && hasMediaStream
        && effects == old(effects) + (if hasRecognition && !isListening then [StartRecognition] else [])
      ensures !old(isPressed || isSpeaking || !isConnected) && !old(hasMediaStream) && mic.Denied? ==>
        !isPressed && !hasMediaStream
        && effects == old(effects) + (if hasRecognition && isListening then [StopRecognition] else [])
    {
      if isPressed || isSpeaking || !isConnected {
        return;
      }
      isPressed := true;
      pressStartTime := now;
      accumulatedTranscript := "";
      if !hasMediaStream {
        match mic
        case Denied(at) =>
          StopPushToTalk(at);
          return;
        case Granted =>
          hasMediaStream := true;
      }
      if hasRecognition && !isListening {
        effects := effects + [StartRecognition];
      }
    }

    /**
     * `stopPushToTalk`: ignored unless pressed; otherwise the press ends,
     * running recognition is stopped, and a press shorter than 300 ms
     * discards the transcript.
     */
    method StopPushToTalk(now: int)
      modifies this`isPressed, this`effects, this`accumulatedTranscript
      ensures !old(isPressed) ==> unchanged(this)
      ensures old(isPressed) ==> (!isPressed
        && effects == old(effects) + (if hasRecognition && isListening then [StopRecognition] else [])
        && accumulatedTranscript == (if now - pressStartTime < 300 then "" else old(accumulatedTranscript)))
    {
      if !isPressed {
        return;
      }
      isPressed := false;
      if hasRecognition && isListening {
        effects := effects + [StopRecognition];
      }
      var pressDuration := now - pressStartTime;
      if pressDuration < 300 {
        accumulatedTranscript := "";
      }
    }

    /** The recognition's `onstart`. */
    method OnStart()
      modifies this`isListening
      ensures isListening
    {
      isListening := true;
    }

    /**
     * The recognition's `onresult`: the final results from `resultIndex` on
     * are concatenated, and when that text is not empty it is appended to the
     * transcript with one space. Interim results only feed the status line.
     */
    method OnResult(results: seq<RecognitionResult>, resultIndex: nat)
      modifies this`accumulatedTranscript
      ensures accumulatedTranscript == old(accumulatedTranscript) + Appended(results, resultIndex)
    {
      var finalTranscript := "";
      var i := resultIndex;
      while i < |results|
        invariant resultIndex <= |results| ==> resultIndex <= i <= |results| && finalTranscript == FinalText(results[resultIndex..i])
        invariant resultIndex > |results| ==> i == resultIndex && finalTranscript == ""
        decreases |results| - i
      {
        assert results[resultIndex..i + 1][..i - resultIndex] == results[resultIndex..i];
        finalTranscript := finalTranscript + (if results[i].isFinal then results[i].transcript else "");
        i := i + 1;
      }
      if resultIndex <= |results| {
        assert results[resultIndex..i] == NewResults(results, resultIndex);
      }
      if finalTranscript != "" {
        accumulatedTranscript := accumulatedTranscript + finalTranscript + " ";
      }
    }

    /**
     * The recognition's `onend`: listening stops; while the button is still
     * held in push-to-talk mode recognition is restarted after a delay and
     * the transcript kept; otherwise a transcript that is not blank is handed,
     * trimmed, to `handleVoiceInput` and reset.
     */
    method OnEnd()
      modifies this
      ensures !isListening
      ensures unchanged(this`isSpeaking, this`isConnected, this`isPushToTalk, this`isPressed, this`pressStartTime, this`hasMediaStream)
      ensures old(isPressed && isPushToTalk) ==>
        effects == old(effects) + [RestartRecognitionSoon]
        && unchanged(this`accumulatedTranscript, this`conversation, this`pending)
      ensures !old(isPressed && isPushToTalk) && Trim(old(accumulatedTranscript)) == "" ==>
        unchanged(this`accumulatedTranscript, this`conversation, this`pending, this`effects)
      ensures !old(isPressed && isPushToTalk) && Trim(old(accumulatedTranscript)) != "" ==>
        var t := Trim(old(accumulatedTranscript));
        accumulatedTranscript == ""
        && conversation == old(conversation) + VoiceInputMessagesAsWritten(t)
        && pending == old(pending) + Queued(t)
        && effects == old(effects)
    {
      isListening := false;
      if isPressed && isPushToTalk {
        effects := effects + [RestartRecognitionSoon];
      } else if Trim(accumulatedTranscript) != "" {
        HandleVoiceInputAsWritten(Trim(accumulatedTranscript));
        accumulatedTranscript := "";
      }
    }

    /** `onend` with the corrected `handleVoiceInput`: an accepted transcript is shown once. */
    method OnEndCorrected()
      modifies this
      ensures !isListening
      ensures unchanged(this`isSpeaking, this`isConnected, this`isPushToTalk, this`isPressed, this`pressStartTime, this`hasMediaStream)
      ensures old(isPressed && isPushToTalk) ==>
        effects == old(effects) + [RestartRecognitionSoon]
        && unchanged(this`accumulatedTranscript, this`conversation, this`pending)
      ensures !old(isPressed && isPushToTalk) && Trim(old(accumulatedTranscript)) == "" ==>
        unchanged(this`accumulatedTranscript, this`conversation, this`pending, this`effects)
      ensures !old(isPressed && isPushToTalk) && Trim(old(accumulatedTranscript)) != "" ==>
        var t := Trim(old(accumulatedTranscript));
        accumulatedTranscript == ""
        && conversation == old(conversation) + VoiceInputMessages(t)
        && pending == old(pending) + Queued(t)
        && effects == old(effects)
    {
      isListening := false;
      if isPressed && isPushToTalk {
        effects := effects + [RestartRecognitionSoon];
      } else if Trim(accumulatedTranscript) != "" {
        HandleVoiceInput(Trim(accumulatedTranscript));
        accumulatedTranscript := "";
      }
    }

    /** `handleVoiceInput`, corrected: input shorter than three code units is ignored; otherwise it is processed, which shows it once. */
    method HandleVoiceInput(transcript: string)
      modifies this`conversation, this`pending
      ensures conversation == old(conversation) + VoiceInputMessages(transcript)
      ensures pending == old(pending) + Queued(transcript)
    {
      if Utf16Length(transcript) < 3 {
        return;
      }
      ProcessVoiceInput(transcript);
    }

    /** `handleVoiceInput` as written: it shows the input itself and then processes it. */
    method HandleVoiceInputAsWritten(transcript: string)
      modifies this`conversation, this`pending
      ensures conversation == old(conversation) + VoiceInputMessagesAsWritten(transcript)
      ensures pending == old(pending) + Queued(transcript)
    {
      if Utf16Length(transcript) < 3 {
        return;
      }
      conversation := conversation + [Message(User, transcript)];
      ProcessVoiceInput(transcript);
    }

    /** `processVoiceInput`: shows the user's words and starts the processing delay. */
    method ProcessVoiceInput(transcript: string)
      modifies this`conversation, this`pending
      ensures conversation == old(conversation) + [Message(User, transcript)]
      ensures pending == old(pending) + [transcript]
    {
      conversation := conversation + [Message(User, transcript)];
      pending := pending + [transcript];
    }

    /** The processing delay of the oldest pending input ends: `generateResponse` shows and speaks the reply. */
    method OnProcessingDone()
      modifies this`conversation, this`pending, this`effects
      ensures old(pending) == [] ==> unchanged(this)
      ensures old(pending) != [] ==>
        var r := Response(old(pending)[0]);
        pending == old(pending)[1..]
        && conversation == old(conversation) + [Message(Assistant, r)]
        && effects == old(effects) + [Speak(r)]
    {
      if pending == [] {
        return;
      }
      var input := pending[0];
      pending := pending[1..];
      var response := Response(input);
      conversation := conversation + [Message(Assistant, response)];
      effects := effects + [Speak(response)];
    }

    /** The utterance's `onstart`. */
    method OnUtteranceStart()
      modifies this`isSpeaking
      ensures isSpeaking
    {
      isSpeaking := true;
    }

    /** The utterance's `onend` or `onerror`. */
    method OnUtteranceEnd()
      modifies this`isSpeaking
      ensures !isSpeaking
    {
      isSpeaking := false;
    }

    /** `interruptSpeech`: only while speaking, the speech is cancelled and speaking ends. */
    method InterruptSpeech()
      modifies this`isSpeaking, this`effects
      ensures !old(isSpeaking) ==> unchanged(this)
      ensures old(isSpeaking) ==> !isSpeaking && effects == old(effects) + [CancelSpeech]
    {
      if isSpeaking {
        effects := effects + [CancelSpeech];
        isSpeaking := false;
      }
    }

    /** `sendVoiceCommand`: a quick-action command is processed only while connected. */
    method SendVoiceCommand(command: string)
      modifies this`conversation, this`pending
      ensures !isConnected ==> unchanged(this)
      ensures isConnected ==> (conversation == old(conversation) + [Message(User, command)] && pending == old(pending) + [command])
    {
      if !isConnected {
        return;
      }
      ProcessVoiceInput(command);
    }
  }
}
