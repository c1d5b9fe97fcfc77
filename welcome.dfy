/**
 * `WelcomeSession` and the `welcome_sessions` registry (services/welcome_service.py).
 * The language model, the text-to-speech service, the JSON decoder and the clock are
 * outside the model: the first three arrive as `Services`, timestamps as parameters.
 */
module Welcome {
  import opened Wrappers
  import opened Text
  import Gemini
  import opened WelcomeInfo
  import opened WelcomeChat

  /** What is sent to the language model; the wording of each prompt is not modelled, only what it carries. */
  datatype WelcomePrompt =
    | Greeting
    | ChatTurn(info: CollectedInfo, context: string, userInput: string)
    | SummaryRequest(info: CollectedInfo)
    | RoadmapRequest(info: CollectedInfo)

  /**
   * The outside world as seen from one call: the configured project id, what the model
   * answers to each prompt, what `generate_audio` does with a text (the path of the file
   * it wrote, or the error it raised), and what `json.loads` makes of a text. Each
   * `generate_audio` call is a request of its own: `speak` is the first one an operation
   * makes, `speakFallback` the one `process_user_input` makes after the first has failed,
   * so the two may turn out differently even for the same text.
   */
  datatype Services = Services(
    projectId: Option<string>,
    model: WelcomePrompt -> Gemini.LlmReply,
    speak: string -> Result<string, string>,
    speakFallback: string -> Result<string, string>,
    decode: string -> Gemini.Decoded)

  const UserRole: string := "user"
  const AssistantRole: string := "assistant"
  const SessionName: string := "welcome_session"
  const SessionNotFound: string := "Welcome session not found"
  const NotReady: string := "Session not ready for roadmap generation"

  /** The dictionary `process_user_input` returns. */
  datatype TurnReply = TurnReply(
    response: string,
    audioUrl: string,
    readyToGenerate: bool,
    learningSummary: Option<string>,
    collectedInfo: CollectedInfo,
    currentStep: string)

  // ---------------------------------------------------------------------------
  // The learning summary
  // ---------------------------------------------------------------------------

  /** Python's `str()` of an optional text or number inside an f-string. */
  function ShowText(o: Option<string>): string {
    match o case Some(t) => t case None => "None"
  }

  function ShowNat(o: Option<nat>): string {
    match o case Some(n) => NatToString(n) case None => "None"
  }

  /** The sentence `_generate_learning_summary` falls back to. */
  function SummaryFallback(info: CollectedInfo): string
  {
    "Learn " + ShowText(info.topic) + " in " + ShowNat(info.days) + " days with "
      + ShowText(info.experienceLevel) + " level experience."
  }

  /**
   * `_generate_learning_summary()`: the model's summary, or the fallback sentence when the
   * call raised (`answer == None`). `get_gemini_response` catches every `Exception`, so the
   * fallback is reached only through exceptions outside that class.
   */
  function SummaryText(info: CollectedInfo, answer: Option<string>): string
  {
    match answer case Some(t) => t case None => SummaryFallback(info)
  }

  function LearningSummary(s: Services, info: CollectedInfo): string
  {
    SummaryText(info, Some(Gemini.GetGeminiResponse(s.projectId, s.model(SummaryRequest(info)))))
  }

  /** The fallback sentence names the topic, the day count in decimal and the level, in that order. */
  lemma SummaryFallbackNames(info: CollectedInfo)
    requires info.topic.Some? && info.days.Some? && info.experienceLevel.Some?
    ensures var f := SummaryFallback(info);
      Contains(f, info.topic.value) && Contains(f, NatToString(info.days.value))
      && Contains(f, info.experienceLevel.value)
      && StartsWith(f, "Learn ")
  {
    var t, d, e := info.topic.value, NatToString(info.days.value), info.experienceLevel.value;
    var f := SummaryFallback(info);
    var tail := " level experience.";
    assert f == "Learn " + t + (" in " + d + " days with " + e + tail);
    ContainsMiddle("Learn ", t, " in " + d + " days with " + e + tail);
    assert f == "Learn " + t + " in " + d + (" days with " + e + tail);
    ContainsMiddle("Learn " + t + " in ", d, " days with " + e + tail);
    ContainsMiddle("Learn " + t + " in " + d + " days with ", e, tail);
  }

  // ---------------------------------------------------------------------------
  // One turn of the conversation, as a value
  // ---------------------------------------------------------------------------

  datatype TurnOutcome = TurnOutcome(state: Progress, history: seq<ChatMessage>, result: Result<TurnReply, string>)

  /** The spoken reply to one utterance: the model's answer to the prompt built after extraction. */
  function ReplyText(s: Services, p: Progress, h: seq<ChatMessage>, u: string): string
  {
    Gemini.GetGeminiResponse(s.projectId, s.model(ChatTurn(ExtractInfo(p, u).info, ChatContext(h), u)))
  }

  /**
   * `process_user_input(u)` from state `p` and history `h`. When extraction raises, the
   * error propagates at once and nothing changes. When speaking the reply fails, the apology
   * is spoken instead and no messages are kept; when that fails too, the error propagates.
   * The state changes made by extraction stay either way.
   */
  function Turn(s: Services, p: Progress, h: seq<ChatMessage>, u: string, userTime: string, replyTime: string): TurnOutcome
  {
    if ExtractRaises(p, u) then TurnOutcome(p, h, Failure(IntLimitMessage(|FirstDigitRun(u).value|)))
    else
      var text := ReplyText(s, p, h, u);
      var done := ProcessState(p, u);
      match s.speak(text)
      case Success(path) =>
        var url := AudioUrl(path);
        var summary := if done.info.infoComplete || done.info.readyToGenerate then Some(LearningSummary(s, done.info)) else None;
        TurnOutcome(done,
          h + [ChatMessage(UserRole, u, userTime, None), ChatMessage(AssistantRole, text, replyTime, Some(url))],
          Success(TurnReply(text, url, done.info.readyToGenerate, summary, done.info, done.step)))
      case Failure(_) =>
        TurnOutcome(done, h,
          match s.speakFallback(Gemini.TroubleUnderstanding)
          case Success(path) => Success(TurnReply(Gemini.TroubleUnderstanding, AudioUrl(path), false, None, done.info, done.step))
          case Failure(e) => Failure(e))
  }

  /**
   * The history shape every turn keeps: only user and assistant messages, every assistant
   * message carries a served audio URL, and every user message has one and is answered.
   */
  predicate WellFormed(h: seq<ChatMessage>) {
    forall i :: 0 <= i < |h| ==> WellFormedAt(h, i)
  }

  predicate WellFormedAt(h: seq<ChatMessage>, i: nat)
    requires i < |h|
  {
    (h[i].role == UserRole || h[i].role == AssistantRole)
    && (h[i].role == AssistantRole ==> h[i].audioUrl.Some? && StartsWith(h[i].audioUrl.value, "/audio/"))
    && (h[i].role == UserRole ==> h[i].audioUrl.None? && i + 1 < |h| && h[i + 1].role == AssistantRole)
  }

  lemma AppendTwo(h: seq<ChatMessage>, a: ChatMessage, b: ChatMessage)
    ensures h + [a] + [b] == h + [a, b]
  {
  }

  lemma RolesDiffer()
    ensures UserRole != AssistantRole
  {
    assert UserRole[0] != AssistantRole[0];
  }

  /** A history holding only a spoken greeting is well formed. */
  lemma GreetingWellFormed(m: ChatMessage)
    requires m.role == AssistantRole && m.audioUrl.Some? && StartsWith(m.audioUrl.value, "/audio/")
    ensures WellFormed([m])
  {
    RolesDiffer();
    assert WellFormedAt([m], 0);
  }

  /** A turn either appends exactly the user message and then the spoken reply, or appends nothing. */
  lemma TurnHistory(s: Services, p: Progress, h: seq<ChatMessage>, u: string, userTime: string, replyTime: string)
    ensures var o := Turn(s, p, h, u, userTime, replyTime);
      ExtractRaises(p, u) ==> o.history == h
    ensures var o := Turn(s, p, h, u, userTime, replyTime);
      !ExtractRaises(p, u) ==>
      match s.speak(ReplyText(s, p, h, u))
      case Success(path) =>
        o.history == h + [ChatMessage(UserRole, u, userTime, None),
                          ChatMessage(AssistantRole, ReplyText(s, p, h, u), replyTime, Some(AudioUrl(path)))]
      case Failure(_) => o.history == h
  {
  }

  /** The state after a turn is the state machine's, whether or not the reply could be spoken. */
  lemma TurnState(s: Services, p: Progress, h: seq<ChatMessage>, u: string, userTime: string, replyTime: string)
    requires Consistent(p)
    ensures var o := Turn(s, p, h, u, userTime, replyTime);
      o.state == ProcessState(p, u) && Consistent(o.state)
  {
    ProcessStateConsistent(p, u);
  }

  /** Appending a user message without audio and then a spoken assistant reply keeps a history well formed. */
  lemma WellFormedAppendTurn(h: seq<ChatMessage>, um: ChatMessage, am: ChatMessage)
    requires WellFormed(h)
    requires um.role == UserRole && um.audioUrl.None?
    requires am.role == AssistantRole && am.audioUrl.Some? && StartsWith(am.audioUrl.value, "/audio/")
    ensures WellFormed(h + [um, am])
  {
    var g := h + [um, am];
    var n := |h|;
    RolesDiffer();
    forall i | 0 <= i < |g|
      ensures WellFormedAt(g, i)
    {
      if i < n {
        assert WellFormedAt(h, i);
        assert g[i] == h[i];
        if i + 1 < n {
          assert g[i + 1] == h[i + 1];
        }
      } else if i == n {
        assert g[i] == um && g[i + 1] == am;
      } else {
        assert g[i] == am;
      }
    }
  }

  /** Turns keep the history well formed. */
  lemma TurnKeepsWellFormed(s: Services, p: Progress, h: seq<ChatMessage>, u: string, userTime: string, replyTime: string)
    requires WellFormed(h)
    ensures WellFormed(Turn(s, p, h, u, userTime, replyTime).history)
  {
    TurnHistory(s, p, h, u, userTime, replyTime);
    var text := ReplyText(s, p, h, u);
    var spoken := s.speak(text);
    if !ExtractRaises(p, u) && spoken.Success? {
      var url := AudioUrl(spoken.value);
      WellFormedAppendTurn(h, ChatMessage(UserRole, u, userTime, None), ChatMessage(AssistantRole, text, replyTime, Some(url)));
    }
  }

  /** What a successful turn reports: the current state, and a summary exactly once the info is complete. */
  lemma TurnReport(s: Services, p: Progress, h: seq<ChatMessage>, u: string, userTime: string, replyTime: string)
    requires Consistent(p)
    ensures var o := Turn(s, p, h, u, userTime, replyTime);
      o.result.Success? ==>
        o.result.value.collectedInfo == o.state.info && o.result.value.currentStep == o.state.step
        && StartsWith(o.result.value.audioUrl, "/audio/")
    ensures var o := Turn(s, p, h, u, userTime, replyTime);
      !ExtractRaises(p, u) && s.speak(ReplyText(s, p, h, u)).Success? ==>
        o.result.value.response == ReplyText(s, p, h, u)
        && o.result.value.readyToGenerate == o.state.info.readyToGenerate
        && o.result.value.learningSummary ==
             (if o.state.info.infoComplete then Some(LearningSummary(s, o.state.info)) else None)
  {
    ProcessStateConsistent(p, u);
  }

  /**
   * When the reply cannot be spoken, the apology is reported with no summary and not ready,
   * and nothing is recorded. Whether the apology is spoken depends on the second request
   * alone, not on how the first one went.
   */
  lemma TurnFallback(s: Services, p: Progress, h: seq<ChatMessage>, u: string, userTime: string, replyTime: string)
    requires !ExtractRaises(p, u)
    requires s.speak(ReplyText(s, p, h, u)).Failure?
    ensures var o := Turn(s, p, h, u, userTime, replyTime);
      o.history == h
      && (o.result.Failure? <==> s.speakFallback(Gemini.TroubleUnderstanding).Failure?)
      && (o.result.Failure? ==> o.result.error == s.speakFallback(Gemini.TroubleUnderstanding).error)
      && (o.result.Success? ==>
            o.result.value.response == Gemini.TroubleUnderstanding && !o.result.value.readyToGenerate
            && o.result.value.learningSummary.None? && o.result.value.collectedInfo == ProcessState(p, u).info)
  {
  }

  /**
   * A turn whose extraction raises changes neither the state nor the history, and fails with
   * the message of the `ValueError`, naming how many digits the first run has.
   */
  lemma TurnRaises(s: Services, p: Progress, h: seq<ChatMessage>, u: string, userTime: string, replyTime: string)
    requires ExtractRaises(p, u)
    ensures var o := Turn(s, p, h, u, userTime, replyTime);
      o.state == p && o.history == h
      && o.result == Failure(IntLimitMessage(|FirstDigitRun(u).value|))
      && |FirstDigitRun(u).value| > IntMaxStrDigits
  {
  }

  /**
   * While the days are unset, answering with a number of more than 4300 digits (say, a
   * run of zeros before "14") fails the turn and leaves the session as it was; with fewer
   * digits the turn goes on (and the value decides the days).
   */
  lemma LongNumberFailsTurn(s: Services, p: Progress, h: seq<ChatMessage>, pre: string, ds: string, rest: string,
                            userTime: string, replyTime: string)
    requires TopicSet(p.info) && !DaysSet(p.info)
    requires NoDigits(pre) && |ds| > 0 && AllDigits(ds)
    requires rest == [] || !IsDigit(rest[0])
    ensures var o := Turn(s, p, h, pre + ds + rest, userTime, replyTime);
      (o.result.Failure? && o.state == p && o.history == h) <== |ds| > IntMaxStrDigits
    ensures |ds| <= IntMaxStrDigits ==> !ExtractRaises(p, pre + ds + rest)
  {
    LongRunRaises(p, pre, ds, rest);
  }

  // ---------------------------------------------------------------------------
  // WelcomeSession
  // ---------------------------------------------------------------------------

  class WelcomeSession {
    const guestId: string
    const sessionName: string
    var chatHistory: seq<ChatMessage>
    var collectedInfo: CollectedInfo
    var currentStep: string

    /** `collected_info` with `current_step`. */
    function State(): Progress
      reads this
    {
      Progress(collectedInfo, currentStep)
    }

    predicate Valid()
      reads this
    {
      Consistent(State()) && WellFormed(chatHistory)
    }

    /** A valid session whose history opens with the spoken greeting, as every registered one does. */
    predicate Greeted()
      reads this
    {
      Valid() && |chatHistory| > 0 && chatHistory[0].role == AssistantRole
    }

    constructor (guestId: string)
      ensures this.guestId == guestId && sessionName == SessionName
      ensures chatHistory == [] && State() == Initial
      ensures Valid()
    {
      this.guestId := guestId;
      sessionName := SessionName;
      chatHistory := [];
      collectedInfo := InitialInfo;
      currentStep := "topic";
    }

    /** `add_message(role, content, audio_url)`, stamped with the clock reading `now`. */
    method AddMessage(role: string, content: string, audioUrl: Option<string>, now: string)
      modifies this
      ensures chatHistory == old(chatHistory) + [ChatMessage(role, content, now, audioUrl)]
      ensures collectedInfo == old(collectedInfo) && currentStep == old(currentStep)
    {
      chatHistory := chatHistory + [ChatMessage(role, content, now, audioUrl)];
    }

    /**
     * `_extract_info_from_user_input(u)`: at most one field is collected, the first unset one.
     * `error` is the message of the `ValueError` `int()` raises on an over-long number.
     */
    method ExtractInfoFromUserInput(u: string) returns (error: Option<string>)
      modifies this
      ensures State() == ExtractInfo(old(State()), u)
      ensures error.Some? <==> ExtractRaises(old(State()), u)
      ensures error.Some? ==> error.value == IntLimitMessage(|FirstDigitRun(u).value|)
      ensures chatHistory == old(chatHistory)
    {
      error := None;
      ghost var p0 := State();
      if !TopicSet(collectedInfo) {
        TopicStep(p0, u);
        if !(Lower(u) in Stoplist || |Strip(u)| < 3) {
          collectedInfo := collectedInfo.(topic := Some(Strip(u)));
          currentStep := "days";
        }
      } else if !DaysSet(collectedInfo) {
        assert BranchOf(collectedInfo) == DaysBranch;
        DaysStep(p0, u);
        var numbers := FirstDigitRun(u);
        if numbers.Some? {
          if |numbers.value| > IntMaxStrDigits {
            assert ExtractRaises(State(), u) && DaysFrom(u).None?;
            return Some(IntLimitMessage(|numbers.value|));
          }
          var days := DigitsValue(numbers.value);
          if 7 <= days <= 30 {
            collectedInfo := collectedInfo.(days := Some(days));
            currentStep := "experience";
          }
        }
      } else if !ExperienceSet(collectedInfo) {
        ExperienceStep(p0, u);
        var userLower := Lower(u);
        var experience;
        if MentionsAny(userLower, BeginnerWords) {
          experience := "beginner";
        } else if MentionsAny(userLower, IntermediateWords) {
          experience := "intermediate";
        } else if MentionsAny(userLower, AdvancedWords) {
          experience := "advanced";
        } else {
          experience := Strip(u);
        }
        assert experience == ClassifyExperience(u);
        collectedInfo := collectedInfo.(experienceLevel := Some(experience), infoComplete := true);
      } else if collectedInfo.infoComplete && !collectedInfo.confirmationAsked {
        collectedInfo := collectedInfo.(confirmationAsked := true);
      }
    }

    /** `_get_chat_context()`: the last six messages, one scrubbed line each. */
    method GetChatContext() returns (context: string)
      ensures context == ChatContext(chatHistory)
    {
      if chatHistory == [] {
        return NoHistory;
      }
      var recent := if |chatHistory| > Window then chatHistory[|chatHistory| - Window..] else chatHistory;
      assert recent == RecentMessages(chatHistory);
      context := "";
      for i := 0 to |recent|
        invariant context == RenderAll(recent[..i])
      {
        var msg := recent[i];
        var cleanContent := Scrub(msg.content);
        var line := msg.role + ": " + cleanContent + "\n";
        assert line == Render(msg);
        RenderAllExtend(recent, i);
        context := context + line;
      }
      assert recent[..|recent|] == recent;
    }

    /** `process_user_input(u)`. */
    method ProcessUserInput(u: string, s: Services, userTime: string, replyTime: string) returns (r: Result<TurnReply, string>)
      requires Valid()
      modifies this
      ensures Valid()
      ensures var o := Turn(s, old(State()), old(chatHistory), u, userTime, replyTime);
        State() == o.state && chatHistory == o.history && r == o.result
    {
      ghost var p0, h0 := State(), chatHistory;
      ghost var o := Turn(s, p0, h0, u, userTime, replyTime);
      var error := ExtractInfoFromUserInput(u);
      if error.Some? {
        RaisesKeepsState(p0, u);
        return Failure(error.value);
      }
      var context := GetChatContext();
      var responseText := Gemini.GetGeminiResponse(s.projectId, s.model(ChatTurn(collectedInfo, context, u)));
      assert responseText == ReplyText(s, p0, h0, u);
      if collectedInfo.infoComplete && collectedInfo.confirmationAsked {
        collectedInfo := collectedInfo.(readyToGenerate := true);
      }
      assert State() == ProcessState(p0, u);
      TurnState(s, p0, h0, u, userTime, replyTime);
      TurnKeepsWellFormed(s, p0, h0, u, userTime, replyTime);
      TurnHistory(s, p0, h0, u, userTime, replyTime);
      var spoken := s.speak(responseText);
      if spoken.Success? {
        var audioUrl := AudioUrl(spoken.value);
        ghost var um, am := ChatMessage(UserRole, u, userTime, None), ChatMessage(AssistantRole, responseText, replyTime, Some(audioUrl));
        assert o.history == h0 + [um, am];
        AddMessage(UserRole, u, None, userTime);
        AddMessage(AssistantRole, responseText, Some(audioUrl), replyTime);
        AppendTwo(h0, um, am);
        var summary := None;
        if collectedInfo.infoComplete || collectedInfo.readyToGenerate {
          summary := Some(LearningSummary(s, collectedInfo));
        }
        r := Success(TurnReply(responseText, audioUrl, collectedInfo.readyToGenerate, summary, collectedInfo, currentStep));
      } else {
        assert o.history == h0 == chatHistory;
        responseText := Gemini.TroubleUnderstanding;
        var fallback := s.speakFallback(responseText);
        if fallback.Success? {
          r := Success(TurnReply(responseText, AudioUrl(fallback.value), false, None, collectedInfo, currentStep));
        } else {
          r := Failure(fallback.error);
        }
      }
    }
  }

  // ---------------------------------------------------------------------------
  // The welcome_sessions registry
  // ---------------------------------------------------------------------------

  class WelcomeRegistry {
    var sessions: map<string, WelcomeSession>

    /** Every entry is filed under its own guest id, is valid, and opens with the spoken greeting. */
    predicate Valid()
      reads this, sessions.Values
    {
      forall id :: id in sessions ==> sessions[id].guestId == id && sessions[id].Greeted()
    }

    constructor ()
      ensures sessions == map[] && Valid()
    {
      sessions := map[];
    }

    /**
     * `create_welcome_session()`, with the id `uuid.uuid4()` produced passed in: greet, speak
     * the greeting, and register the session with the greeting as its first message. An id
     * already present is overwritten, as a dictionary assignment does.
     */
    method CreateWelcomeSession(guestId: string, s: Services, now: string) returns (r: Result<(string, string, string), string>)
      requires Valid()
      modifies this
      ensures Valid()
      ensures var greeting := Gemini.GetGeminiResponse(s.projectId, s.model(Greeting));
        match s.speak(greeting)
        case Failure(e) => r == Failure(e) && sessions == old(sessions)
        case Success(path) =>
          r == Success((guestId, greeting, AudioUrl(path)))
          && sessions.Keys == old(sessions).Keys + {guestId}
          && fresh(sessions[guestId])
          && sessions[guestId].chatHistory == [ChatMessage(AssistantRole, greeting, now, Some(AudioUrl(path)))]
          && sessions[guestId].State() == Initial
          && (forall id :: id in old(sessions) && id != guestId ==> sessions[id] == old(sessions)[id])
    {
      var session := new WelcomeSession(guestId);
      var welcomeMessage := Gemini.GetGeminiResponse(s.projectId, s.model(Greeting));
      var spoken := s.speak(welcomeMessage);
      if spoken.Failure? {
        return Failure(spoken.error);
      }
      var audioUrl := AudioUrl(spoken.value);
      session.AddMessage(AssistantRole, welcomeMessage, Some(audioUrl), now);
      GreetingWellFormed(session.chatHistory[0]);
      assert session.chatHistory == [session.chatHistory[0]];
      InitialConsistent();
      assert session.Greeted();
      ghost var before := sessions;
      sessions := sessions[guestId := session];
      forall id | id in sessions
        ensures sessions[id].guestId == id && sessions[id].Greeted()
      {
        if id != guestId {
          assert sessions[id] == before[id];
        }
      }
      r := Success((guestId, welcomeMessage, audioUrl));
    }

    /** `get_welcome_session(guest_id)`. */
    method GetWelcomeSession(guestId: string) returns (r: Option<WelcomeSession>)
      requires Valid()
      ensures r.Some? <==> guestId in sessions
      ensures r.Some? ==> r.value == sessions[guestId] && r.value.guestId == guestId
    {
      r := if guestId in sessions then Some(sessions[guestId]) else None;
    }

    /** `process_welcome_input(guest_id, u)`: an unknown id raises; otherwise the session takes the turn. */
    method ProcessWelcomeInput(guestId: string, u: string, s: Services, userTime: string, replyTime: string)
      returns (r: Result<TurnReply, string>)
      requires Valid()
      modifies set id | id in sessions && id == guestId :: sessions[id]
      ensures Valid()
      ensures sessions == old(sessions)
      ensures guestId !in sessions ==> r == Failure(SessionNotFound)
      ensures guestId in sessions ==>
        var session := sessions[guestId];
        var o := Turn(s, old(session.State()), old(session.chatHistory), u, userTime, replyTime);
        session.State() == o.state && session.chatHistory == o.history && r == o.result
    {
      if guestId !in sessions {
        return Failure(SessionNotFound);
      }
      var session := sessions[guestId];
      r := session.ProcessUserInput(u, s, userTime, replyTime);
      assert forall id :: id in sessions && id != guestId ==> sessions[id] != session;
    }

    /** `generate_roadmap_from_session(guest_id)`: only a known, ready session gets a roadmap. */
    method GenerateRoadmapFromSession(guestId: string, s: Services) returns (r: Result<Gemini.Json, string>)
      requires Valid()
      ensures guestId !in sessions || !sessions[guestId].collectedInfo.readyToGenerate ==> r == Failure(NotReady)
      ensures guestId in sessions && sessions[guestId].collectedInfo.readyToGenerate ==>
        var info := sessions[guestId].collectedInfo;
        match Gemini.GenerateRoadmap(s.projectId, s.model(RoadmapRequest(info)), s.decode)
        case Success(doc) => r == Success(doc)
        case Failure(f) => r == Failure(f.Message())
      // The roadmap prompt is only ever built from a topic, a day count in [7, 30] and a level.
      ensures guestId in sessions && sessions[guestId].collectedInfo.readyToGenerate ==>
        var info := sessions[guestId].collectedInfo;
        TopicSet(info) && ExperienceSet(info) && info.days.Some? && 7 <= info.days.value <= 30
    {
      if guestId !in sessions || !sessions[guestId].collectedInfo.readyToGenerate {
        return Failure(NotReady);
      }
      var info := sessions[guestId].collectedInfo;
      ReadyMeansComplete(sessions[guestId].State());
      var res := Gemini.GenerateRoadmap(s.projectId, s.model(RoadmapRequest(info)), s.decode);
      r := if res.Success? then Success(res.value) else Failure(res.error.Message());
    }
  }
}
