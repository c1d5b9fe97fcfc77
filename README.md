# Welcome conversation, Gemini reply handling and audio sessions

A Dafny model of the guest onboarding back end of the learning assistant for blind users. It has three parts.

- **services/welcome_service.py.** This is the `WelcomeSession` object and its `collected_info` state machine. It collects a topic, a day count in [7, 30] and an experience level, records a confirmation, and then sets `ready_to_generate`. The object also keeps the chat history and renders the six-message chat context. The in-memory `welcome_sessions` registry goes with it, with its create, get, process and roadmap operations.
- **services/gemini_service.py.** This is the local logic around the Vertex AI calls. It cleans a reply of Markdown code fences (` ```json `, ` ``` `). It then chooses between the decoded roadmap, the fixed fallback roadmap and an exception. The conversational reply never raises.
- **services/session_service.py.** This is the audio-session registry, which maps a session id to its audio file paths. Its clean-up deletes the files that still exist.

## How the model is built

- **Files and modules.**
  - `wrappers.dfy` holds `Option` and `Result`.
  - `text.dfy` holds the Python `str` operations the services use: `strip` on Python's whitespace set, ASCII `lower`, `in`, `startswith`/`endswith`, `replace(x, "")`, `re.findall(r'\d+', s)[0]` with `int()`, `str(n)`, and `split('/')[-1]`.
  - `gemini.dfy` is pure: the roadmap clean-up and selection, and the conversational reply.
  - `welcome_info.dfy` is the `collected_info` state machine as functions on values, with its invariant and lemmas. `welcome_examples.dfy` holds worked conversations over it.
  - `welcome_chat.dfy` holds the chat-context rendering and the audio URL.
  - `welcome.dfy` holds the imperative `WelcomeSession` and `WelcomeRegistry` classes.
  - `audio_sessions.dfy` holds the `AudioSessions` class and a `FileSystem` class.
- **Abstract outside world.** The language model, the text-to-speech service and `json.loads` are parameters of type `Welcome.Services` or `Gemini.LlmReply`. The model is a function from prompt to reply or exception; speech is a function from text to file path or error, one for the first request of an operation and one for the fallback request `process_user_input` makes after a failure, so that a retry can turn out differently; `json.loads` is a function from text to a document, a `JSONDecodeError`, or another exception.
- **Passed in.** The clock (`datetime.now().isoformat()`) and `uuid.uuid4()` arrive as parameters.
- **State changes stay imperative.** Every method that changes state is proved against a function on values. `WelcomeSession.ProcessUserInput` returns exactly what `Welcome.Turn` computes, and `WelcomeSession.ExtractInfoFromUserInput` changes the state exactly as `WelcomeInfo.ExtractInfo` does. The lemmas about those functions carry the properties.
- **Python truthiness is explicit.**
  - A topic or experience level counts as unset when it is `None` or `""`.
  - A day count counts as unset when it is `None` or `0`.
  - A project id counts as missing when it is unset or empty.

## What the code does

These points about the code are each proved in the model, except the last of them, which the model takes as given.

- **Confirmation and readiness come in the same call.** The call just after the experience level was collected sets `confirmation_asked`. Lines 76-77 then set `ready_to_generate` in that same `process_user_input`. So a conversation from the start is never ready before its fourth utterance (`WelcomeInfo.ReadyNeedsFourTurns`). Four suitable utterances (a topic, a day count, a level that is not blank, anything) make it ready (`WelcomeExamples.FourAnswersSuffice`). Unsuitable ones, such as a greeting, only delay it.
- **`current_step` takes only three values.** It is only ever "topic", "days" or "experience" (`WelcomeInfo.StepValues`). The experience branch does not change it.
- **Only a speech failure triggers the fallback.** The `except` of `process_user_input` (line 101) can only be reached through `generate_audio`. The model call (line 73) comes before the `try`. Inside it, only `generate_audio`, the URL slicing, `add_message` and `_generate_learning_summary` run, and the last of these cannot raise, because of its own bare `except:`. When the `except` is reached, no message is recorded, but the extracted information stays. The apology is a second request to the speech service, so it may succeed where the first one failed. If it fails too, that error propagates.
- **An over-long number fails the turn.** While the day count is being collected, `int(numbers[0])` (line 130) raises `ValueError` when the first run of digits is longer than CPython's default limit of 4300 digits, leading zeros included. The call is outside the `try`, so `process_user_input` and `process_welcome_input` propagate it. The state, the history and the save are all left as they were (`Welcome.TurnRaises`, `Welcome.LongNumberFailsTurn`). The limit is in CPython 3.11 and later, and in the security releases 3.7.14, 3.8.14, 3.9.14 and 3.10.7; interpreters older than those read any length.
- **A blank level is asked again.** The experience level can become `""` (a blank answer, stripped). That sets `info_complete`, yet the level still counts as unset. So the next utterance runs the experience branch again instead of recording a confirmation (`WelcomeExamples.BlankLevelRetried`). The invariant therefore ties `experience_level is not None`, not its truthiness, to `info_complete`.
- **A blank roadmap reply raises.** The "Empty response from Gemini" exception is raised inside the `try`, but it is not a `JSONDecodeError`. So it escapes instead of yielding the fallback roadmap. The same holds for a reply that is only a pair of fences around whitespace.
- **Only `JSONDecodeError` yields the fallback roadmap.** The `except` at line 56 names that class alone. Any other exception of `json.loads` propagates out of `generate_roadmap` and `generate_roadmap_from_session`, such as the `ValueError` for an integer literal over 4300 digits (`Gemini.GenerateRoadmapFailsIff`, `Gemini.NonEmptyReplyOutcome`).
- **The summary fallback is reachable only through non-`Exception` errors.** `get_gemini_response` catches every `Exception` itself, so the bare `except:` of `_generate_learning_summary` can only be reached through an exception that is not an `Exception`. This is not proved: the model builds it in, because `LearningSummary` always takes the answer of `get_gemini_response`.

## Model

| member | source | states |
|---|---|---|
| `Welcome.WelcomeSession.constructor` | services/welcome_service.py:9-21 | a new session has the guest id, the name "welcome_session", an empty history, all fields unset, all flags false and step "topic"; it satisfies the session invariant |
| `Welcome.WelcomeSession.AddMessage` | services/welcome_service.py:23-30 | the history grows by exactly one message with the given role, content, audio URL and timestamp; the collected info and step are untouched |
| `Welcome.WelcomeSession.ExtractInfoFromUserInput` | services/welcome_service.py:117-152 | the imperative if/elif chain changes (info, step) exactly as the value-level `ExtractInfo` does, and leaves the history alone; it reports the `ValueError` of `int()` exactly when the days branch meets a first digit run over 4300 digits, with that error's message |
| `Welcome.WelcomeSession.GetChatContext` | services/welcome_service.py:173-184 | the loop builds exactly `ChatContext(history)`: "No previous conversation" for an empty history, otherwise one scrubbed line per message of the last six |
| `Welcome.WelcomeSession.ProcessUserInput` | services/welcome_service.py:32-115 | keeps the session invariant and the history shape; the new state, the new history and the returned dictionary, or the propagated `ValueError` or speech error, are exactly those of `Turn` |
| `Welcome.WelcomeRegistry.constructor` | services/welcome_service.py:188-189 | the registry starts empty and valid |
| `Welcome.WelcomeRegistry.CreateWelcomeSession` | services/welcome_service.py:191-231 | a speech failure propagates and registers nothing; otherwise a fresh session holding only the spoken greeting, in the initial state, is filed under its id (overwriting, as a dict assignment does), the other entries are unchanged and the result is (id, greeting, audio URL) |
| `Welcome.WelcomeRegistry.GetWelcomeSession` | services/welcome_service.py:233-235 | a session is returned exactly when the id is registered, and it is the one filed under that id |
| `Welcome.WelcomeRegistry.ProcessWelcomeInput` | services/welcome_service.py:250-259 | an unknown id fails with "Welcome session not found"; a known one takes exactly the turn `Turn` describes; the registry stays valid and its map unchanged |
| `Welcome.WelcomeRegistry.GenerateRoadmapFromSession` | services/welcome_service.py:261-272 | an unknown or not-ready session fails with "Session not ready for roadmap generation"; a ready one gets exactly the document `generate_roadmap` returns for its info, or its exception's message; that info always has a topic, a level and a day count in [7, 30] |
| `Welcome.Turn` | services/welcome_service.py:32-115 | the definition of one `process_user_input(u)` as a value (new state, new history, result); `ProcessUserInput` is proved to do exactly this, and its properties are the `TurnHistory`, `TurnState`, `TurnKeepsWellFormed`, `TurnReport`, `TurnFallback` and `TurnRaises` rows |
| `Welcome.LearningSummary` | services/welcome_service.py:154-171 | the definition of `_generate_learning_summary()`: the model's reply to the summary prompt; the fallback sentence is stated by `SummaryFallbackNames` |
| `Welcome.SummaryFallbackNames` | services/welcome_service.py:171 | the fallback summary starts with "Learn " and contains the topic, the day count in decimal and the level |
| `Welcome.GreetingWellFormed` | services/welcome_service.py:211-215 | a history holding only the spoken greeting satisfies the history shape |
| `Welcome.TurnHistory` | services/welcome_service.py:37-86 | a turn whose reply was spoken appends exactly the user message (no audio) and then the assistant message (with its URL); a turn whose extraction raised, or whose reply could not be spoken, appends nothing |
| `Welcome.TurnState` | services/welcome_service.py:36-77 | the state after a turn is extraction followed by the readiness check, whether or not the reply was spoken, and it keeps the state invariant |
| `Welcome.WellFormedAppendTurn` | services/welcome_service.py:85-86 | appending a user message and then a spoken assistant reply keeps every assistant message served from "/audio/" and every user message answered |
| `Welcome.TurnKeepsWellFormed` | services/welcome_service.py:79-115 | every turn, successful or not, keeps the history well formed |
| `Welcome.TurnReport` | services/welcome_service.py:88-100 | a successful turn reports the model's reply, the new state and step, `ready_to_generate`, and exactly when the info is complete the summary `_generate_learning_summary` gives for the info after extraction, otherwise none |
| `Welcome.TurnFallback` | services/welcome_service.py:101-115 | when the reply cannot be spoken, the apology is reported, not ready and without a summary, the extracted info is kept, no message is recorded, and the result fails, with the second request's error, exactly when that second request to speak the apology fails, whatever the first one did |
| `Welcome.TurnRaises` | services/welcome_service.py:37-130 | a turn whose extraction raises keeps the state and the history and fails with the `ValueError` message naming the digit count, which is over 4300 |
| `Welcome.LongNumberFailsTurn` | services/welcome_service.py:126-131 | while the days are unset, a first number of more than 4300 digits fails the turn and changes nothing; a shorter one never raises |
| `WelcomeInfo.DaysFrom` | services/welcome_service.py:126-133 | a day count taken from an utterance always lies in [7, 30], and comes from a number `int()` accepts |
| `WelcomeInfo.RaisesKeepsState` | services/welcome_service.py:37-77 | an extraction that raises assigns nothing, and the readiness check after it is never reached |
| `WelcomeInfo.LongRunRaises` | services/welcome_service.py:126-130 | while the days are unset, extraction raises exactly when the first digit run has more than 4300 digits |
| `WelcomeInfo.RaisesOnlyInDays` | services/welcome_service.py:120-152 | outside the days branch extraction never raises |
| `WelcomeInfo.ExtractInfo` | services/welcome_service.py:117-152 | the definition of one `_extract_info_from_user_input(u)` on (info, step): the first unset field selects one branch; its properties are the `TopicStep`, `DaysStep`, `ExperienceStep`, `ConfirmationMakesReady`, `OnlyChosenBranch` and `ExtractInfoConsistent` rows |
| `WelcomeInfo.ProcessState` | services/welcome_service.py:36-77 | the definition of the state after one `process_user_input(u)`: extraction, then `ready_to_generate` once the info is complete and confirmed, or no change when extraction raises; its properties are the `ProcessStateConsistent`, `ProcessStateMonotone` and `StageStep` rows |
| `WelcomeInfo.InitialConsistent` | services/welcome_service.py:13-21 | the initial state satisfies the invariant |
| `WelcomeInfo.StepValues` | services/welcome_service.py:117-152 | under the invariant `current_step` is one of "topic", "days", "experience" |
| `WelcomeInfo.ReadyMeansComplete` | services/welcome_service.py:75-77 | a ready state has a topic, a level, `info_complete`, and a day count in [7, 30] |
| `WelcomeInfo.ExtractInfoConsistent` | services/welcome_service.py:117-152 | extraction keeps the invariant: fields fill in order, the topic is stripped and at least 3 long, days in [7, 30], flags imply their prerequisites, the step follows the first unset field |
| `WelcomeInfo.ProcessStateConsistent` | services/welcome_service.py:36-77 | extraction followed by the readiness check keeps the invariant |
| `WelcomeInfo.RunConsistent` | services/welcome_service.py:32-77 | every sequence of utterances from a consistent state ends in a consistent state |
| `WelcomeInfo.ProcessStateMonotone` | services/welcome_service.py:117-152 | the three flags never revert, and a truthy topic, day count or level is never changed |
| `WelcomeInfo.OnlyChosenBranch` | services/welcome_service.py:120-152 | each call touches only the fields of the one branch the first unset field selects; extraction never sets `ready_to_generate` |
| `WelcomeInfo.TopicStep` | services/welcome_service.py:120-123 | while the topic is unset, the utterance becomes the stripped topic with step "days" exactly when its lower-cased form is not a stoplisted greeting and it strips to at least 3 characters; otherwise nothing changes |
| `WelcomeInfo.DaysStep` | services/welcome_service.py:126-133 | while the days are unset, they change exactly when the first digit run has at most 4300 digits and a value in [7, 30], and then they become that value with step "experience" |
| `WelcomeInfo.DaysFromRun` | services/welcome_service.py:127-131 | a digit run preceded by no digit and not followed by one is the number read, taken only when it has at most 4300 digits and lies in [7, 30] |
| `WelcomeInfo.DaysFromNumeral` | services/welcome_service.py:127-131 | a day count in [7, 30] written in decimal inside a sentence is read back exactly |
| `WelcomeInfo.ExperienceStep` | services/welcome_service.py:136-148 | while the level is unset, the call records the classified level and sets `info_complete`, leaving the step unchanged |
| `WelcomeInfo.ConfirmationMakesReady` | services/welcome_service.py:150-152 | the call after the info is complete sets `confirmation_asked` and, through lines 76-77, `ready_to_generate` in that same call |
| `WelcomeInfo.BeginnerIff` | services/welcome_service.py:137-139 | the level is "beginner" exactly when the lower-cased utterance contains a beginner word |
| `WelcomeInfo.IntermediateIff` | services/welcome_service.py:140-141 | the level is "intermediate" exactly when an intermediate word occurs and no beginner word does |
| `WelcomeInfo.AdvancedIff` | services/welcome_service.py:142-143 | the level is "advanced" exactly when an advanced word occurs and no beginner or intermediate word does |
| `WelcomeInfo.StageStep` | services/welcome_service.py:117-152 | one call completes at most one of the four collection steps and undoes none |
| `WelcomeInfo.RunStage` | services/welcome_service.py:117-152 | `n` utterances complete at most `n` collection steps |
| `WelcomeInfo.ReadyNeedsFourTurns` | services/welcome_service.py:75-77 | a run that ends ready had at least as many utterances as steps were left; from the initial state, at least four |
| `WelcomeExamples.TopicThenDays` | services/welcome_service.py:120-133 | from the start, an accepted topic and then a valid day count leave the stripped topic, that day count and step "experience" |
| `WelcomeExamples.LevelThenConfirm` | services/welcome_service.py:136-152 | with topic and days set, a level that is not blank and then any utterance set the level, `info_complete`, `confirmation_asked` and `ready_to_generate` |
| `WelcomeExamples.FourAnswersSuffice` | services/welcome_service.py:32-152 | from the start, four suitable utterances make the session ready with exactly those topic, days and level (the bound of `ReadyNeedsFourTurns` is met) |
| `WelcomeExamples.BlankLevelRetried` | services/welcome_service.py:136-151 | a level that classifies to "" is stored as "" with `info_complete` set and no confirmation, and the next call takes the experience branch again |
| `WelcomeExamples.GreetingWithSpaceIsTopic` | services/welcome_service.py:121-123 | "hello " escapes the stoplist (which is checked before stripping) and becomes the topic "hello" |
| `WelcomeExamples.BareGreetingIgnored` | services/welcome_service.py:121 | "Hello" is lower-cased onto the stoplist and changes nothing |
| `WelcomeExamples.TopicFirst` | services/welcome_service.py:120-126 | "hello, 14 days" said first becomes the topic; the day count in it is not read |
| `WelcomeExamples.DaysInSentence` | services/welcome_service.py:128-133 | "maybe like 14 days or so" gives 14 days |
| `WelcomeExamples.DaysRefused` | services/welcome_service.py:128-131 | "45" is out of range, and in "5 or 14" only the first number is read, so neither gives a day count |
| `WelcomeChat.ChatContext` | services/welcome_service.py:173-184 | the definition of `_get_chat_context()` on a history; `GetChatContext` is proved to compute it, and its properties are the `ChatContextEmptyIff`, `ContextIgnoresOlder`, `ContextOfShortHistory` and `RenderAllAppend` rows |
| `WelcomeChat.RecentMessagesWindow` | services/welcome_service.py:178 | the window is the last min(6, n) messages, in their original order |
| `WelcomeChat.RenderAllExtend` | services/welcome_service.py:180-183 | rendering one more message appends exactly that message's line |
| `WelcomeChat.RenderAllAppend` | services/welcome_service.py:179-183 | rendering a concatenation renders each part in turn |
| `WelcomeChat.ChatContextEmptyIff` | services/welcome_service.py:175-184 | the context is "No previous conversation" exactly when the history is empty |
| `WelcomeChat.ContextIgnoresOlder` | services/welcome_service.py:178 | messages older than the last six never affect the context |
| `WelcomeChat.ContextOfShortHistory` | services/welcome_service.py:178 | a history of one to six messages is rendered whole |
| `WelcomeChat.RenderWithoutMarker` | services/welcome_service.py:182-183 | content without "Press Enter to record your response." is rendered merely stripped |
| `WelcomeChat.AudioUrl` | services/welcome_service.py:82 | the URL starts with "/audio/", and what follows is a '/'-free suffix of the path |
| `WelcomeChat.AudioUrlLastSegment` | services/welcome_service.py:212 | the URL names exactly the file name after the last '/', or the whole path when it has none |
| `Gemini.DropFences` | services/gemini_service.py:41-47 | the definition of the fence removal: a leading "```json", then a leading "```", then a trailing "```"; its properties are the `DropFencesIsInfix`, `DropFencesJson` and `DropFencesPlain` rows |
| `Gemini.CleanResponse` | services/gemini_service.py:39-49 | the definition of the clean-up: strip, drop the fences, strip again; its properties are the `CleanResponseTrimmed`, `CleanResponseIsInfix`, `CleanResponseNoFence` and fenced-reply rows |
| `Gemini.GenerateRoadmap` | services/gemini_service.py:6-71 | the definition of `generate_roadmap` given the model's reply and the decoder; its properties are the `GenerateRoadmapFailsIff`, `BlankReplyRaises`, `FencesOnlyReplyRaises`, `NonEmptyReplyOutcome` and `FencedReplyDecodesBody` rows |
| `Gemini.DecodeOrFallback` | services/gemini_service.py:52-71 | the definition of the `try` around `json.loads`: an empty text raises, a `JSONDecodeError` gives the fallback roadmap, and any other exception of `json.loads` escapes; stated through `GenerateRoadmapFailsIff` and `NonEmptyReplyOutcome` |
| `Gemini.GetGeminiResponse` | services/gemini_service.py:73-91 | the definition of `get_gemini_response` given the model's reply; its properties are the `GeminiResponseTrimmed` and `GeminiResponseEmptyIff` rows |
| `Gemini.DropFencesIsInfix` | services/gemini_service.py:41-47 | dropping the fences leaves a contiguous piece of the text |
| `Gemini.CleanResponseTrimmed` | services/gemini_service.py:49 | the cleaned text has no whitespace at either end |
| `Gemini.CleanResponseIsInfix` | services/gemini_service.py:39-49 | the cleaned text is a contiguous piece of the raw reply |
| `Gemini.CleanResponseNoFence` | services/gemini_service.py:39-49 | a reply whose stripped form neither starts nor ends with a fence comes back merely stripped |
| `Gemini.DropFencesJson` | services/gemini_service.py:42-47 | "```json" + body + "```" gives back the body when the body does not itself start with a fence |
| `Gemini.DropFencesPlain` | services/gemini_service.py:44-47 | "```" + body + "```" gives back the body when it starts with neither a fence nor "json" |
| `Gemini.CleanResponseJsonFencedBare` | services/gemini_service.py:39-49 | an unpadded "```json" fenced reply cleans to the stripped body |
| `Gemini.CleanResponseJsonFenced` | services/gemini_service.py:39-49 | a "```json" fenced reply with any whitespace around it cleans to the stripped body |
| `Gemini.CleanResponsePlainFenced` | services/gemini_service.py:39-49 | a plain fenced reply with any whitespace around it cleans to the stripped body |
| `Gemini.FallbackShape` | services/gemini_service.py:60-71 | the fallback roadmap has topic "Learning Topic" and exactly one day: day 1, "Getting Started", two tasks |
| `Gemini.GenerateRoadmapFailsIff` | services/gemini_service.py:7-56 | `generate_roadmap` raises exactly when the project id is missing, the model call raises, the cleaned reply is empty, or `json.loads` raises something other than `JSONDecodeError` (such as the `ValueError` for an integer over 4300 digits) |
| `Gemini.BlankReplyRaises` | services/gemini_service.py:52-54 | an all-whitespace reply raises "Empty response from Gemini" instead of falling back |
| `Gemini.FencesOnlyReplyRaises` | services/gemini_service.py:42-54 | "```json" + whitespace + "```" raises "Empty response from Gemini" too |
| `Gemini.NonEmptyReplyOutcome` | services/gemini_service.py:52-71 | a non-empty cleaned reply gives the decoded document, the fallback roadmap on a `JSONDecodeError`, and the escaping exception for any other error of `json.loads` |
| `Gemini.FencedReplyDecodesBody` | services/gemini_service.py:42-55 | a fenced JSON reply is decoded from the stripped text between the fences, with the same three outcomes |
| `Gemini.GeminiResponseTrimmed` | services/gemini_service.py:73-91 | the conversational reply is always free of surrounding whitespace, and is the model's stripped text whenever the call succeeded with some text |
| `Gemini.GeminiResponseEmptyIff` | services/gemini_service.py:85-88 | the reply is empty exactly when the model answered with nothing but whitespace |
| `AudioSessions.AudioSessions.constructor` | services/session_service.py:6 | the registry starts empty |
| `AudioSessions.AudioSessions.CreateSession` | services/session_service.py:8-11 | the given id is returned and filed with an empty list, every other entry unchanged |
| `AudioSessions.AudioSessions.AddAudioToSession` | services/session_service.py:13-15 | a known session's list grows by exactly the path at the end; an unknown id changes nothing |
| `AudioSessions.AudioSessions.CleanupSession` | services/session_service.py:17-24 | true exactly for a known id; then the entry is gone, exactly the recorded files that existed are deleted, in recording order and each once, and nothing else; false changes nothing |
| `AudioSessions.AudioSessions.GetSessionFiles` | services/session_service.py:26-27 | the recorded paths of a known session, or the empty list |
| `AudioSessions.Deletions` | services/session_service.py:19-21 | the definition of the removals the clean-up loop makes, in recording order; `CleanupSession` is proved to make exactly these, and their properties are the `DeletionsExactly` and `DeletionsDistinct` rows |
| `AudioSessions.DeletionsExactly` | services/session_service.py:19-21 | a path is deleted exactly when it was recorded and existed |
| `AudioSessions.DeletionsDistinct` | services/session_service.py:19-21 | no path is deleted twice, even when recorded twice |
| `AudioSessions.FileSystem.Remove` | services/session_service.py:21 | `os.remove` deletes exactly that path, and the model records the removal |
| `Text.StripBounds` | services/welcome_service.py:122 | `strip` returns the slice between maximal whitespace runs at both ends, and the result is trimmed |
| `Text.StripIdempotent` | services/gemini_service.py:49 | stripping twice is stripping once |
| `Text.StripEmptyIff` | services/gemini_service.py:53 | a string strips to empty exactly when it is all whitespace |
| `Text.MentionsAnyIff` | services/welcome_service.py:138 | `any(word in s for word in words)` holds exactly when some word occurs in `s` |
| `Text.RemoveAllAbsent` | services/welcome_service.py:182 | replacing an absent pattern by "" changes nothing |
| `Text.FirstDigitRunOf` | services/welcome_service.py:128 | `re.findall(r'\d+', s)[0]` is the digit run after a digit-free prefix that no digit follows |
| `Text.DigitsRoundTrip` | services/welcome_service.py:171 | `int(str(n)) == n` for the day count printed in the summary |

## Left out

- **Prompt wording.** The text of the four prompts (greeting, chat turn, summary, roadmap) is not modelled. `WelcomePrompt` records only what each prompt carries.
- **Outside calls.** The Vertex AI client, the text-to-speech service, `json.loads` and the console output (`print`) are not modelled. The first three are parameters; the logging is omitted.
- **JSON numbers.** These are modelled as integers only.
- **What `json.loads` accepts.** Which texts decode, which raise `JSONDecodeError`, and which raise another exception (an integer literal over the digit limit, nesting past the recursion limit) is not modelled. The decoder's outcome for each text is a parameter.
- **Timestamps and ids.** `datetime.now()` and `uuid.uuid4()` are parameters, so the model says nothing about their values or uniqueness.
- **The Firestore save.** `save_session_to_db` in `create_welcome_session` and `save_welcome_session` (services/welcome_service.py:219-229, 237-248) is not modelled. Both swallow every exception and change no in-memory state. The Firestore service is not part of this model.
- **The Gemini summary path.** `_generate_learning_summary` is modelled with the model call always answering. The bare `except:` is reachable only through non-`Exception` errors, such as `KeyboardInterrupt`, which the model does not represent. The fallback sentence itself is modelled (`SummaryFallback`, `SummaryFallbackNames`).
- **Unicode.** `lower()` maps ASCII letters only, and `\d` matches ASCII digits only. Python would also fold non-ASCII capitals and accept other Unicode decimal digits.
- **The integer-string limit.** It is modelled at CPython's default of 4300 digits. A limit changed through `sys.set_int_max_str_digits` or `PYTHONINTMAXSTRDIGITS` is not modelled.
- `WelcomeInfo.IntLimitMessage`: the text is CPython 3.12's wording. The text of the `ValueError` differs between the releases that carry the limit, so the exact message that `Welcome.TurnRaises` and `Welcome.WelcomeSession.ExtractInfoFromUserInput` state holds for 3.12 and later.
- **Concurrency.** Concurrent requests to the shared dictionaries are not modelled. Each operation is atomic in the model.
- **The web layer.** The HTTP routes of main.py and main_simple.py, and the speech-to-text and main-app flows, are not modelled.
- `AudioSessions.AudioSessions.CleanupSession`: a failing `os.remove` (for example a permission error) is not modelled. Removal of an existing path always succeeds.
- `AudioSessions.AudioSessions.CreateSession`: the id is a parameter standing for `uuid.uuid4()`, so that it is new is not proved. An id already present is overwritten, as a dictionary assignment does.
