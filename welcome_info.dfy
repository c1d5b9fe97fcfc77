/**
 * The `collected_info` state machine of `WelcomeSession` (services/welcome_service.py):
 * what one user utterance does to the topic, days, experience level and the three
 * flags, and to `current_step`. Python truthiness is modelled explicitly: a topic or
 * experience level is "unset" when it is `None` or `""`, days when `None` or `0`.
 */
module WelcomeInfo {
  import opened Wrappers
  import opened Text

  datatype CollectedInfo = CollectedInfo(
    topic: Option<string>,
    days: Option<nat>,
    experienceLevel: Option<string>,
    readyToGenerate: bool,
    infoComplete: bool,
    confirmationAsked: bool)

  /** `collected_info` together with `current_step`. */
  datatype Progress = Progress(info: CollectedInfo, step: string)

  const InitialInfo: CollectedInfo := CollectedInfo(None, None, None, false, false, false)
  const Initial: Progress := Progress(InitialInfo, "topic")

  predicate TopicSet(info: CollectedInfo) {
    info.topic.Some? && info.topic.value != ""
  }

  predicate DaysSet(info: CollectedInfo) {
    info.days.Some? && info.days.value != 0
  }

  predicate ExperienceSet(info: CollectedInfo) {
    info.experienceLevel.Some? && info.experienceLevel.value != ""
  }

  // ---------------------------------------------------------------------------
  // The three extractors
  // ---------------------------------------------------------------------------

  /** Greetings that are never taken for a topic (compared after lower-casing, before stripping). */
  const Stoplist: seq<string> := ["wooooo", "woo", "hello", "hi", "hey"]

  predicate AcceptsTopic(u: string) {
    Lower(u) !in Stoplist && |Strip(u)| >= 3
  }

  /**
   * CPython's default `sys.get_int_max_str_digits()`: `int()` raises `ValueError` on a decimal
   * string with more digits than this (leading zeros included).
   */
  const IntMaxStrDigits: nat := 4300

  /**
   * `str(e)` of that `ValueError`, for a string of `digits` digits, worded as CPython 3.12
   * prints it; earlier releases that carry the limit word it slightly differently.
   */
  function IntLimitMessage(digits: nat): string
  {
    "Exceeds the limit (4300 digits) for integer string conversion: value has " + NatToString(digits)
      + " digits; use sys.set_int_max_str_digits() to increase the limit"
  }

  /** `int(numbers[0])` raises: the first run of digits is longer than the limit. */
  predicate DaysOverflow(u: string) {
    FirstDigitRun(u).Some? && |FirstDigitRun(u).value| > IntMaxStrDigits
  }

  /** The day count taken from an utterance: the first run of digits, when `int()` reads it and its value lies in [7, 30]. */
  function DaysFrom(u: string): (r: Option<nat>)
    ensures r.Some? ==> 7 <= r.value <= 30 && !DaysOverflow(u)
  {
    match FirstDigitRun(u)
    case None => None
    case Some(ds) =>
      if |ds| > IntMaxStrDigits then None
      else var n := DigitsValue(ds); if 7 <= n <= 30 then Some(n) else None
  }

  const BeginnerWords: seq<string> := ["beginner", "new", "start", "never", "first"]
  const IntermediateWords: seq<string> := ["intermediate", "some", "basic", "little"]
  const AdvancedWords: seq<string> := ["advanced", "expert", "experienced", "good"]

  /** The experience level read from an utterance: keyword classes by priority, else the stripped text. */
  function ClassifyExperience(u: string): string
  {
    var l := Lower(u);
    if MentionsAny(l, BeginnerWords) then "beginner"
    else if MentionsAny(l, IntermediateWords) then "intermediate"
    else if MentionsAny(l, AdvancedWords) then "advanced"
    else Strip(u)
  }

  // ---------------------------------------------------------------------------
  // One call of _extract_info_from_user_input, then the ready_to_generate check
  // ---------------------------------------------------------------------------

  /** Which branch of the `if/elif` chain a call takes: the first unset field decides. */
  datatype Branch = TopicBranch | DaysBranch | ExperienceBranch | ConfirmBranch | NoBranch

  function BranchOf(info: CollectedInfo): Branch
  {
    if !TopicSet(info) then TopicBranch
    else if !DaysSet(info) then DaysBranch
    else if !ExperienceSet(info) then ExperienceBranch
    else if info.infoComplete && !info.confirmationAsked then ConfirmBranch
    else NoBranch
  }

  /** `_extract_info_from_user_input(u)` on a value. */
  function ExtractInfo(p: Progress, u: string): Progress
  {
    var info := p.info;
    match BranchOf(info)
    case TopicBranch =>
      if AcceptsTopic(u) then Progress(info.(topic := Some(Strip(u))), "days") else p
    case DaysBranch =>
      (match DaysFrom(u)
       case Some(n) => Progress(info.(days := Some(n)), "experience")
       case None => p)
    case ExperienceBranch =>
      Progress(info.(experienceLevel := Some(ClassifyExperience(u)), infoComplete := true), p.step)
    case ConfirmBranch =>
      Progress(info.(confirmationAsked := true), p.step)
    case NoBranch => p
  }

  /** `_extract_info_from_user_input(u)` raises: only the days branch can, through `int()`, before assigning anything. */
  predicate ExtractRaises(p: Progress, u: string) {
    BranchOf(p.info) == DaysBranch && DaysOverflow(u)
  }

  /** The check `process_user_input` makes after extraction. */
  function MarkReady(info: CollectedInfo): CollectedInfo
  {
    if info.infoComplete && info.confirmationAsked then info.(readyToGenerate := true) else info
  }

  /**
   * The state after one `process_user_input(u)`, whichever way the reply goes. When extraction
   * raises, the readiness check is never reached and the state is left as it was.
   */
  function ProcessState(p: Progress, u: string): Progress
  {
    if ExtractRaises(p, u) then p
    else
      var q := ExtractInfo(p, u);
      Progress(MarkReady(q.info), q.step)
  }

  /** The state after a sequence of utterances. */
  function Run(p: Progress, us: seq<string>): Progress
  {
    if us == [] then p else ProcessState(Run(p, us[..|us| - 1]), us[|us| - 1])
  }

  // ---------------------------------------------------------------------------
  // The invariant kept by every call
  // ---------------------------------------------------------------------------

  predicate Consistent(p: Progress) {
    var info := p.info;
    // fields are filled in order
    (info.days.Some? ==> info.topic.Some?)
    && (info.infoComplete ==> info.days.Some?)
    // what each field can hold
    && (info.topic.Some? ==> |info.topic.value| >= 3 && Trimmed(info.topic.value))
    && (info.days.Some? ==> 7 <= info.days.value <= 30)
    // the flags
    && (info.experienceLevel.Some? <==> info.infoComplete)
    && (info.confirmationAsked ==> ExperienceSet(info))
    && (info.readyToGenerate ==> info.confirmationAsked)
    // current_step follows the first unset field, and only three values occur
    && (p.step == "topic" <==> info.topic.None?)
    && (p.step == "days" <==> info.topic.Some? && info.days.None?)
    && (p.step == "experience" <==> info.days.Some?)
  }

  lemma InitialConsistent()
    ensures Consistent(Initial)
  {
  }

  /** `current_step` is always one of "topic", "days", "experience"; "confirm" and "done" never occur. */
  lemma StepValues(p: Progress)
    requires Consistent(p)
    ensures p.step in {"topic", "days", "experience"}
  {
  }

  /** A ready session has everything the roadmap prompt uses: a topic, a day count in [7, 30] and a level. */
  lemma ReadyMeansComplete(p: Progress)
    requires Consistent(p) && p.info.readyToGenerate
    ensures TopicSet(p.info) && ExperienceSet(p.info) && p.info.infoComplete
    ensures p.info.days.Some? && 7 <= p.info.days.value <= 30
  {
  }

  lemma {:induction false} ExtractInfoConsistent(p: Progress, u: string)
    requires Consistent(p)
    ensures Consistent(ExtractInfo(p, u))
  {
    match BranchOf(p.info)
    case TopicBranch =>
      if AcceptsTopic(u) {
        StripTrimmed(u);
      }
    case DaysBranch =>
    case ExperienceBranch =>
    case ConfirmBranch =>
    case NoBranch =>
  }

  /** Every call of `process_user_input` keeps the invariant. */
  lemma ProcessStateConsistent(p: Progress, u: string)
    requires Consistent(p)
    ensures Consistent(ProcessState(p, u))
  {
    ExtractInfoConsistent(p, u);
  }

  lemma {:induction false} RunConsistent(p: Progress, us: seq<string>)
    requires Consistent(p)
    ensures Consistent(Run(p, us))
  {
    if us != [] {
      RunConsistent(p, us[..|us| - 1]);
      ProcessStateConsistent(Run(p, us[..|us| - 1]), us[|us| - 1]);
    }
  }

  /** Flags never revert, and a field once truthy keeps its value. */
  lemma ProcessStateMonotone(p: Progress, u: string)
    ensures var q := ProcessState(p, u).info;
      (p.info.readyToGenerate ==> q.readyToGenerate)
      && (p.info.infoComplete ==> q.infoComplete)
      && (p.info.confirmationAsked ==> q.confirmationAsked)
      && (TopicSet(p.info) ==> q.topic == p.info.topic)
      && (DaysSet(p.info) ==> q.days == p.info.days)
      && (ExperienceSet(p.info) ==> q.experienceLevel == p.info.experienceLevel)
  {
  }

  /** A call changes only what its branch governs: at most one collection step runs. */
  lemma OnlyChosenBranch(p: Progress, u: string)
    ensures var b, q := BranchOf(p.info), ExtractInfo(p, u);
      (b != TopicBranch ==> q.info.topic == p.info.topic)
      && (b != DaysBranch ==> q.info.days == p.info.days)
      && (b != ExperienceBranch ==> q.info.experienceLevel == p.info.experienceLevel && q.info.infoComplete == p.info.infoComplete)
      && (b != ConfirmBranch ==> q.info.confirmationAsked == p.info.confirmationAsked)
      && q.info.readyToGenerate == p.info.readyToGenerate
      && (b != TopicBranch && b != DaysBranch ==> q.step == p.step)
  {
  }

  /** While the topic is unset, an utterance becomes the topic exactly when it passes the stoplist and length rule. */
  lemma TopicStep(p: Progress, u: string)
    requires !TopicSet(p.info)
    ensures AcceptsTopic(u) ==> ExtractInfo(p, u) == Progress(p.info.(topic := Some(Strip(u))), "days")
    ensures !AcceptsTopic(u) ==> ExtractInfo(p, u) == p
  {
  }

  /** While the days are unset, the first digit run alone decides, and only values in [7, 30] are taken. */
  lemma DaysStep(p: Progress, u: string)
    requires TopicSet(p.info) && !DaysSet(p.info)
    ensures var q := ExtractInfo(p, u);
      (q.info.days != p.info.days) <==>
        (FirstDigitRun(u).Some? && |FirstDigitRun(u).value| <= IntMaxStrDigits
         && 7 <= DigitsValue(FirstDigitRun(u).value) <= 30)
    ensures var q := ExtractInfo(p, u);
      q != p ==> q == Progress(p.info.(days := Some(DigitsValue(FirstDigitRun(u).value))), "experience")
  {
  }

  /** An utterance `pre + digits + rest`, with no digit before and none right after, gives the value of `digits`. */
  lemma {:induction false} DaysFromRun(pre: string, ds: string, rest: string)
    requires NoDigits(pre) && |ds| > 0 && AllDigits(ds)
    requires rest == [] || !IsDigit(rest[0])
    ensures DaysFrom(pre + ds + rest) ==
      (if |ds| <= IntMaxStrDigits && 7 <= DigitsValue(ds) <= 30 then Some(DigitsValue(ds)) else None)
  {
    FirstDigitRunOf(pre, ds, rest);
  }

  /** A day count written out in decimal, with words around it, is read back exactly. */
  lemma DaysFromNumeral(pre: string, n: nat, rest: string)
    requires 7 <= n <= 30
    requires NoDigits(pre) && (rest == [] || !IsDigit(rest[0]))
    ensures DaysFrom(pre + NatToString(n) + rest) == Some(n)
  {
    DigitsRoundTrip(n);
    assert |NatToString(n)| <= 2 by {
      assert |NatToString(n / 10)| == 1;
    }
    DaysFromRun(pre, NatToString(n), rest);
  }

  /** A call that raises leaves the state exactly as it was. */
  lemma RaisesKeepsState(p: Progress, u: string)
    requires ExtractRaises(p, u)
    ensures ExtractInfo(p, u) == p && ProcessState(p, u) == p
  {
  }

  /**
   * While the days are unset, a first digit run longer than the limit makes the call raise,
   * whatever its value (leading zeros count); a shorter one never does.
   */
  lemma {:induction false} LongRunRaises(p: Progress, pre: string, ds: string, rest: string)
    requires TopicSet(p.info) && !DaysSet(p.info)
    requires NoDigits(pre) && |ds| > 0 && AllDigits(ds)
    requires rest == [] || !IsDigit(rest[0])
    ensures ExtractRaises(p, pre + ds + rest) <==> |ds| > IntMaxStrDigits
  {
    FirstDigitRunOf(pre, ds, rest);
  }

  /** Only the days branch raises: in every other branch the call goes through. */
  lemma RaisesOnlyInDays(p: Progress, u: string)
    requires BranchOf(p.info) != DaysBranch
    ensures !ExtractRaises(p, u)
  {
  }

  /** While the experience level is unset, the call records a level and marks the info complete, leaving the step alone. */
  lemma ExperienceStep(p: Progress, u: string)
    requires TopicSet(p.info) && DaysSet(p.info) && !ExperienceSet(p.info)
    ensures ExtractInfo(p, u) == Progress(p.info.(experienceLevel := Some(ClassifyExperience(u)), infoComplete := true), p.step)
  {
  }

  /** The confirmation is recorded by the call after the info is complete, and that same call makes the session ready. */
  lemma ConfirmationMakesReady(p: Progress, u: string)
    requires Consistent(p) && p.info.infoComplete && ExperienceSet(p.info) && !p.info.confirmationAsked
    ensures ProcessState(p, u).info == p.info.(confirmationAsked := true, readyToGenerate := true)
    ensures ProcessState(p, u).step == p.step
  {
  }

  // ---------------------------------------------------------------------------
  // Experience classes
  // ---------------------------------------------------------------------------

  /** The three class names are themselves keywords of their class, and lower-case. */
  lemma ClassNames()
    ensures NoUpper("beginner") && NoUpper("intermediate") && NoUpper("advanced")
    ensures BeginnerWords[0] == "beginner" && IntermediateWords[0] == "intermediate" && AdvancedWords[0] == "advanced"
  {
  }

  /** The level is "beginner" exactly when a beginner word occurs. */
  lemma BeginnerIff(u: string)
    ensures ClassifyExperience(u) == "beginner" <==>
      exists k :: 0 <= k < |BeginnerWords| && Contains(Lower(u), BeginnerWords[k])
  {
    var l := Lower(u);
    MentionsAnyIff(l, BeginnerWords);
    if Strip(u) == "beginner" {
      ClassNames();
      StrippedWord(u, "beginner");
      assert Contains(l, BeginnerWords[0]);
    }
  }

  /** The level is "intermediate" exactly when an intermediate word occurs and no beginner word does. */
  lemma IntermediateIff(u: string)
    ensures ClassifyExperience(u) == "intermediate" <==>
      (!MentionsAny(Lower(u), BeginnerWords)
       && exists k :: 0 <= k < |IntermediateWords| && Contains(Lower(u), IntermediateWords[k]))
  {
    var l := Lower(u);
    MentionsAnyIff(l, IntermediateWords);
    if Strip(u) == "intermediate" {
      ClassNames();
      StrippedWord(u, "intermediate");
      assert Contains(l, IntermediateWords[0]);
    }
  }

  /** The level is "advanced" exactly when an advanced word occurs and no word of the classes above does. */
  lemma AdvancedIff(u: string)
    ensures ClassifyExperience(u) == "advanced" <==>
      (!MentionsAny(Lower(u), BeginnerWords) && !MentionsAny(Lower(u), IntermediateWords)
       && exists k :: 0 <= k < |AdvancedWords| && Contains(Lower(u), AdvancedWords[k]))
  {
    var l := Lower(u);
    MentionsAnyIff(l, AdvancedWords);
    if Strip(u) == "advanced" {
      ClassNames();
      StrippedWord(u, "advanced");
      assert Contains(l, AdvancedWords[0]);
    }
  }

  // ---------------------------------------------------------------------------
  // How many turns readiness takes
  // ---------------------------------------------------------------------------

  /** How many of the four collection steps are done. */
  function Stage(info: CollectedInfo): nat
  {
    (if info.topic.Some? then 1 else 0) + (if info.days.Some? then 1 else 0)
    + (if info.infoComplete then 1 else 0) + (if info.confirmationAsked then 1 else 0)
  }

  lemma StageStep(p: Progress, u: string)
    requires Consistent(p)
    ensures Stage(p.info) <= Stage(ProcessState(p, u).info) <= Stage(p.info) + 1
  {
  }

  /** Each utterance completes at most one step, so `n` utterances complete at most `n` steps. */
  lemma {:induction false} RunStage(p: Progress, us: seq<string>)
    requires Consistent(p)
    ensures Stage(Run(p, us).info) <= Stage(p.info) + |us|
  {
    if us != [] {
      RunStage(p, us[..|us| - 1]);
      RunConsistent(p, us[..|us| - 1]);
      StageStep(Run(p, us[..|us| - 1]), us[|us| - 1]);
    }
  }

  lemma ReadyStage(p: Progress)
    requires Consistent(p) && p.info.readyToGenerate
    ensures Stage(p.info) == 4
  {
  }

  /** No conversation reaches `ready_to_generate` in fewer utterances than it has steps left; from the start, four. */
  lemma ReadyNeedsFourTurns(p: Progress, us: seq<string>)
    requires Consistent(p) && Run(p, us).info.readyToGenerate
    ensures Stage(p.info) + |us| >= 4
    ensures p == Initial ==> |us| >= 4
  {
    RunConsistent(p, us);
    RunStage(p, us);
    ReadyStage(Run(p, us));
  }

  lemma RunSnoc(p: Progress, us: seq<string>, u: string)
    ensures Run(p, us + [u]) == ProcessState(Run(p, us), u)
  {
    assert (us + [u])[..|us|] == us;
  }

  /** Four utterances in a row are four calls in a row. */
  lemma RunFour(p: Progress, a: string, b: string, c: string, d: string)
    ensures Run(p, [a, b, c, d]) == ProcessState(ProcessState(ProcessState(ProcessState(p, a), b), c), d)
  {
    RunSnoc(p, [], a);
    assert [] + [a] == [a];
    RunSnoc(p, [a], b);
    assert [a] + [b] == [a, b];
    RunSnoc(p, [a, b], c);
    assert [a, b] + [c] == [a, b, c];
    RunSnoc(p, [a, b, c], d);
    assert [a, b, c] + [d] == [a, b, c, d];
  }
}
