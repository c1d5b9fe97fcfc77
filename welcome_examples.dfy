/**
 * Worked conversations for the `collected_info` state machine of services/welcome_service.py:
 * concrete utterances and what one call, or a whole opening conversation, makes of them.
 */
module WelcomeExamples {
  import opened Wrappers
  import opened Text
  import opened WelcomeInfo

  /** The first two answers from the start: the topic, then the day count. */
  lemma TopicThenDays(p: Progress, topic: string, days: string)
    requires p == Initial
    requires AcceptsTopic(topic) && DaysFrom(days).Some?
    ensures var q := ProcessState(ProcessState(p, topic), days);
      Consistent(q) && q == Progress(p.info.(topic := Some(Strip(topic)), days := DaysFrom(days)), "experience")
  {
    var p1 := ProcessState(p, topic);
    TopicStep(p, topic);
    assert p1 == Progress(p.info.(topic := Some(Strip(topic))), "days");
    ProcessStateConsistent(p, topic);
    DaysStep(p1, days);
    ProcessStateConsistent(p1, days);
  }

  /** Then a level that is not blank, and any further utterance, make the session ready. */
  lemma LevelThenConfirm(p: Progress, level: string, confirm: string)
    requires Consistent(p) && TopicSet(p.info) && DaysSet(p.info) && p.info.experienceLevel.None?
    requires ClassifyExperience(level) != ""
    ensures var q := ProcessState(ProcessState(p, level), confirm);
      q == Progress(p.info.(experienceLevel := Some(ClassifyExperience(level)), infoComplete := true,
                            confirmationAsked := true, readyToGenerate := true), p.step)
  {
    var p3 := ProcessState(p, level);
    ExperienceStep(p, level);
    ProcessStateConsistent(p, level);
    assert p3 == Progress(p.info.(experienceLevel := Some(ClassifyExperience(level)), infoComplete := true), p.step);
    ConfirmationMakesReady(p3, confirm);
  }

  /** Four answers from the start (a topic, a day count, a level that is not blank, anything) make the session ready. */
  lemma FourAnswersSuffice(p: Progress, topic: string, days: string, level: string, confirm: string)
    requires p == Initial
    requires AcceptsTopic(topic) && DaysFrom(days).Some?
    requires ClassifyExperience(level) != ""
    ensures var q := ProcessState(ProcessState(ProcessState(ProcessState(p, topic), days), level), confirm);
      q.info.readyToGenerate
      && q.info.topic == Some(Strip(topic))
      && q.info.days == DaysFrom(days)
      && q.info.experienceLevel == Some(ClassifyExperience(level))
      && q.step == "experience"
    ensures Run(p, [topic, days, level, confirm]).info.readyToGenerate
  {
    RunFour(p, topic, days, level, confirm);
    TopicThenDays(p, topic, days);
    var p2 := ProcessState(ProcessState(p, topic), days);
    LevelThenConfirm(p2, level, confirm);
  }

  /**
   * A blank level is recorded as "" and marks the info complete, yet the level still counts
   * as unset, so the next call runs the experience branch again instead of confirming.
   */
  lemma BlankLevelRetried(p: Progress, level: string)
    requires Consistent(p) && TopicSet(p.info) && DaysSet(p.info) && !ExperienceSet(p.info)
    requires ClassifyExperience(level) == ""
    ensures var q := ProcessState(p, level);
      q.info.experienceLevel == Some("") && q.info.infoComplete && !q.info.confirmationAsked
      && !q.info.readyToGenerate && BranchOf(q.info) == ExperienceBranch
  {
    ExperienceStep(p, level);
  }

  // ---------------------------------------------------------------------------
  // Worked utterances
  // ---------------------------------------------------------------------------

  /** A greeting with a trailing space is not on the stoplist, and is taken as the topic "hello". */
  lemma GreetingWithSpaceIsTopic(p: Progress, u: string)
    requires p == Initial && u == "hello "
    ensures ExtractInfo(p, u) == Progress(p.info.(topic := Some(u[..5])), "days")
    ensures u[..5] == "hello"
  {
    assert Lower(u) !in Stoplist by {
      assert Lower(u)[5] == ' ';
    }
    assert LStrip(u) == u by {
      assert !IsSpace(u[0]);
    }
    assert RStrip(u) == RStrip(u[..5]) by {
      assert IsSpace(u[5]);
    }
    assert RStrip(u[..5]) == u[..5] by {
      assert !IsSpace(u[..5][4]);
    }
    assert AcceptsTopic(u);
    TopicStep(p, u);
  }

  /** A bare greeting is refused and changes nothing. */
  lemma BareGreetingIgnored(p: Progress, u: string)
    requires p == Initial && u == "Hello"
    ensures ExtractInfo(p, u) == p
  {
    assert Lower(u) == Stoplist[2];
    TopicStep(p, u);
  }

  /** Every stoplisted greeting is at most six characters long. */
  lemma LongNotStopped(u: string)
    requires |u| > 6
    ensures Lower(u) !in Stoplist
  {
    assert |Lower(u)| > 6;
    assert |Stoplist[0]| == 6 && |Stoplist[1]| == 3 && |Stoplist[2]| == 5 && |Stoplist[3]| == 2 && |Stoplist[4]| == 3;
  }

  /** Only the topic branch runs while the topic is unset, even when the utterance names a day count. */
  lemma TopicFirst(p: Progress, u: string)
    requires p == Initial && u == "hello, 14 days"
    ensures ExtractInfo(p, u) == Progress(p.info.(topic := Some(u)), "days")
  {
    LongNotStopped(u);
    assert Trimmed(u) by {
      assert u[0] == 'h' && u[13] == 's';
    }
    StripNoop(u);
    TopicStep(p, u);
  }

  /** The day count is found inside a sentence. */
  lemma DaysInSentence(u: string)
    requires u == "maybe like 14 days or so"
    ensures DaysFrom(u) == Some(14)
  {
    var pre, rest := "maybe like ", " days or so";
    assert NoDigits(pre);
    assert pre + "14" + rest == u;
    DaysFromRun(pre, "14", rest);
    assert DigitsValue("14") == 14 by {
      assert "14"[..1] == "1";
    }
  }

  /** Out-of-range values are refused, and only the first number counts. */
  lemma DaysRefused(u1: string, u2: string)
    requires u1 == "45" && u2 == "5 or 14"
    ensures DaysFrom(u1) == None
    ensures DaysFrom(u2) == None
  {
    DaysFromRun([], u1, []);
    assert [] + u1 + [] == u1;
    assert DigitsValue(u1) == 45 by {
      assert u1[..1] == "4" && u1[1] == '5';
      assert DigitsValue(u1) == 10 * DigitsValue(u1[..1]) + DigitValue(u1[1]);
    }
    DaysFromRun([], "5", " or 14");
    assert [] + "5" + " or 14" == u2;
  }
}
