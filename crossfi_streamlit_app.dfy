/** The progression and rewards engine of the earlier CrossFi Quest app
    (crossfi_streamlit_app.py): a linear level curve, three achievements that
    can unlock, five lessons open from the start, a three-tier quiz reward
    and a token claim. */
module StreamlitApp {
  import opened Common

  // ---------------------------------------------------------------------
  // Level

  function Min(a: int, b: int): int { if a <= b then a else b }
  function Max2(a: int, b: int): int { if a >= b then a else b }

  /** `min(50, max(1, int(xp / 200) + 1))`: one level per 200 XP, capped at 50. */
  function Level(xp: nat): (level: int)
    ensures 1 <= level <= 50
  {
    Min(50, Max2(1, xp / 200 + 1))
  }

  /** The least XP total at which `level` is reached. */
  function MinXp(level: int): nat
    requires 1 <= level <= 50
  {
    200 * (level - 1)
  }

  /** A level is reached exactly when the XP total is at least its threshold. */
  lemma LevelReached(xp: nat, level: int)
    requires 1 <= level <= 50
    ensures Level(xp) >= level <==> xp >= MinXp(level)
  {
    assert xp / 200 >= level - 1 <==> xp >= 200 * (level - 1) by {
      assert xp == 200 * (xp / 200) + xp % 200 && 0 <= xp % 200 < 200;
    }
  }

  /** More XP never means a lower level. */
  lemma LevelMonotone(a: nat, b: nat)
    requires a <= b
    ensures Level(a) <= Level(b)
  {
    LevelReached(a, Level(a));
    LevelReached(b, Level(a));
  }

  /** Level 5 is reached at 800 XP and the cap of 50 at 9800 XP. */
  lemma LevelLandmarks(xp: nat)
    ensures Level(xp) >= 5 <==> xp >= 800
    ensures Level(xp) == 50 <==> xp >= 9800
  {
    LevelReached(xp, 5);
    LevelReached(xp, 50);
  }

  // ---------------------------------------------------------------------
  // Catalogue

  datatype Lesson = Lesson(title: string, xpReward: nat, tokenReward: nat, difficulty: Difficulty)

  const LessonCount: nat := 5

  predicate IsLessonId(id: int) { 1 <= id <= LessonCount }

  /** The lesson catalogue, keyed by lesson id. */
  function Lessons(id: int): Lesson
    requires IsLessonId(id)
  {
    if id == 1 then Lesson("Introduction to Blockchain", 50, 10, Beginner)
    else if id == 2 then Lesson("What is CrossFi?", 75, 15, Beginner)
    else if id == 3 then Lesson("Cosmos & EVM Integration", 100, 25, Intermediate)
    else if id == 4 then Lesson("DeFi on CrossFi", 125, 35, Intermediate)
    else Lesson("Smart Contracts & Development", 150, 50, Advanced)
  }

  datatype AchievementId = FirstLesson | Level5 | PerfectQuiz | Streak7 | AllBeginner

  /** The achievement catalogue: display name and token reward of each id. */
  function AchievementName(a: AchievementId): string
  {
    match a
    case FirstLesson => "First Steps"
    case Level5 => "Blockchain Explorer"
    case PerfectQuiz => "Quiz Master"
    case Streak7 => "Dedicated Learner"
    case AllBeginner => "Beginner Graduate"
  }

  function AchievementTokens(a: AchievementId): nat
  {
    match a
    case FirstLesson => 20
    case Level5 => 100
    case PerfectQuiz => 50
    case Streak7 => 75
    case AllBeginner => 150
  }

  // ---------------------------------------------------------------------
  // Achievements

  /** The unlock condition of each achievement. The streak and beginner
      graduate achievements are never tested and never unlock. */
  predicate Unlocked(a: AchievementId, lessons: seq<int>, xp: nat, scores: seq<real>)
  {
    match a
    case FirstLesson => |lessons| >= 1
    case Level5 => Level(xp) >= 5
    case PerfectQuiz => |scores| > 0 && Max(scores) == 100.0
    case Streak7 => false
    case AllBeginner => false
  }

  /** One test of the evaluator: `[a]` when its condition holds and it is not held yet. */
  function Test(condition: bool, a: AchievementId, held: seq<AchievementId>): seq<AchievementId>
  {
    if condition && a !in held then [a] else []
  }

  lemma TestMembers(condition: bool, b: AchievementId, held: seq<AchievementId>)
    ensures forall a :: a in Test(condition, b, held) <==> a == b && condition && b !in held
    ensures NoDuplicates(Test(condition, b, held))
  {
  }

  /** The ids `check_achievements` finds newly unlocked, in the order it tests them. */
  function NewAchievements(lessons: seq<int>, xp: nat, scores: seq<real>, held: seq<AchievementId>): seq<AchievementId>
  {
    Test(|lessons| >= 1, FirstLesson, held) +
    Test(Level(xp) >= 5, Level5, held) +
    Test(|scores| > 0 && Max(scores) == 100.0, PerfectQuiz, held)
  }

  /** The evaluator finds each achievement that is unlocked and not held, and
      nothing else, each once. */
  lemma NewAchievementsSpec(lessons: seq<int>, xp: nat, scores: seq<real>, held: seq<AchievementId>)
    ensures var found := NewAchievements(lessons, xp, scores, held);
            NoDuplicates(found) &&
            forall a :: a in found <==> a !in held && Unlocked(a, lessons, xp, scores)
  {
    var t1 := Test(|lessons| >= 1, FirstLesson, held);
    var t2 := Test(Level(xp) >= 5, Level5, held);
    var t3 := Test(|scores| > 0 && Max(scores) == 100.0, PerfectQuiz, held);
    TestMembers(|lessons| >= 1, FirstLesson, held);
    TestMembers(Level(xp) >= 5, Level5, held);
    TestMembers(|scores| > 0 && Max(scores) == 100.0, PerfectQuiz, held);
    AppendNoDuplicates(t1, t2);
    AppendNoDuplicates(t1 + t2, t3);
    var found := t1 + t2 + t3;
    forall a
      ensures a in found <==> a !in held && Unlocked(a, lessons, xp, scores)
    {
      assert a in found <==> a in t1 || a in t2 || a in t3;
    }
  }

  /** The tokens a list of achievements is worth. */
  function RewardSum(ids: seq<AchievementId>): nat
  {
    if ids == [] then 0 else RewardSum(ids[..|ids| - 1]) + AchievementTokens(ids[|ids| - 1])
  }

  lemma {:induction false} RewardSumAppend(s: seq<AchievementId>, t: seq<AchievementId>)
    ensures RewardSum(s + t) == RewardSum(s) + RewardSum(t)
  {
    if t != [] {
      assert (s + t)[..|s + t| - 1] == s + t[..|t| - 1];
      RewardSumAppend(s, t[..|t| - 1]);
    } else {
      assert s + t == s;
    }
  }

  /** Evaluating again right after an award finds nothing. */
  lemma AwardIdempotent(lessons: seq<int>, xp: nat, scores: seq<real>, held: seq<AchievementId>)
    ensures var found := NewAchievements(lessons, xp, scores, held);
            NewAchievements(lessons, xp, scores, held + found) == []
  {
    var found := NewAchievements(lessons, xp, scores, held);
    var again := NewAchievements(lessons, xp, scores, held + found);
    NewAchievementsSpec(lessons, xp, scores, held);
    NewAchievementsSpec(lessons, xp, scores, held + found);
    assert forall a :: a !in again;
  }

  /** With every score a percentage, the perfect-quiz test `max(scores) == 100`
      holds exactly when some quiz scored 100%. */
  lemma PerfectQuizUnlocked(lessons: seq<int>, xp: nat, scores: seq<real>)
    requires forall i :: 0 <= i < |scores| ==> scores[i] <= 100.0
    ensures Unlocked(PerfectQuiz, lessons, xp, scores) <==>
            exists i :: 0 <= i < |scores| && scores[i] == 100.0
  {
    if |scores| > 0 {
      MaxEquals(scores, 100.0);
    }
  }

  /** Conditions survive more lessons, more XP and more percentage scores. */
  lemma UnlockedStable(a: AchievementId, lessons: seq<int>, xp: nat, scores: seq<real>,
                       lessons': seq<int>, xp': nat, scores': seq<real>)
    requires |lessons| <= |lessons'| && xp <= xp' && scores <= scores'
    requires forall i :: 0 <= i < |scores'| ==> scores'[i] <= 100.0
    requires Unlocked(a, lessons, xp, scores)
    ensures Unlocked(a, lessons', xp', scores')
  {
    match a
    case Level5 => LevelMonotone(xp, xp');
    case PerfectQuiz =>
      var i :| 0 <= i < |scores| && scores[i] == 100.0 by { PerfectQuizUnlocked(lessons, xp, scores); }
      assert scores'[i] == scores[i];
      PerfectQuizUnlocked(lessons', xp', scores');
    case _ =>
  }

  // ---------------------------------------------------------------------
  // Invariant of the user record

  /** Lessons are catalogue ids, each completed once; each achievement is held
      once and is deserved; quiz scores are percentages. */
  predicate Consistent(lessons: seq<int>, xp: nat, held: seq<AchievementId>, scores: seq<real>)
  {
    NoDuplicates(lessons) &&
    (forall i :: 0 <= i < |lessons| ==> IsLessonId(lessons[i])) &&
    NoDuplicates(held) &&
    (forall i :: 0 <= i < |held| ==> Unlocked(held[i], lessons, xp, scores)) &&
    (forall i :: 0 <= i < |scores| ==> 0.0 <= scores[i] <= 100.0)
  }

  /** Awarding what the evaluator finds keeps the record consistent. */
  lemma AwardKeepsConsistent(lessons: seq<int>, xp: nat, held: seq<AchievementId>, scores: seq<real>)
    requires Consistent(lessons, xp, held, scores)
    ensures Consistent(lessons, xp, held + NewAchievements(lessons, xp, scores, held), scores)
  {
    var found := NewAchievements(lessons, xp, scores, held);
    NewAchievementsSpec(lessons, xp, scores, held);
    AppendNoDuplicates(held, found);
    var held' := held + found;
    forall i | 0 <= i < |held'|
      ensures Unlocked(held'[i], lessons, xp, scores)
    {
      if i >= |held| {
        assert held'[i] == found[i - |held|];
        assert held'[i] in found;
      }
    }
  }

  /** Completing a new catalogue lesson and gaining XP keeps the record consistent. */
  lemma LessonKeepsConsistent(lessons: seq<int>, xp: nat, held: seq<AchievementId>, scores: seq<real>, id: int, gain: nat)
    requires Consistent(lessons, xp, held, scores)
    requires IsLessonId(id) && id !in lessons
    ensures Consistent(lessons + [id], xp + gain, held, scores)
  {
    AppendNoDuplicates(lessons, [id]);
    forall i | 0 <= i < |held|
      ensures Unlocked(held[i], lessons + [id], xp + gain, scores)
    {
      UnlockedStable(held[i], lessons, xp, scores, lessons + [id], xp + gain, scores);
    }
  }

  /** Recording a quiz percentage keeps the record consistent. */
  lemma QuizKeepsConsistent(lessons: seq<int>, xp: nat, held: seq<AchievementId>, scores: seq<real>, p: real)
    requires Consistent(lessons, xp, held, scores)
    requires 0.0 <= p <= 100.0
    ensures Consistent(lessons, xp, held, scores + [p])
  {
    forall i | 0 <= i < |held|
      ensures Unlocked(held[i], lessons, xp, scores + [p])
    {
      UnlockedStable(held[i], lessons, xp, scores, lessons, xp, scores + [p]);
    }
  }

  // ---------------------------------------------------------------------
  // Quiz reward

  /** The tokens a finished quiz earns: 30 at 80% or more, 20 at 60% or more,
      10 otherwise. No XP is granted. */
  function QuizTokens(score: real): nat
  {
    if score >= 80.0 then 30 else if score >= 60.0 then 20 else 10
  }

  /** The tiers as integer comparisons on the number of right answers. */
  lemma QuizTiers(correct: nat, n: nat)
    requires n >= 1
    ensures QuizTokens(Percent(correct, n)) ==
            if 100 * correct >= 80 * n then 30 else if 100 * correct >= 60 * n then 20 else 10
  {
    PercentAtLeast(correct, n, 80);
    PercentAtLeast(correct, n, 60);
  }

  /** On the three-question fallback quiz: three right earn 30, two earn 20
      (66.7%), one or none earn 10. */
  lemma ThreeQuestionRewards(correct: nat)
    requires correct <= 3
    ensures QuizTokens(Percent(correct, 3)) == if correct == 3 then 30 else if correct == 2 then 20 else 10
  {
    QuizTiers(correct, 3);
  }

  /** A better score never earns less. */
  lemma QuizTokensMonotone(s1: real, s2: real)
    requires s1 <= s2
    ensures QuizTokens(s1) <= QuizTokens(s2)
  {
  }

  // ---------------------------------------------------------------------
  // Question provider

  /** `generate_fallback_quiz`: the same three questions whatever the topic. */
  function FallbackQuiz(topic: string): seq<Question>
  {
    [Question("What makes CrossFi unique as a blockchain platform?",
              ["A) Only supports Bitcoin", "B) Combines Cosmos and EVM", "C) Centralized system", "D) No smart contracts"], 1,
              "CrossFi uniquely combines Cosmos and EVM architectures for enhanced functionality."),
     Question("CrossFi is primarily designed to bridge what?",
              ["A) Gaming and NFTs", "B) Traditional finance and crypto", "C) Social media platforms", "D) Cloud computing"], 1,
              "CrossFi focuses on bridging traditional financial systems with cryptocurrency."),
     Question("What type of blockchain is CrossFi?",
              ["A) Layer 2", "B) Sidechain", "C) Layer 1", "D) Private blockchain"], 2,
              "CrossFi is a Layer 1 blockchain with its own consensus mechanism.")]
  }

  /** The fallback quiz ignores its topic and is well formed, with three
      questions whose right answers are B, B and C. */
  lemma FallbackQuizShape(t1: string, t2: string)
    ensures FallbackQuiz(t1) == FallbackQuiz(t2)
    ensures |FallbackQuiz(t1)| == 3 && WellFormedBank(FallbackQuiz(t1))
    ensures FallbackQuiz(t1)[0].correct == 1 && FallbackQuiz(t1)[1].correct == 1 && FallbackQuiz(t1)[2].correct == 2
  {
    var qs := FallbackQuiz(t1);
    assert WellFormed(qs[0]) && WellFormed(qs[1]) && WellFormed(qs[2]);
  }

  /** What asking the model for questions came to. `NoClient`: no API key
      configured. `CallFailed`: the call raised. `Reply(content)`: the text of
      the model's answer. */
  datatype Generation = NoClient | CallFailed | Reply(content: string)

  /** `json.loads(content)['questions']`: `None` when either step raised. */
  type JsonParse = string -> Option<seq<Question>>

  /** `generate_quiz_with_groq`: the model's 'questions' list when its raw
      reply parses, the fallback quiz otherwise. */
  function GenerateQuiz(topic: string, g: Generation, parse: JsonParse): seq<Question>
  {
    match g
    case NoClient => FallbackQuiz(topic)
    case CallFailed => FallbackQuiz(topic)
    case Reply(content) =>
      match parse(content)
      case None => FallbackQuiz(topic)
      case Some(qs) => qs
  }

  /** The reply is parsed as it stands and its questions used unchecked:
      when it parses to an object with a 'questions' list, that list is the
      quiz; in every other case the fallback quiz is, which is well formed. */
  lemma GeneratedQuiz(topic: string, g: Generation, parse: JsonParse)
    ensures g.Reply? && parse(g.content).Some? ==> GenerateQuiz(topic, g, parse) == parse(g.content).value
    ensures !(g.Reply? && parse(g.content).Some?) ==>
            GenerateQuiz(topic, g, parse) == FallbackQuiz(topic) && WellFormedBank(GenerateQuiz(topic, g, parse))
  {
    FallbackQuizShape(topic, topic);
    if g.Reply? {
      match parse(g.content)
      case None =>
      case Some(qs) =>
    }
  }

  // ---------------------------------------------------------------------
  // Session state

  /** The `user_data` record of a session, wallet fields included. */
  class UserData {
    var xp: nat
    var tokens: nat
    var completedLessons: seq<int>
    var achievements: seq<AchievementId>
    var quizScores: seq<real>
    var walletConnected: bool
    var walletAddress: string

    ghost predicate Valid()
      reads this
    {
      Consistent(completedLessons, xp, achievements, quizScores)
    }

    constructor ()
      ensures Valid()
      ensures xp == 0 && tokens == 0 && completedLessons == [] && achievements == [] && quizScores == []
      ensures !walletConnected && walletAddress == ""
    {
      xp, tokens, completedLessons, achievements, quizScores := 0, 0, [], [], [];
      walletConnected, walletAddress := false, "";
    }

    /** The award loop of `check_achievements`: each id of `found` is
        appended in turn and its tokens added; nothing else changes. */
    method Award(found: seq<AchievementId>)
      modifies this
      ensures achievements == old(achievements) + found
      ensures tokens == old(tokens) + RewardSum(found)
      ensures xp == old(xp) && completedLessons == old(completedLessons) && quizScores == old(quizScores)
      ensures walletConnected == old(walletConnected) && walletAddress == old(walletAddress)
    {
      for i := 0 to |found|
        invariant achievements == old(achievements) + found[..i]
        invariant tokens == old(tokens) + RewardSum(found[..i])
        invariant xp == old(xp) && completedLessons == old(completedLessons) && quizScores == old(quizScores)
        invariant walletConnected == old(walletConnected) && walletAddress == old(walletAddress)
      {
        assert found[..i + 1][..i] == found[..i];
        achievements := achievements + [found[i]];
        tokens := tokens + AchievementTokens(found[i]);
      }
      assert found[..|found|] == found;
    }

    /** `check_achievements`: appends every newly unlocked id, adds its
        tokens, and returns exactly the ids it appended. */
    method CheckAchievements() returns (newAchievements: seq<AchievementId>)
      requires Valid()
      modifies this
      ensures Valid()
      ensures newAchievements == NewAchievements(completedLessons, xp, quizScores, old(achievements))
      ensures achievements == old(achievements) + newAchievements
      ensures tokens == old(tokens) + RewardSum(newAchievements)
      ensures xp == old(xp) && completedLessons == old(completedLessons) && quizScores == old(quizScores)
      ensures walletConnected == old(walletConnected) && walletAddress == old(walletAddress)
    {
      newAchievements := NewAchievements(completedLessons, xp, quizScores, achievements);
      AwardKeepsConsistent(completedLessons, xp, achievements, quizScores);
      Award(newAchievements);
    }

    /** The start-lesson button, shown for lessons not yet completed: the
        lesson is recorded, its XP and tokens are added, and achievements are
        checked on the updated record; otherwise nothing happens. */
    method CompleteLesson(id: int) returns (ok: bool)
      requires IsLessonId(id) && Valid()
      modifies this
      ensures Valid()
      ensures ok == (id !in old(completedLessons))
      ensures !ok ==> xp == old(xp) && tokens == old(tokens) &&
                      completedLessons == old(completedLessons) && achievements == old(achievements)
      ensures ok ==> completedLessons == old(completedLessons) + [id] &&
                     xp == old(xp) + Lessons(id).xpReward &&
                     achievements == old(achievements) + NewAchievements(completedLessons, xp, quizScores, old(achievements)) &&
                     tokens == old(tokens) + Lessons(id).tokenReward +
                       RewardSum(NewAchievements(completedLessons, xp, quizScores, old(achievements)))
      ensures quizScores == old(quizScores) && walletConnected == old(walletConnected) && walletAddress == old(walletAddress)
    {
      ok := id !in completedLessons;
      if ok {
        var lesson := Lessons(id);
        LessonKeepsConsistent(completedLessons, xp, achievements, quizScores, id, lesson.xpReward);
        completedLessons := completedLessons + [id];
        xp := xp + lesson.xpReward;
        tokens := tokens + lesson.tokenReward;
        var _ := CheckAchievements();
      }
    }

    /** A connect button: the wallet is marked connected with the given
        address. No achievement depends on it. */
    method ConnectWallet(address: string)
      requires !walletConnected
      modifies this
      ensures walletConnected && walletAddress == address
      ensures xp == old(xp) && tokens == old(tokens) && completedLessons == old(completedLessons)
      ensures achievements == old(achievements) && quizScores == old(quizScores)
    {
      walletConnected, walletAddress := true, address;
    }

    /** `claim_tokens_interface`: refused without a wallet; with tokens
        available the claim button zeroes them; nothing else changes. */
    method ClaimTokens() returns (claimed: nat)
      modifies this
      ensures claimed == if walletConnected && old(tokens) > 0 then old(tokens) else 0
      ensures tokens == old(tokens) - claimed
      ensures xp == old(xp) && completedLessons == old(completedLessons)
      ensures achievements == old(achievements) && quizScores == old(quizScores)
      ensures walletConnected == old(walletConnected) && walletAddress == old(walletAddress)
    {
      claimed := 0;
      if !walletConnected {
        return;
      }
      if tokens > 0 {
        claimed := tokens;
        tokens := 0;
      }
    }
  }

  function CountTrue(s: seq<bool>): nat
  {
    if s == [] then 0 else CountTrue(s[..|s| - 1]) + (if s[|s| - 1] then 1 else 0)
  }

  lemma {:induction false} CountTrueBound(s: seq<bool>)
    ensures CountTrue(s) <= |s|
  {
    if s != [] {
      CountTrueBound(s[..|s| - 1]);
    }
  }

  /** The `quiz_state` record of a session. The setup screen is shown while
      `questions` is empty. */
  class QuizState {
    var questions: seq<Question>
    var currentQ: nat
    var score: nat
    var answered: seq<bool>

    /** One outcome is recorded per answered question, the score counts the
        right ones, and no more questions are answered than the quiz has. */
    ghost predicate Valid()
      reads this
    {
      currentQ <= |questions| && |answered| == currentQ && score == CountTrue(answered)
    }

    constructor ()
      ensures Valid() && questions == [] && currentQ == 0 && score == 0 && answered == []
    {
      questions, currentQ, score, answered := [], 0, 0, [];
    }

    /** The start button of the setup screen. An empty list leaves the setup
        screen in place. */
    method Start(qs: seq<Question>)
      requires Valid() && questions == []
      modifies this
      ensures Valid() && questions == qs && currentQ == 0 && score == 0 && answered == []
    {
      questions, currentQ, score, answered := qs, 0, 0, [];
    }

    /** The submit button while a question is shown: its outcome is recorded,
        the score goes up exactly when the chosen option is the right one, and
        the next question comes up. */
    method Submit(selected: nat) returns (isCorrect: bool)
      requires Valid() && currentQ < |questions|
      requires selected < |questions[currentQ].options|
      modifies this
      ensures Valid()
      ensures isCorrect <==> selected == old(questions[currentQ]).correct
      ensures answered == old(answered) + [isCorrect]
      ensures currentQ == old(currentQ) + 1
      ensures score == old(score) + (if isCorrect then 1 else 0)
      ensures questions == old(questions)
    {
      isCorrect := selected == questions[currentQ].correct;
      if isCorrect {
        score := score + 1;
      }
      assert (answered + [isCorrect])[..|answered|] == answered;
      answered := answered + [isCorrect];
      currentQ := currentQ + 1;
    }

    /** The completion screen's award: the percent score picks 30, 20 or 10
        tokens, the score is recorded, achievements are checked. The quiz
        record is not touched, so every new render of the completion screen
        grants the award again. */
    method Finish(user: UserData) returns (tokensEarned: nat)
      requires Valid() && |questions| > 0 && currentQ == |questions|
      requires user.Valid()
      modifies user
      ensures user.Valid()
      ensures tokensEarned == QuizTokens(Percent(score, |questions|))
      ensures user.quizScores == old(user.quizScores) + [Percent(score, |questions|)]
      ensures user.achievements == old(user.achievements) +
              NewAchievements(user.completedLessons, user.xp, user.quizScores, old(user.achievements))
      ensures user.tokens == old(user.tokens) + tokensEarned +
              RewardSum(NewAchievements(user.completedLessons, user.xp, user.quizScores, old(user.achievements)))
      ensures user.xp == old(user.xp) && user.completedLessons == old(user.completedLessons)
      ensures user.walletConnected == old(user.walletConnected) && user.walletAddress == old(user.walletAddress)
    {
      var finalScore := Percent(score, |questions|);
      tokensEarned := QuizTokens(finalScore);
      CountTrueBound(answered);
      PercentRange(score, |questions|);
      QuizKeepsConsistent(user.completedLessons, user.xp, user.achievements, user.quizScores, finalScore);
      user.tokens := user.tokens + tokensEarned;
      user.quizScores := user.quizScores + [finalScore];
      var _ := user.CheckAchievements();
    }

    /** The "take another quiz" button of the completion screen. */
    method Reset()
      requires Valid() && |questions| > 0 && currentQ == |questions|
      modifies this
      ensures Valid() && questions == [] && currentQ == 0 && score == 0 && answered == []
    {
      questions, currentQ, score, answered := [], 0, 0, [];
    }
  }
}
