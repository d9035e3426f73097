/** Short sessions driven through the session classes of the later app,
    with the outcomes stated as postconditions. */
module NewCrossFiScenarios {
  import opened Common
  import opened NewCrossFi

  /** From a fresh session, lesson 1 gives 100 XP (still level 1) and
      25 + 50 tokens with "first lesson" unlocked; pressing again does
      nothing, and lesson 2 stays locked at level 1. */
  method FirstLessonScenario() returns (xp: nat, tokens: nat, held: seq<AchievementId>, again: bool, second: bool)
    ensures xp == 100 && Level(xp) == 1 && tokens == 75 && held == [FirstLesson]
    ensures !again && !second
  {
    var user := new UserData();
    var wallet := new Wallet();
    var ok := CompleteLesson(user, wallet, 1);
    again := CompleteLesson(user, wallet, 1);
    second := CompleteLesson(user, wallet, 2);
    xp, tokens, held := user.xp, user.tokens, user.achievements;
  }

  /** The default bank the perfect-quiz session runs on: two questions whose
      right answer is option 1. */
  lemma DefaultBankFacts()
    ensures var qs := FallbackQuestions("Smart Contract Development");
            |qs| == 2 && qs[0].correct == 1 && qs[1].correct == 1 &&
            |qs[0].options| == 4 && |qs[1].options| == 4
  {
    var qs := FallbackQuestions("Smart Contract Development");
    assert "Smart Contract Development" !in QuestionBank;
    assert qs == QuestionBank[DefaultTopic];
  }

  /** The values a perfect two-question beginner quiz runs on. */
  lemma PerfectQuizFacts()
    ensures Percent(2, 2) == 100.0 && QuizTokens(Beginner, 100.0) == 40
    ensures NewAchievements([], 20, [100.0], false, []) == [PerfectQuiz]
    ensures RewardSum([PerfectQuiz]) == 100
  {
    assert Max([100.0]) == 100.0;
  }

  /** A beginner quiz on a topic without a bank of its own runs on the two
      CrossFi Platform questions; both right gives 40 tokens and 20 XP plus
      the perfect-quiz bonus of 100. */
  method PerfectQuizScenario() returns (earned: nat, xpEarned: nat, tokens: nat, held: seq<AchievementId>)
    ensures earned == 40 && xpEarned == 20 && tokens == 140 && held == [PerfectQuiz]
  {
    DefaultBankFacts();
    PerfectQuizFacts();
    var user := new UserData();
    var wallet := new Wallet();
    var quiz := new QuizState();
    var qs := FallbackQuestions("Smart Contract Development");
    quiz.Start("Smart Contract Development", Beginner, qs);
    var right := quiz.Submit(1);
    right := quiz.Submit(1);
    earned, xpEarned := quiz.Finish(user, wallet);
    tokens, held := user.tokens, user.achievements;
  }

  /** Rendering the completion screen of any finished quiz a second time,
      before "take another quiz", grants the same tokens and XP again and
      records the same score a second time. */
  method RerenderAwardsAgain(quiz: QuizState, user: UserData, wallet: Wallet)
    returns (first: nat, second: nat, xpFirst: nat, xpSecond: nat)
    requires quiz.Valid() && quiz.active && quiz.currentQ == |quiz.questions| && |quiz.questions| >= 1
    requires user.Valid()
    modifies user
    ensures first == second && xpFirst == xpSecond
    ensures user.quizScores == old(user.quizScores) +
            [Percent(quiz.score, |quiz.questions|), Percent(quiz.score, |quiz.questions|)]
    ensures user.xp == old(user.xp) + 2 * xpFirst
    ensures user.tokens >= old(user.tokens) + 2 * first
  {
    first, xpFirst := quiz.Finish(user, wallet);
    second, xpSecond := quiz.Finish(user, wallet);
  }

  /** An advanced quiz with three of five answered right (60%) earns the base
      50 tokens and 25 XP; skipped questions score nothing. */
  method AdvancedQuizScenario() returns (earned: nat, xpEarned: nat)
    ensures earned == 50 && xpEarned == 25
  {
    var user := new UserData();
    var wallet := new Wallet();
    var quiz := new QuizState();
    var q := Question("q", ["a", "b", "c", "d"], 0, "e");
    quiz.Start("DeFi Concepts", Advanced, [q, q, q, q, q]);
    var right := quiz.Submit(0);
    right := quiz.Submit(0);
    quiz.Skip();
    right := quiz.Submit(3);
    right := quiz.Submit(0);
    assert quiz.score == 3;
    assert Percent(3, 5) == 60.0;
    earned, xpEarned := quiz.Finish(user, wallet);
  }

  /** Connecting unlocks "wallet connected" (75 tokens); a claim takes every
      token and a second claim finds none; reconnecting after a disconnect
      does not award the achievement again. */
  method WalletScenario() returns (first: nat, second: nat, afterReconnect: nat)
    ensures first == 75 && second == 0 && afterReconnect == 0
  {
    var user := new UserData();
    var wallet := new Wallet();
    var beforeConnect := wallet.Claim(user);
    wallet.Connect(MetaMask, "0x00000000000000aa", user);
    first := wallet.Claim(user);
    second := wallet.Claim(user);
    wallet.Disconnect();
    wallet.Connect(Keplr, "crossfi10000000000", user);
    afterReconnect := user.tokens;
  }
}

/** Short sessions driven through the session classes of the earlier app. */
module StreamlitAppScenarios {
  import opened Common
  import opened StreamlitApp

  /** Lesson 1 gives 50 XP and 10 + 20 tokens; an immediate new check finds
      nothing; a claim without a wallet is refused. */
  method FirstLessonScenario() returns (xp: nat, tokens: nat, recheck: seq<AchievementId>, claimed: nat)
    ensures xp == 50 && tokens == 30 && recheck == [] && claimed == 0
  {
    var user := new UserData();
    var ok := user.CompleteLesson(1);
    recheck := user.CheckAchievements();
    claimed := user.ClaimTokens();
    xp, tokens := user.xp, user.tokens;
  }

  /** Two of the three fallback questions right (66.7%) earn 20 tokens and no
      XP; after connecting, the claim takes those tokens. The quiz is given by
      what FallbackQuizShape proves of the fallback quiz: three well-formed
      questions with answer key B, B, C, answered here B, B, A. */
  method FallbackQuizScenario(qs: seq<Question>) returns (earned: nat, xp: nat, claimed: nat, left: nat)
    requires |qs| == 3 && WellFormedBank(qs) && qs[0].correct == 1 && qs[1].correct == 1 && qs[2].correct == 2
    ensures earned == 20 && xp == 0 && claimed == 20 && left == 0
  {
    var user := new UserData();
    var quiz := new QuizState();
    quiz.Start(qs);
    var right := quiz.Submit(1);
    right := quiz.Submit(1);
    right := quiz.Submit(0);
    assert quiz.score == 2;
    ThreeQuestionRewards(2);
    earned := quiz.Finish(user);
    xp := user.xp;
    user.ConnectWallet("xfi1000000000000");
    claimed := user.ClaimTokens();
    left := user.tokens;
    quiz.Reset();
  }
}
