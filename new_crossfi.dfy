/** The progression and rewards engine of the later CrossFi Quest app
    (new_crossfi.py): a stepped level curve, six achievements, five lessons
    locked by level, a quiz whose reward depends on difficulty and score, a
    simulated wallet and a token claim. */
module NewCrossFi {
  import opened Common

  // ---------------------------------------------------------------------
  // Level

  function Min(a: int, b: int): int { if a <= b then a else b }

  /** The level for an XP total: 200, 500, 1000, 1800 and 3000 XP open levels
      2 to 5; above 3000 one more level per 500 XP, capped at 50. */
  function Level(xp: nat): (level: int)
    ensures 1 <= level <= 50
  {
    if xp < 200 then 1
    else if xp < 500 then 2
    else if xp < 1000 then 3
    else if xp < 1800 then 4
    else if xp < 3000 then 5
    else Min(50, 5 + (xp - 3000) / 500)
  }

  /** The least XP total at which `level` is reached. */
  function MinXp(level: int): nat
    requires 1 <= level <= 50
  {
    if level == 1 then 0
    else if level == 2 then 200
    else if level == 3 then 500
    else if level == 4 then 1000
    else if level == 5 then 1800
    else 3000 + (level - 5) * 500
  }

  /** The level curve and the threshold table agree: a level is reached
      exactly when the XP total is at least its threshold. */
  lemma LevelReached(xp: nat, level: int)
    requires 1 <= level <= 50
    ensures Level(xp) >= level <==> xp >= MinXp(level)
  {
    if level >= 6 && xp >= 3000 {
      var d := xp - 3000;
      var k := level - 5;
      assert d / 500 >= k <==> d >= 500 * k by {
        assert d == 500 * (d / 500) + d % 500 && 0 <= d % 500 < 500;
      }
    }
  }

  /** More XP never means a lower level. */
  lemma LevelMonotone(a: nat, b: nat)
    requires a <= b
    ensures Level(a) <= Level(b)
  {
    LevelReached(a, Level(a));
    LevelReached(b, Level(a));
  }

  /** Level 5 covers exactly the XP totals from 1800 up to 3499, and the cap
      of 50 is reached at 25500 XP. */
  lemma LevelLandmarks(xp: nat)
    ensures Level(xp) == 5 <==> 1800 <= xp < 3500
    ensures Level(xp) >= 5 <==> xp >= 1800
    ensures Level(xp) == 50 <==> xp >= 25500
  {
    LevelReached(xp, 5);
    LevelReached(xp, 6);
    LevelReached(xp, 50);
  }

  // ---------------------------------------------------------------------
  // Catalogue

  datatype Lesson = Lesson(title: string, xpReward: nat, tokenReward: nat, difficulty: Difficulty, duration: nat)

  /** The number of entries of the lesson catalogue. */
  const LessonCount: nat := 5

  predicate IsLessonId(id: int) { 1 <= id <= LessonCount }

  /** The lesson catalogue, keyed by lesson id. */
  function LessonContent(id: int): Lesson
    requires IsLessonId(id)
  {
    if id == 1 then Lesson("Blockchain Fundamentals", 100, 25, Beginner, 15)
    else if id == 2 then Lesson("CrossFi Platform Deep Dive", 150, 40, Intermediate, 20)
    else if id == 3 then Lesson("Cosmos SDK & EVM Integration", 200, 60, Advanced, 25)
    else if id == 4 then Lesson("DeFi on CrossFi", 250, 80, Intermediate, 30)
    else Lesson("Building on CrossFi", 300, 100, Advanced, 45)
  }

  datatype AchievementId = FirstLesson | Level5 | PerfectQuiz | WalletConnected | Streak7 | AllLessons

  /** The achievement catalogue: display name and token reward of each id. */
  function AchievementName(a: AchievementId): string
  {
    match a
    case FirstLesson => "Blockchain Pioneer"
    case Level5 => "CrossFi Explorer"
    case PerfectQuiz => "Quiz Master"
    case WalletConnected => "DeFi Ready"
    case Streak7 => "Dedicated Learner"
    case AllLessons => "CrossFi Expert"
  }

  function AchievementTokens(a: AchievementId): nat
  {
    match a
    case FirstLesson => 50
    case Level5 => 200
    case PerfectQuiz => 100
    case WalletConnected => 75
    case Streak7 => 150
    case AllLessons => 500
  }

  // ---------------------------------------------------------------------
  // Achievements

  /** The unlock condition of each achievement, over the parts of the user
      record and the wallet that the evaluator looks at. The streak
      achievement has no condition in the evaluator and never unlocks. */
  predicate Unlocked(a: AchievementId, lessons: seq<int>, xp: nat, scores: seq<real>, connected: bool)
  {
    match a
    case FirstLesson => |lessons| >= 1
    case Level5 => Level(xp) >= 5
    case PerfectQuiz => |scores| > 0 && Max(scores) >= 100.0
    case WalletConnected => connected
    case Streak7 => false
    case AllLessons => |lessons| >= LessonCount
  }

  /** One test of the evaluator: `[a]` when its condition holds and it is not held yet. */
  function Test(condition: bool, a: AchievementId, held: seq<AchievementId>): seq<AchievementId>
  {
    if condition && a !in held then [a] else []
  }

  /** The ids the evaluator finds newly unlocked, in the order it tests them. */
  function NewAchievements(lessons: seq<int>, xp: nat, scores: seq<real>, connected: bool,
                           held: seq<AchievementId>): seq<AchievementId>
  {
    Test(|lessons| >= 1, FirstLesson, held) +
    Test(Level(xp) >= 5, Level5, held) +
    Test(|scores| > 0 && Max(scores) >= 100.0, PerfectQuiz, held) +
    Test(connected, WalletConnected, held) +
    Test(|lessons| >= LessonCount, AllLessons, held)
  }

  lemma TestMembers(condition: bool, b: AchievementId, held: seq<AchievementId>)
    ensures forall a :: a in Test(condition, b, held) <==> a == b && condition && b !in held
    ensures NoDuplicates(Test(condition, b, held))
  {
  }

  /** The five tests in sequence, over arbitrary conditions: each id whose
      condition holds and that is not held, each once. */
  lemma FiveTests(c1: bool, c2: bool, c3: bool, c4: bool, c5: bool, held: seq<AchievementId>)
    ensures var found := Test(c1, FirstLesson, held) + Test(c2, Level5, held) + Test(c3, PerfectQuiz, held) +
                         Test(c4, WalletConnected, held) + Test(c5, AllLessons, held);
            NoDuplicates(found) &&
            forall a :: a in found <==> (a !in held &&
              ((a == FirstLesson && c1) || (a == Level5 && c2) || (a == PerfectQuiz && c3) ||
               (a == WalletConnected && c4) || (a == AllLessons && c5)))
  {
    var t1 := Test(c1, FirstLesson, held);
    var t2 := Test(c2, Level5, held);
    var t3 := Test(c3, PerfectQuiz, held);
    var t4 := Test(c4, WalletConnected, held);
    var t5 := Test(c5, AllLessons, held);
    TestMembers(c1, FirstLesson, held);
    TestMembers(c2, Level5, held);
    TestMembers(c3, PerfectQuiz, held);
    TestMembers(c4, WalletConnected, held);
    TestMembers(c5, AllLessons, held);
    AppendNoDuplicates(t1, t2);
    AppendNoDuplicates(t1 + t2, t3);
    AppendNoDuplicates(t1 + t2 + t3, t4);
    AppendNoDuplicates(t1 + t2 + t3 + t4, t5);
    var found := t1 + t2 + t3 + t4 + t5;
    forall a
      ensures a in found <==> (a !in held &&
              ((a == FirstLesson && c1) || (a == Level5 && c2) || (a == PerfectQuiz && c3) ||
               (a == WalletConnected && c4) || (a == AllLessons && c5)))
    {
      assert a in found <==> a in t1 || a in t2 || a in t3 || a in t4 || a in t5;
    }
  }

  /** The evaluator finds each achievement that is unlocked and not held, and
      nothing else, each once. */
  lemma NewAchievementsSpec(lessons: seq<int>, xp: nat, scores: seq<real>, connected: bool, held: seq<AchievementId>)
    ensures var found := NewAchievements(lessons, xp, scores, connected, held);
            NoDuplicates(found) &&
            forall a :: a in found <==> a !in held && Unlocked(a, lessons, xp, scores, connected)
  {
    var c1, c2, c3, c4, c5 := |lessons| >= 1, Level(xp) >= 5, |scores| > 0 && Max(scores) >= 100.0,
                              connected, |lessons| >= LessonCount;
    FiveTests(c1, c2, c3, c4, c5, held);
    forall a
      ensures Unlocked(a, lessons, xp, scores, connected) <==>
              (a == FirstLesson && c1) || (a == Level5 && c2) || (a == PerfectQuiz && c3) ||
              (a == WalletConnected && c4) || (a == AllLessons && c5)
    {
    }
  }

  /** The tokens a list of achievements is worth. */
  function RewardSum(ids: seq<AchievementId>): nat
  {
    if ids == [] then 0 else RewardSum(ids[..|ids| - 1]) + AchievementTokens(ids[|ids| - 1])
  }

  lemma {:induction false} RewardSumAppend(s: seq<AchievementId>, t: seq<AchievementId>)
    ensures RewardSum(s + t) == RewardSum(s) + RewardSum(t)
  {
    if t != [] {
      assert (s + t)[..|s + t| - 1] == s + t[..|t| - 1];
      RewardSumAppend(s, t[..|t| - 1]);
    } else {
      assert s + t == s;
    }
  }

  /** Awarding keeps the achievement list free of duplicates. */
  lemma AwardKeepsUnique(lessons: seq<int>, xp: nat, scores: seq<real>, connected: bool, held: seq<AchievementId>)
    requires NoDuplicates(held)
    ensures NoDuplicates(held + NewAchievements(lessons, xp, scores, connected, held))
  {
    NewAchievementsSpec(lessons, xp, scores, connected, held);
    AppendNoDuplicates(held, NewAchievements(lessons, xp, scores, connected, held));
  }

  /** Evaluating again with nothing changed except the awarded ids finds nothing. */
  lemma AwardIdempotent(lessons: seq<int>, xp: nat, scores: seq<real>, connected: bool, held: seq<AchievementId>)
    ensures var found := NewAchievements(lessons, xp, scores, connected, held);
            NewAchievements(lessons, xp, scores, connected, held + found) == []
  {
    var found := NewAchievements(lessons, xp, scores, connected, held);
    var again := NewAchievements(lessons, xp, scores, connected, held + found);
    NewAchievementsSpec(lessons, xp, scores, connected, held);
    NewAchievementsSpec(lessons, xp, scores, connected, held + found);
    assert forall a :: a !in again;
  }

  /** The perfect-quiz condition, stated without `max`: some quiz reached 100%. */
  lemma PerfectQuizUnlocked(lessons: seq<int>, xp: nat, scores: seq<real>, connected: bool)
    ensures Unlocked(PerfectQuiz, lessons, xp, scores, connected) <==>
            exists i :: 0 <= i < |scores| && scores[i] >= 100.0
  {
    if |scores| > 0 {
      MaxAtLeast(scores, 100.0);
    }
  }

  /** Every condition except the wallet's survives more lessons, more XP and
      more quiz scores, so an achievement earned stays deserved. */
  lemma UnlockedStable(a: AchievementId, lessons: seq<int>, xp: nat, scores: seq<real>,
                       lessons': seq<int>, xp': nat, scores': seq<real>)
    requires a != WalletConnected
    requires |lessons| <= |lessons'| && xp <= xp' && scores <= scores'
    requires Unlocked(a, lessons, xp, scores, false)
    ensures Unlocked(a, lessons', xp', scores', false)
  {
    match a
    case Level5 => LevelMonotone(xp, xp');
    case PerfectQuiz =>
      var i :| 0 <= i < |scores| && scores[i] >= 100.0 by { PerfectQuizUnlocked(lessons, xp, scores, false); }
      assert scores'[i] == scores[i];
      PerfectQuizUnlocked(lessons', xp', scores', false);
    case _ =>
  }

  // ---------------------------------------------------------------------
  // Lessons

  /** The complete button of a lesson is shown when the lesson is not yet
      completed and is unlocked: its id is at most the current level, or it is
      the first lesson. */
  predicate LessonOffered(id: int, lessons: seq<int>, xp: nat)
  {
    id !in lessons && (id <= Level(xp) || id == 1)
  }

  /** Lesson `k` unlocks at the XP that opens level `k`: 200 XP for lesson 2,
      500 for 3, 1000 for 4, 1800 for 5. */
  lemma LessonUnlocksAt(id: int, lessons: seq<int>, xp: nat)
    requires IsLessonId(id)
    ensures LessonOffered(id, lessons, xp) <==> id !in lessons && xp >= MinXp(id)
  {
    LevelReached(xp, id);
  }

  // ---------------------------------------------------------------------
  // Quiz reward

  function BaseTokens(d: Difficulty): nat
  {
    match d
    case Beginner => 20
    case Intermediate => 30
    case Advanced => 50
  }

  /** The bonus multiplier for a final score in percent. */
  function Multiplier(score: real): real
  {
    if score >= 90.0 then 2.0
    else if score >= 75.0 then 1.5
    else if score >= 50.0 then 1.0
    else 0.5
  }

  /** `int(base * multiplier)`, the tokens a finished quiz earns. */
  function QuizTokens(d: Difficulty, score: real): nat
  {
    var t := (BaseTokens(d) as real * Multiplier(score)).Floor;
    if t < 0 then 0 else t
  }

  /** `tokens // 2`, the XP a finished quiz earns. */
  function QuizXp(d: Difficulty, score: real): nat
  {
    QuizTokens(d, score) / 2
  }

  /** The truncation of `int(...)` never drops a fraction: the award is exactly
      base times multiplier, between half and twice the base. */
  lemma QuizTokensExact(d: Difficulty, score: real)
    ensures QuizTokens(d, score) as real == BaseTokens(d) as real * Multiplier(score)
    ensures BaseTokens(d) / 2 <= QuizTokens(d, score) <= 2 * BaseTokens(d)
  {
  }

  /** A better score never earns less. */
  lemma QuizTokensMonotone(d: Difficulty, s1: real, s2: real)
    requires s1 <= s2
    ensures QuizTokens(d, s1) <= QuizTokens(d, s2)
  {
  }

  /** The tier a quiz of `n` questions with `correct` right answers falls in,
      as integer comparisons. */
  lemma QuizTiers(d: Difficulty, correct: nat, n: nat)
    requires n >= 1
    ensures 100 * correct >= 90 * n ==> QuizTokens(d, Percent(correct, n)) == 2 * BaseTokens(d)
    ensures 90 * n > 100 * correct >= 75 * n ==> 2 * QuizTokens(d, Percent(correct, n)) == 3 * BaseTokens(d)
    ensures 75 * n > 100 * correct >= 50 * n ==> QuizTokens(d, Percent(correct, n)) == BaseTokens(d)
    ensures 50 * n > 100 * correct ==> 2 * QuizTokens(d, Percent(correct, n)) == BaseTokens(d)
  {
    PercentAtLeast(correct, n, 90);
    PercentAtLeast(correct, n, 75);
    PercentAtLeast(correct, n, 50);
  }

  /** The setup screen advertises 20-40, 30-60 and 50-100 tokens; the award is
      inside that range exactly when the score is at least 50%. */
  lemma AdvertisedRange(d: Difficulty, score: real)
    ensures BaseTokens(d) <= QuizTokens(d, score) <= 2 * BaseTokens(d) <==> score >= 50.0
  {
  }

  // ---------------------------------------------------------------------
  // Question provider

  /** Python's `str.isspace` characters, the ones `strip()` removes. */
  predicate IsSpace(c: char)
  {
    ('\U{0009}' <= c <= '\U{000D}') || ('\U{001C}' <= c <= '\U{001F}') || c == ' ' ||
    c == '\U{0085}' || c == '\U{00A0}' || c == '\U{1680}' || ('\U{2000}' <= c <= '\U{200A}') ||
    c == '\U{2028}' || c == '\U{2029}' || c == '\U{202F}' || c == '\U{205F}' || c == '\U{3000}'
  }

  /** Every character of `t` is whitespace. */
  predicate AllSpace(t: string)
  {
    forall k :: 0 <= k < |t| ==> IsSpace(t[k])
  }

  lemma SpaceAt(t: string, i: int)
    ensures AllSpace(t) && 0 <= i < |t| ==> IsSpace(t[i])
  {
  }

  /** The number of whitespace characters `s` starts with. */
  function LeadingSpace(s: string): (n: nat)
    ensures n <= |s| && AllSpace(s[..n]) && (n == |s| || !IsSpace(s[n]))
  {
    if |s| > 0 && IsSpace(s[0]) then
      var n := 1 + LeadingSpace(s[1..]);
      assert s[..n] == [s[0]] + s[1..][..n - 1];
      n
    else 0
  }

  /** The number of whitespace characters `s` ends with. */
  function TrailingSpace(s: string): (t: nat)
    ensures t <= |s| && AllSpace(s[|s| - t..]) && (t == |s| || !IsSpace(s[|s| - 1 - t]))
  {
    if |s| > 0 && IsSpace(s[|s| - 1]) then
      var t := 1 + TrailingSpace(s[..|s| - 1]);
      assert s[|s| - t..] == s[..|s| - 1][|s| - t..] + [s[|s| - 1]];
      t
    else 0
  }

  /** Unless `s` is all whitespace, its leading and trailing whitespace do not
      meet. */
  lemma SpaceRunsDisjoint(s: string)
    ensures LeadingSpace(s) < |s| ==> LeadingSpace(s) + TrailingSpace(s) < |s|
  {
    var n, t := LeadingSpace(s), TrailingSpace(s);
    if n < |s| {
      SpaceAt(s[|s| - t..], n - (|s| - t));
    }
  }

  /** `s.strip()`: the slice of `s` between its leading and trailing
      whitespace. It has whitespace at neither end, it starts right after the
      leading whitespace, and only whitespace follows it. */
  function Strip(s: string): (r: string)
    ensures r == [] || (!IsSpace(r[0]) && !IsSpace(r[|r| - 1]))
    ensures LeadingSpace(s) + |r| <= |s| && r == s[LeadingSpace(s)..LeadingSpace(s) + |r|]
    ensures AllSpace(s[LeadingSpace(s) + |r|..])
  {
    var n := LeadingSpace(s);
    if n == |s| then []
    else
      SpaceRunsDisjoint(s);
      s[n..|s| - TrailingSpace(s)]
  }

  /** `strip()` leaves a string unchanged exactly when it neither starts nor
      ends with whitespace. */
  lemma StripTrimmed(s: string)
    ensures Strip(s) == s <==> s == [] || (!IsSpace(s[0]) && !IsSpace(s[|s| - 1]))
  {
    if s != [] && !IsSpace(s[0]) && !IsSpace(s[|s| - 1]) {
      assert LeadingSpace(s) == 0 && TrailingSpace(s) == 0;
    }
  }

  /** The code-fence cleanup applied to the model's reply: a reply starting
      with ```json loses its first 7 and last 3 characters
      (`content[7:-3]`), else one starting with ``` loses its first and last 3
      (`content[3:-3]`); Python's slice is empty when they overlap. */
  function StripFences(content: string): (r: string)
    ensures "```json" <= content ==>
            if |content| >= 10 then content == "```json" + r + content[|content| - 3..] else r == []
    ensures !("```json" <= content) && "```" <= content ==>
            if |content| >= 6 then content == "```" + r + content[|content| - 3..] else r == []
    ensures !("```" <= content) ==> r == content
  {
    if "```json" <= content then
      (if |content| >= 10 then content[7..|content| - 3] else [])
    else if "```" <= content then
      (if |content| >= 6 then content[3..|content| - 3] else [])
    else content
  }

  /** Fencing a body as a json block and cleaning it gives the body back. */
  lemma StripJsonFence(body: string)
    ensures StripFences("```json" + body + "```") == body
  {
    var c := "```json" + body + "```";
    assert c[..7] == "```json";
    assert c[7..|c| - 3] == body;
  }

  /** A plain fence is removed too, when the body does not itself begin with "json". */
  lemma StripPlainFence(body: string)
    requires !("json" <= body)
    ensures StripFences("```" + body + "```") == body
  {
    var c := "```" + body + "```";
    assert c[..3] == "```";
    assert !("```json" <= c) by {
      if |body| >= 4 {
        assert c[3..7] == body[..4];
      } else {
        assert c[3 + |body|] == '`';
      }
    }
    assert c[3..|c| - 3] == body;
  }

  function Q(text: string, options: seq<string>, correct: int, explanation: string): Question
  {
    Question(text, options, correct, explanation)
  }

  /** The static question bank, one list per topic. */
  const QuestionBank: map<string, seq<Question>> := map[
    "Blockchain Fundamentals" := [
      Q("What is the primary benefit of blockchain's decentralized nature?",
        ["A) Faster transactions", "B) No single point of failure", "C) Lower costs", "D) Better graphics"], 1,
        "Decentralization eliminates single points of failure, making the system more resilient."),
      Q("What makes blockchain records immutable?",
        ["A) Cryptographic hashing", "B) Government regulation", "C) High costs", "D) Slow processing"], 0,
        "Cryptographic hashing creates unique fingerprints that make tampering detectable.")],
    "CrossFi Platform" := [
      Q("What makes CrossFi unique among blockchain platforms?",
        ["A) Only supports Bitcoin", "B) Combines Cosmos and EVM", "C) Centralized system", "D) No smart contracts"], 1,
        "CrossFi uniquely combines Cosmos SDK and EVM for maximum compatibility."),
      Q("CrossFi is primarily designed to bridge what two worlds?",
        ["A) Gaming and NFTs", "B) Traditional finance and crypto", "C) Social media platforms", "D) Cloud computing"], 1,
        "CrossFi focuses on bridging traditional financial systems with cryptocurrency.")],
    "DeFi" := [
      Q("What does AMM stand for in DeFi?",
        ["A) Automatic Money Maker", "B) Automated Market Maker", "C) Advanced Monetary Method", "D) Asset Management Module"], 1,
        "Automated Market Makers enable decentralized trading without traditional order books.")]
  ]

  const DefaultTopic := "CrossFi Platform"

  /** `question_bank.get(topic, question_bank['CrossFi Platform'])`. */
  function FallbackQuestions(topic: string): (qs: seq<Question>)
    ensures WellFormedBank(qs)
    ensures topic !in QuestionBank ==> qs == QuestionBank[DefaultTopic]
  {
    if topic in QuestionBank then QuestionBank[topic] else QuestionBank[DefaultTopic]
  }

  /** The topics the quiz setup screen offers. */
  const SelectableTopics := ["Blockchain Fundamentals", "CrossFi Platform", "Cosmos SDK & EVM", "DeFi Concepts", "Smart Contract Development"]

  /** Of the selectable topics only the first has a bank of its own; the others
      fall back to the CrossFi Platform bank, and the DeFi bank is never used. */
  lemma SelectableTopicBanks(i: nat)
    requires i < |SelectableTopics|
    ensures FallbackQuestions(SelectableTopics[i]) ==
            if i == 0 then QuestionBank["Blockchain Fundamentals"] else QuestionBank[DefaultTopic]
    ensures FallbackQuestions(SelectableTopics[i]) != QuestionBank["DeFi"]
  {
    assert QuestionBank.Keys == {"Blockchain Fundamentals", "CrossFi Platform", "DeFi"};
  }

  /** What asking the model for questions came to. `NoClient`: no API key
      configured. `CallFailed`: the call raised. `Reply(content)`: the text of
      the model's answer. */
  datatype Generation = NoClient | CallFailed | Reply(content: string)

  /** What `json.loads` of the cleaned reply gave: `None` when it raised, else
      the value under 'questions' if the object has that key. */
  type JsonParse = string -> Option<Option<seq<Question>>>

  /** `generate_quiz_questions`: the model's questions when its reply parses
      and carries a 'questions' list, the topic's fallback bank otherwise. */
  function GenerateQuizQuestions(topic: string, g: Generation, parse: JsonParse): seq<Question>
  {
    match g
    case NoClient => FallbackQuestions(topic)
    case CallFailed => FallbackQuestions(topic)
    case Reply(content) =>
      match parse(StripFences(Strip(content)))
      case None => FallbackQuestions(topic)
      case Some(None) => FallbackQuestions(topic)
      case Some(Some(qs)) => qs
  }

  /** The reply's questions are used without any checking: when the cleaned
      reply parses to an object with a 'questions' list, that list is the
      quiz, well formed or not; in every other case the topic's fallback bank
      is, which is well formed. */
  lemma GeneratedQuestions(topic: string, g: Generation, parse: JsonParse)
    ensures g.Reply? && parse(StripFences(Strip(g.content))).Some? &&
            parse(StripFences(Strip(g.content))).value.Some? ==>
            GenerateQuizQuestions(topic, g, parse) == parse(StripFences(Strip(g.content))).value.value
    ensures !(g.Reply? && parse(StripFences(Strip(g.content))).Some? &&
              parse(StripFences(Strip(g.content))).value.Some?) ==>
            GenerateQuizQuestions(topic, g, parse) == FallbackQuestions(topic) &&
            WellFormedBank(GenerateQuizQuestions(topic, g, parse))
  {
    var fallback := FallbackQuestions(topic);
    if g.Reply? {
      var cleaned := StripFences(Strip(g.content));
      match parse(cleaned)
      case None =>
      case Some(None) =>
      case Some(Some(qs)) =>
    }
  }

  // ---------------------------------------------------------------------
  // Invariant of the user record

  /** Lessons are catalogue ids, each completed once; each achievement is held
      once, the streak one never; every achievement held, except the wallet
      one, is still deserved; quiz scores are percentages. */
  predicate Consistent(lessons: seq<int>, xp: nat, held: seq<AchievementId>, scores: seq<real>)
  {
    NoDuplicates(lessons) &&
    (forall i :: 0 <= i < |lessons| ==> IsLessonId(lessons[i])) &&
    NoDuplicates(held) &&
    (forall i :: 0 <= i < |held| && held[i] != WalletConnected ==> Unlocked(held[i], lessons, xp, scores, false)) &&
    (forall i :: 0 <= i < |scores| ==> 0.0 <= scores[i] <= 100.0)
  }

  /** Awarding what the evaluator finds keeps the record consistent. */
  lemma AwardKeepsConsistent(lessons: seq<int>, xp: nat, held: seq<AchievementId>, scores: seq<real>, connected: bool)
    requires Consistent(lessons, xp, held, scores)
    ensures Consistent(lessons, xp, held + NewAchievements(lessons, xp, scores, connected, held), scores)
  {
    var found := NewAchievements(lessons, xp, scores, connected, held);
    NewAchievementsSpec(lessons, xp, scores, connected, held);
    AwardKeepsUnique(lessons, xp, scores, connected, held);
    var held' := held + found;
    forall i | 0 <= i < |held'| && held'[i] != WalletConnected
      ensures Unlocked(held'[i], lessons, xp, scores, false)
    {
      if i >= |held| {
        assert held'[i] == found[i - |held|];
        assert held'[i] in found;
      }
    }
  }

  /** Completing a new catalogue lesson and gaining XP keeps the record consistent. */
  lemma LessonKeepsConsistent(lessons: seq<int>, xp: nat, held: seq<AchievementId>, scores: seq<real>, id: int, gain: nat)
    requires Consistent(lessons, xp, held, scores)
    requires IsLessonId(id) && id !in lessons
    ensures Consistent(lessons + [id], xp + gain, held, scores)
  {
    AppendNoDuplicates(lessons, [id]);
    forall i | 0 <= i < |held| && held[i] != WalletConnected
      ensures Unlocked(held[i], lessons + [id], xp + gain, scores, false)
    {
      UnlockedStable(held[i], lessons, xp, scores, lessons + [id], xp + gain, scores);
    }
  }

  /** Recording a quiz percentage and gaining XP keeps the record consistent. */
  lemma QuizKeepsConsistent(lessons: seq<int>, xp: nat, held: seq<AchievementId>, scores: seq<real>, p: real, gain: nat)
    requires Consistent(lessons, xp, held, scores)
    requires 0.0 <= p <= 100.0
    ensures Consistent(lessons, xp + gain, held, scores + [p])
  {
    forall i | 0 <= i < |held| && held[i] != WalletConnected
      ensures Unlocked(held[i], lessons, xp + gain, scores + [p], false)
    {
      UnlockedStable(held[i], lessons, xp, scores, lessons, xp + gain, scores + [p]);
    }
  }

  /** In a consistent record, the "all lessons" test (`len(completed) >=
      len(LESSON_CONTENT)`) holds exactly when every catalogue lesson is completed. */
  lemma AllLessonsMeansEveryLesson(lessons: seq<int>, xp: nat, held: seq<AchievementId>, scores: seq<real>)
    requires Consistent(lessons, xp, held, scores)
    ensures |lessons| >= LessonCount <==> forall id :: IsLessonId(id) ==> id in lessons
  {
    var done := set x | x in lessons;
    var all := {1, 2, 3, 4, 5};
    assert |all| == 5;
    DistinctCard(lessons);
    assert done <= all;
    if |lessons| >= LessonCount {
      SubsetCard(done, all);
    } else {
      if forall id :: IsLessonId(id) ==> id in lessons {
        assert all <= done;
        SubsetCard(all, done);
      }
    }
  }

  // ---------------------------------------------------------------------
  // Session state

  /** The `user_data` record of a session. */
  class UserData {
    var xp: nat
    var tokens: nat
    var completedLessons: seq<int>
    var achievements: seq<AchievementId>
    var quizScores: seq<real>
    var totalStudyTime: nat

    ghost predicate Valid()
      reads this
    {
      Consistent(completedLessons, xp, achievements, quizScores)
    }

    constructor ()
      ensures Valid()
      ensures xp == 0 && tokens == 0 && completedLessons == [] && achievements == []
      ensures quizScores == [] && totalStudyTime == 0
    {
      xp, tokens, completedLessons, achievements, quizScores, totalStudyTime := 0, 0, [], [], [], 0;
    }
  }

  datatype WalletProvider = MetaMask | Keplr | CrossFiWallet

  /** The network name each connect button records. */
  function NetworkOf(p: WalletProvider): string
  {
    match p
    case MetaMask => "CrossFi Testnet"
    case Keplr => "Cosmos Hub"
    case CrossFiWallet => "CrossFi Native"
  }

  /** The `wallet` record of a session. */
  class Wallet {
    var connected: bool
    var address: string
    var network: string

    constructor ()
      ensures !connected && address == "" && network == ""
    {
      connected, address, network := false, "", "";
    }

    /** A connect button: the wallet becomes connected with the given address
        and the provider's network, then achievements are evaluated. */
    method Connect(provider: WalletProvider, addr: string, user: UserData)
      requires !connected && user.Valid()
      modifies this, user
      ensures connected && address == addr && network == NetworkOf(provider)
      ensures user.Valid()
      ensures user.achievements == old(user.achievements) +
              NewAchievements(user.completedLessons, user.xp, user.quizScores, true, old(user.achievements))
      ensures user.tokens == old(user.tokens) +
              RewardSum(NewAchievements(user.completedLessons, user.xp, user.quizScores, true, old(user.achievements)))
      ensures user.xp == old(user.xp) && user.completedLessons == old(user.completedLessons)
      ensures user.quizScores == old(user.quizScores) && user.totalStudyTime == old(user.totalStudyTime)
    {
      connected, address, network := true, addr, NetworkOf(provider);
      CheckAndAwardAchievements(user, this);
    }

    /** The disconnect button restores the default wallet record; achievements
        already earned are kept. */
    method Disconnect()
      requires connected
      modifies this
      ensures !connected && address == "" && network == ""
    {
      connected, address, network := false, "", "";
    }

    /** The claim button, shown only with the wallet connected and tokens
        available: every available token is claimed and nothing else of the
        user record changes. */
    method Claim(user: UserData) returns (claimed: nat)
      modifies user
      ensures claimed == if connected && old(user.tokens) > 0 then old(user.tokens) else 0
      ensures user.tokens == old(user.tokens) - claimed
      ensures user.xp == old(user.xp) && user.completedLessons == old(user.completedLessons)
      ensures user.achievements == old(user.achievements) && user.quizScores == old(user.quizScores)
      ensures user.totalStudyTime == old(user.totalStudyTime)
    {
      claimed := 0;
      if connected && user.tokens > 0 {
        claimed := user.tokens;
        user.tokens := 0;
      }
    }
  }

  /** The award loop of `check_and_award_achievements`: each id of `found`
      is appended in turn and its tokens added; nothing else changes. */
  method Award(user: UserData, found: seq<AchievementId>)
    modifies user
    ensures user.achievements == old(user.achievements) + found
    ensures user.tokens == old(user.tokens) + RewardSum(found)
    ensures user.xp == old(user.xp) && user.completedLessons == old(user.completedLessons)
    ensures user.quizScores == old(user.quizScores) && user.totalStudyTime == old(user.totalStudyTime)
  {
    for i := 0 to |found|
      invariant user.achievements == old(user.achievements) + found[..i]
      invariant user.tokens == old(user.tokens) + RewardSum(found[..i])
      invariant user.xp == old(user.xp) && user.completedLessons == old(user.completedLessons)
      invariant user.quizScores == old(user.quizScores) && user.totalStudyTime == old(user.totalStudyTime)
    {
      assert found[..i + 1][..i] == found[..i];
      user.achievements := user.achievements + [found[i]];
      user.tokens := user.tokens + AchievementTokens(found[i]);
    }
    assert found[..|found|] == found;
  }

  /** `check_and_award_achievements`: every newly unlocked id is appended and
      its tokens added; nothing else changes. */
  method CheckAndAwardAchievements(user: UserData, wallet: Wallet)
    requires user.Valid()
    modifies user
    ensures user.Valid()
    ensures user.achievements == old(user.achievements) +
            NewAchievements(user.completedLessons, user.xp, user.quizScores, wallet.connected, old(user.achievements))
    ensures user.tokens == old(user.tokens) +
            RewardSum(NewAchievements(user.completedLessons, user.xp, user.quizScores, wallet.connected, old(user.achievements)))
    ensures user.xp == old(user.xp) && user.completedLessons == old(user.completedLessons)
    ensures user.quizScores == old(user.quizScores) && user.totalStudyTime == old(user.totalStudyTime)
  {
    var newAchievements := NewAchievements(user.completedLessons, user.xp, user.quizScores, wallet.connected, user.achievements);
    AwardKeepsConsistent(user.completedLessons, user.xp, user.achievements, user.quizScores, wallet.connected);
    Award(user, newAchievements);
  }

  /** The complete button of `render_lesson`: when offered, the lesson is
      recorded, its XP, tokens and minutes are added, and achievements are
      evaluated on the updated record; otherwise nothing happens. */
  method CompleteLesson(user: UserData, wallet: Wallet, id: int) returns (ok: bool)
    requires IsLessonId(id) && user.Valid()
    modifies user
    ensures user.Valid()
    ensures ok == LessonOffered(id, old(user.completedLessons), old(user.xp))
    ensures !ok ==> user.xp == old(user.xp) && user.tokens == old(user.tokens) &&
                    user.completedLessons == old(user.completedLessons) &&
                    user.achievements == old(user.achievements) && user.totalStudyTime == old(user.totalStudyTime)
    ensures ok ==> user.completedLessons == old(user.completedLessons) + [id] &&
                   user.xp == old(user.xp) + LessonContent(id).xpReward &&
                   user.totalStudyTime == old(user.totalStudyTime) + LessonContent(id).duration &&
                   user.achievements == old(user.achievements) +
                     NewAchievements(user.completedLessons, user.xp, user.quizScores, wallet.connected, old(user.achievements)) &&
                   user.tokens == old(user.tokens) + LessonContent(id).tokenReward +
                     RewardSum(NewAchievements(user.completedLessons, user.xp, user.quizScores, wallet.connected, old(user.achievements)))
    ensures user.quizScores == old(user.quizScores)
  {
    ok := LessonOffered(id, user.completedLessons, user.xp);
    if ok {
      var lesson := LessonContent(id);
      LessonKeepsConsistent(user.completedLessons, user.xp, user.achievements, user.quizScores, id, lesson.xpReward);
      user.completedLessons := user.completedLessons + [id];
      user.xp := user.xp + lesson.xpReward;
      user.tokens := user.tokens + lesson.tokenReward;
      user.totalStudyTime := user.totalStudyTime + lesson.duration;
      CheckAndAwardAchievements(user, wallet);
    }
  }

  /** The `quiz_state` record of a session. `difficulty` is `None` when the
      record lacks that key (before the first quiz and after a reset). */
  class QuizState {
    var active: bool
    var questions: seq<Question>
    var currentQ: nat
    var score: nat
    var topic: string
    var difficulty: Option<Difficulty>

    /** The counters never pass each other or the end of the quiz. */
    ghost predicate Valid()
      reads this
    {
      score <= currentQ <= |questions| && (active ==> difficulty.Some?)
    }

    constructor ()
      ensures Valid() && !active && questions == [] && currentQ == 0 && score == 0
      ensures topic == "" && difficulty == None
    {
      active, questions, currentQ, score, topic, difficulty := false, [], 0, 0, "", None;
    }

    /** The start button of the setup screen. */
    method Start(t: string, d: Difficulty, qs: seq<Question>)
      requires Valid() && !active
      modifies this
      ensures Valid() && active && questions == qs && currentQ == 0 && score == 0
      ensures topic == t && difficulty == Some(d)
    {
      active, questions, currentQ, score, topic, difficulty := true, qs, 0, 0, t, Some(d);
    }

    /** The submit button while a question is shown: one more question is
        answered, and the score goes up exactly when the chosen option is the
        correct one. */
    method Submit(selected: nat) returns (isCorrect: bool)
      requires Valid() && active && currentQ < |questions|
      requires selected < |questions[currentQ].options|
      modifies this
      ensures Valid()
      ensures isCorrect <==> selected == old(questions[currentQ]).correct
      ensures currentQ == old(currentQ) + 1
      ensures score == old(score) + (if isCorrect then 1 else 0)
      ensures active && questions == old(questions) && topic == old(topic) && difficulty == old(difficulty)
    {
      isCorrect := selected == questions[currentQ].correct;
      if isCorrect {
        score := score + 1;
      }
      currentQ := currentQ + 1;
    }

    /** The skip button: the question is passed with no point. */
    method Skip()
      requires Valid() && active && currentQ < |questions|
      modifies this
      ensures Valid()
      ensures currentQ == old(currentQ) + 1 && score == old(score)
      ensures active && questions == old(questions) && topic == old(topic) && difficulty == old(difficulty)
    {
      currentQ := currentQ + 1;
    }

    /** The completion screen's award: the percent score picks the multiplier,
        tokens and half as much XP are added, the score is recorded and
        achievements are evaluated. The quiz record itself is not touched, so
        every time the completion screen is rendered again this award is
        granted again. */
    method Finish(user: UserData, wallet: Wallet) returns (tokensEarned: nat, xpEarned: nat)
      requires Valid() && active && currentQ == |questions| && |questions| >= 1
      requires user.Valid()
      modifies user
      ensures user.Valid()
      ensures tokensEarned == QuizTokens(difficulty.value, Percent(score, |questions|))
      ensures xpEarned == QuizXp(difficulty.value, Percent(score, |questions|)) && xpEarned == tokensEarned / 2
      ensures user.quizScores == old(user.quizScores) + [Percent(score, |questions|)]
      ensures user.xp == old(user.xp) + xpEarned
      ensures user.achievements == old(user.achievements) +
              NewAchievements(user.completedLessons, user.xp, user.quizScores, wallet.connected, old(user.achievements))
      ensures user.tokens == old(user.tokens) + tokensEarned +
              RewardSum(NewAchievements(user.completedLessons, user.xp, user.quizScores, wallet.connected, old(user.achievements)))
      ensures user.completedLessons == old(user.completedLessons) && user.totalStudyTime == old(user.totalStudyTime)
    {
      var finalScore := Percent(score, |questions|);
      tokensEarned := QuizTokens(difficulty.value, finalScore);
      xpEarned := tokensEarned / 2;
      PercentRange(score, |questions|);
      QuizKeepsConsistent(user.completedLessons, user.xp, user.achievements, user.quizScores, finalScore, xpEarned);
      user.tokens := user.tokens + tokensEarned;
      user.xp := user.xp + xpEarned;
      user.quizScores := user.quizScores + [finalScore];
      CheckAndAwardAchievements(user, wallet);
    }

    /** The "take another quiz" button of the completion screen. */
    method Reset()
      requires Valid() && active && currentQ == |questions| && |questions| >= 1
      modifies this
      ensures Valid() && !active && questions == [] && currentQ == 0 && score == 0
      ensures topic == "" && difficulty == None
    {
      active, questions, currentQ, score, topic, difficulty := false, [], 0, 0, "", None;
    }
  }
}
