# CrossFi Quest progression and rewards engine, in Dafny

CrossFi Quest is a Streamlit learn-to-earn app. Its users complete lessons,
take quizzes and connect a simulated testnet wallet, and they earn XP and XFI
tokens for doing so. The repository holds two versions of the app. Each one
is modelled in its own module:

- `NewCrossFi` (`new_crossfi.dfy`) models `new_crossfi.py`, the later app.
  It has a five-lesson catalogue with a level lock, six achievements, a wallet
  record with a provider and network, quiz rewards scaled by difficulty and
  score, Markdown-fence stripping of generated quiz replies, and a fallback
  question bank keyed by topic.
- `StreamlitApp` (`crossfi_streamlit_app.dfy`) models
  `crossfi_streamlit_app.py`, the earlier app. It has a flat 200-XP level
  curve, five achievements (three of them checked), a wallet flag on the user
  record, a three-tier quiz reward and a fixed three-question fallback quiz.
- `Common` (`common.dfy`) holds what both apps share:
  - the question record and its intended shape;
  - Python's `max` over a list of scores;
  - the exact quiz percentage `(score / n) * 100`.
- `NewCrossFiScenarios` and `StreamlitAppScenarios` (`scenarios.dfy`) drive
  short sessions through the session classes. Each states its outcome as a
  postcondition.

Each app keeps its progress in dictionaries held in session state: the user
record, the quiz record and, in the later app, the wallet record. Button
handlers update them in place. These records are Dafny classes:
`UserData`, `QuizState` and `Wallet`. `UserData` and `QuizState` each have
a `Valid()` invariant. The wallet record needs none, since any combination
of its fields can occur. Each button handler is a method with a `modifies`
clause. Every method that
changes state ties the new state to a pure function of the old state:
- `NewAchievements` is the achievement evaluator;
- `RewardSum` is the sum of achievement rewards;
- `QuizTokens` is the quiz reward;
- `Percent` is the final score.

What the source promises is then proved about those functions as lemmas.

### Decisions that follow the code rather than the prose description

- The "all lessons" achievement tests `len(completed) >= len(LESSON_CONTENT)`,
  not equality. `AllLessonsMeansEveryLesson` proves that, because completed
  lessons are distinct catalogue ids, this holds exactly when every lesson is
  done.
- The fallback banks of the later app hold 2, 2 and 1 questions, not three or
  four.
- Generated question lists are used as parsed, not validated. A generated
  list can be empty. The later app then divides by zero on the results
  screen; see `Finish` under "Left out".
- The final score is the unrounded `(score / n) * 100`. It is rounded to a
  whole percent (`:.0f`) only for display.
- The results screen awards its tokens, XP and score every time it is
  rendered. The quiz record is not changed until "Take Another Quiz", so a
  rerun before that awards again. `NewCrossFiScenarios.RerenderAwardsAgain`
  shows that a second render of any finished quiz grants the same reward again. Achievements
  are not granted twice (`AwardIdempotent`).
- The later app's "DeFi" fallback bank is keyed `'DeFi'`. The topic
  selector offers `"DeFi Concepts"` instead, so that bank can never be
  reached. `SelectableTopicBanks` proves that every selectable topic gets a
  well-formed bank.
- The later app's "Take Another Quiz" replaces the quiz record with one that
  has no `difficulty` key. The model therefore keeps the difficulty as an
  `Option`.
- Neither app ever updates the stored `level` field. The level is always
  recomputed from XP.

## Model

| member | source | states |
|---|---|---|
| Common.Max | new_crossfi.py:424 | Python's `max` of a non-empty score list is one of its entries and no entry exceeds it |
| Common.MaxAtLeast | new_crossfi.py:424 | `max(scores) >= t` holds exactly when some score reaches `t` |
| Common.MaxEquals | crossfi_streamlit_app.py:181 | when no score exceeds `t`, `max(scores) == t` holds exactly when some score equals `t` |
| Common.PercentAtLeast | new_crossfi.py:701 | testing the final score `(score / n) * 100` against a threshold `t` is the integer test `100 * score >= t * n` |
| Common.PercentRange | crossfi_streamlit_app.py:402 | with at most `n` right answers the final score lies in 0..100, and is 100 exactly when every answer is right |
| NewCrossFi.Level | new_crossfi.py:403-410 | every XP total maps to a level between 1 and 50 |
| NewCrossFi.LevelReached | new_crossfi.py:403-410 | level `k` is reached exactly at the XP thresholds 0, 200, 500, 1000, 1800, then every 500 above 3000 |
| NewCrossFi.LevelMonotone | new_crossfi.py:403-410 | more XP never gives a lower level |
| NewCrossFi.LevelLandmarks | new_crossfi.py:403-410 | level 5 covers 1800..3499 XP, level 5 or above starts at 1800 XP, and the cap of 50 starts at 25500 XP |
| NewCrossFi.NewAchievementsSpec | new_crossfi.py:412-431 | the evaluator lists no id twice, and lists an id exactly when it is not already held and its unlock condition holds |
| NewCrossFi.RewardSumAppend | new_crossfi.py:433-437 | the reward of two award lists in sequence is the sum of their rewards |
| NewCrossFi.AwardKeepsUnique | new_crossfi.py:418-437 | appending the evaluator's result to a duplicate-free achievement list keeps it duplicate-free |
| NewCrossFi.AwardIdempotent | new_crossfi.py:412-437 | evaluating again straight after an award finds nothing new |
| NewCrossFi.PerfectQuizUnlocked | new_crossfi.py:424 | perfect quiz unlocks exactly when some recorded score is at least 100 |
| NewCrossFi.UnlockedStable | new_crossfi.py:418-431 | once unlocked, every achievement but "wallet connected" stays unlocked as lessons, XP and scores grow |
| NewCrossFi.LessonUnlocksAt | new_crossfi.py:574-589 | a lesson offers its Complete button exactly when it is not done and the user's XP reaches the level-`id` threshold (lesson 1 always) |
| NewCrossFi.QuizTokensExact | new_crossfi.py:716-732 | the truncated reward equals base times multiplier exactly, between half the base and twice the base |
| NewCrossFi.QuizTokensMonotone | new_crossfi.py:719-732 | a higher score never earns fewer tokens at the same difficulty |
| NewCrossFi.QuizTiers | new_crossfi.py:701-736 | with `c` of `n` right, the reward is 2x base when `100c >= 90n`, 1.5x when `>= 75n`, 1x when `>= 50n`, else half |
| NewCrossFi.AdvertisedRange | new_crossfi.py:634-635 | the award lies in the advertised range `[base, 2*base]` exactly when the score is at least 50% |
| NewCrossFi.LeadingSpace | new_crossfi.py:346 | counts exactly the whitespace characters a string starts with: all before the count are whitespace and the next character is not |
| NewCrossFi.TrailingSpace | new_crossfi.py:346 | counts exactly the whitespace characters a string ends with: all after the cut are whitespace and the character before it is not |
| NewCrossFi.SpaceRunsDisjoint | new_crossfi.py:346 | unless a string is all whitespace, its leading and trailing whitespace runs do not overlap |
| NewCrossFi.Strip | new_crossfi.py:346 | `strip()` keeps a slice with whitespace at neither end; it starts right after the leading whitespace, and only whitespace follows it, so only whitespace is removed |
| NewCrossFi.StripTrimmed | new_crossfi.py:346 | `strip()` leaves a string unchanged exactly when it neither starts nor ends with whitespace |
| NewCrossFi.StripFences | new_crossfi.py:348-351 | a reply starting with a json fence loses its first 7 and last 3 characters, one with a plain fence its first and last 3, and any other reply is kept |
| NewCrossFi.StripJsonFence | new_crossfi.py:348-349 | a reply `json fence + body + closing fence` yields exactly `body` |
| NewCrossFi.StripPlainFence | new_crossfi.py:350-351 | a reply `plain fence + body + closing fence` yields exactly `body` when the body does not begin with `json` |
| NewCrossFi.FallbackQuestions | new_crossfi.py:360-401 | every topic gets a non-empty bank of four-option questions with a valid answer index, and an unknown topic gets the CrossFi Platform bank |
| NewCrossFi.SelectableTopicBanks | new_crossfi.py:619-622 | each of the five selectable topics gets the Blockchain Fundamentals bank (the first topic) or the default CrossFi Platform bank, never the DeFi bank |
| NewCrossFi.GeneratedQuestions | new_crossfi.py:315-358 | when the cleaned reply parses to an object with a 'questions' list, that list is the quiz, unchecked; without a client, on a failed call, on unparsable JSON or without a 'questions' key, the quiz is the topic's well-formed fallback bank |
| NewCrossFi.AwardKeepsConsistent | new_crossfi.py:433-437 | awarding the evaluator's result keeps the user record consistent: distinct catalogue lessons, distinct achievements |
| NewCrossFi.LessonKeepsConsistent | new_crossfi.py:590-595 | completing an offered lesson keeps the user record consistent |
| NewCrossFi.QuizKeepsConsistent | new_crossfi.py:735-740 | recording a quiz result keeps the user record consistent |
| NewCrossFi.AllLessonsMeansEveryLesson | new_crossfi.py:430 | for a consistent record, `len(completed) >= 5` holds exactly when every lesson id has been completed |
| NewCrossFi.UserData.constructor | new_crossfi.py:50-61 | a new user starts with 0 XP, 0 tokens, no lessons, achievements or scores |
| NewCrossFi.Wallet.constructor | new_crossfi.py:62-67 | a new wallet is disconnected with empty address and network |
| NewCrossFi.QuizState.constructor | new_crossfi.py:68-74 | a new quiz record is inactive with no questions and zero counters |
| NewCrossFi.Wallet.Connect | new_crossfi.py:468-503 | connecting records the address and the provider's network, then runs the awarder with the wallet counted as connected; the rest of the user record is unchanged |
| NewCrossFi.Wallet.Disconnect | new_crossfi.py:548-553 | disconnecting clears the connected flag and the address, and leaves the user record alone |
| NewCrossFi.Wallet.Claim | new_crossfi.py:528-545 | a connected wallet with tokens claims all of them and leaves 0; otherwise nothing is claimed and nothing changes |
| NewCrossFi.Award | new_crossfi.py:433-437 | the award loop appends the given ids in order and adds exactly their reward sum to the tokens; nothing else changes |
| NewCrossFi.CheckAndAwardAchievements | new_crossfi.py:412-441 | the achievement list grows by exactly the evaluator's result, tokens grow by its reward sum, and consistency is kept |
| NewCrossFi.CompleteLesson | new_crossfi.py:584-597 | the lesson completes exactly when it is offered, adding its XP, tokens and minutes and then running the awarder; otherwise nothing changes |
| NewCrossFi.QuizState.Start | new_crossfi.py:637-649 | starting activates the quiz on the given topic, difficulty and questions with zero counters |
| NewCrossFi.QuizState.Submit | new_crossfi.py:678-692 | submitting advances the question, and scores one exactly when the chosen index is the correct one |
| NewCrossFi.QuizState.Skip | new_crossfi.py:695-697 | skipping advances the question without scoring |
| NewCrossFi.QuizState.Finish | new_crossfi.py:699-742 | the results screen adds the difficulty-and-score reward in tokens and `QuizXp`, half of it, in XP, records the percent, runs the awarder, and leaves the quiz record unchanged |
| NewCrossFi.QuizState.Reset | new_crossfi.py:747-755 | "Take Another Quiz" clears the quiz record and drops its difficulty |
| StreamlitApp.Level | crossfi_streamlit_app.py:163-165 | every XP total maps to a level between 1 and 50 |
| StreamlitApp.LevelReached | crossfi_streamlit_app.py:163-165 | level `k` is reached exactly at `200 * (k - 1)` XP |
| StreamlitApp.LevelMonotone | crossfi_streamlit_app.py:163-165 | more XP never gives a lower level |
| StreamlitApp.LevelLandmarks | crossfi_streamlit_app.py:163-165 | level 5 or above starts at 800 XP and the cap of 50 starts at 9800 XP |
| StreamlitApp.NewAchievementsSpec | crossfi_streamlit_app.py:167-182 | the evaluator lists no id twice, and lists an id exactly when it is not held and its unlock condition holds |
| StreamlitApp.RewardSumAppend | crossfi_streamlit_app.py:185-187 | the reward of two award lists in sequence is the sum of their rewards |
| StreamlitApp.AwardIdempotent | crossfi_streamlit_app.py:167-190 | checking again straight after an award finds nothing new |
| StreamlitApp.PerfectQuizUnlocked | crossfi_streamlit_app.py:181 | when no score exceeds 100, perfect quiz unlocks exactly when some score equals 100 |
| StreamlitApp.UnlockedStable | crossfi_streamlit_app.py:171-182 | once unlocked, first lesson and level 5 stay unlocked as lessons and XP grow |
| StreamlitApp.AwardKeepsConsistent | crossfi_streamlit_app.py:184-187 | awarding the evaluator's result keeps the user record consistent |
| StreamlitApp.LessonKeepsConsistent | crossfi_streamlit_app.py:310-316 | completing a new catalogue lesson keeps the user record consistent |
| StreamlitApp.QuizKeepsConsistent | crossfi_streamlit_app.py:418-422 | recording a quiz result keeps the user record consistent |
| StreamlitApp.QuizTiers | crossfi_streamlit_app.py:402-416 | with `c` of `n` right, the reward is 30 when `100c >= 80n`, 20 when `>= 60n`, else 10 |
| StreamlitApp.ThreeQuestionRewards | crossfi_streamlit_app.py:402-416 | on the three-question fallback quiz, 3, 2, 1 or 0 right earn 30, 20, 10 and 10 tokens |
| StreamlitApp.QuizTokensMonotone | crossfi_streamlit_app.py:408-416 | a higher score never earns fewer tokens |
| StreamlitApp.FallbackQuizShape | crossfi_streamlit_app.py:139-161 | the fallback quiz has three well-formed questions, answer key B, B, C, and ignores the topic |
| StreamlitApp.GeneratedQuiz | crossfi_streamlit_app.py:102-137 | when the raw reply parses and has a 'questions' list, that list is the quiz, unchecked; without a client, on a failed call or when parsing or the key lookup fails, the quiz is the well-formed fallback quiz |
| StreamlitApp.CountTrueBound | crossfi_streamlit_app.py:374-396 | the number of right answers never exceeds the number answered |
| StreamlitApp.UserData.constructor | crossfi_streamlit_app.py:29-41 | a new user starts with 0 XP, 0 tokens, nothing completed and no wallet |
| StreamlitApp.UserData.Award | crossfi_streamlit_app.py:184-187 | the award loop appends the given ids in order and adds exactly their reward sum to the tokens; nothing else changes |
| StreamlitApp.UserData.CheckAchievements | crossfi_streamlit_app.py:167-190 | returns the evaluator's result, appends it to the achievements and adds its reward sum to the tokens |
| StreamlitApp.UserData.CompleteLesson | crossfi_streamlit_app.py:306-318 | a lesson not yet completed is recorded with its XP and tokens and the awarder runs; a completed one changes nothing |
| StreamlitApp.UserData.ConnectWallet | crossfi_streamlit_app.py:199-203 | connecting sets the wallet flag and address and nothing else |
| StreamlitApp.UserData.ClaimTokens | crossfi_streamlit_app.py:219-242 | with a wallet and tokens, all tokens are claimed and 0 remain; otherwise nothing is claimed and nothing changes |
| StreamlitApp.QuizState.constructor | crossfi_streamlit_app.py:46-52 | a new quiz record has no questions, zero counters and no answers |
| StreamlitApp.QuizState.Start | crossfi_streamlit_app.py:360-368 | starting loads the questions with zero counters and no answers |
| StreamlitApp.QuizState.Submit | crossfi_streamlit_app.py:383-396 | submitting records whether the chosen index is the correct one, scores one exactly then, and advances |
| StreamlitApp.QuizState.Finish | crossfi_streamlit_app.py:400-422 | the results screen adds the three-tier reward to the tokens, records the percent, runs the awarder, and leaves the quiz record unchanged |
| StreamlitApp.QuizState.Reset | crossfi_streamlit_app.py:426-428 | "Take Another Quiz" clears the quiz record |
| NewCrossFiScenarios.FirstLessonScenario | new_crossfi.py:584-597 | a fresh user completing lesson 1 has 100 XP at level 1, 75 tokens and "first lesson"; repeating it or trying lesson 2 fails |
| NewCrossFiScenarios.PerfectQuizScenario | new_crossfi.py:699-742 | a perfect beginner quiz on the default bank earns 40 tokens and 20 XP plus the 100-token perfect-quiz bonus |
| NewCrossFiScenarios.RerenderAwardsAgain | new_crossfi.py:699-742 | rendering the results screen of a finished quiz twice grants the same tokens and XP twice and records its score twice |
| NewCrossFiScenarios.AdvancedQuizScenario | new_crossfi.py:716-736 | three of five right on an advanced quiz earns 50 tokens and 25 XP |
| NewCrossFiScenarios.WalletScenario | new_crossfi.py:468-553 | connecting earns 75 tokens and a claim takes them all; a second claim and a reconnect earn nothing |
| StreamlitAppScenarios.FirstLessonScenario | crossfi_streamlit_app.py:306-318 | lesson 1 gives 50 XP and 30 tokens, a recheck finds nothing, and a claim without a wallet takes nothing |
| StreamlitAppScenarios.FallbackQuizScenario | crossfi_streamlit_app.py:400-422 | on a quiz shaped like the fallback quiz (three well-formed questions, key B, B, C), two of three right earn 20 tokens and no XP, which a connected wallet then claims |

## Left out

- Page rendering is not modelled: layout, CSS, charts, progress bars, toasts,
  balloons, spinners and `st.rerun`. Each button press is one method call.
- The Groq client and `json.loads` are not modelled. Whether a client exists,
  whether the call fails and the reply text are a `Generation` value. JSON
  parsing is a function parameter.
- A parsed question that lacks a key (a `KeyError` in the source) is not
  modelled. Questions are records that always carry every field.
- Randomness is not modelled. Wallet addresses are parameters. The random
  `balance` and its float update on claim (`+= tokens * 0.001`) are left out.
- The leaderboard is left out, because its rows are random demo data. So are
  the profile analytics (average score, total earned, charts).
- Floating-point rounding is not modelled. The final score is an exact
  rational, and the threshold and multiplier comparisons use exact values.
- `time.sleep`, `start_time`, `last_login`, `streak`, `username`, the stored
  `level` field and `ui_state` are left out. They are set or displayed, but
  no engine rule reads them. The streak achievements are therefore never
  unlocked in the model, just as in the source.
- The earlier app's "all beginner" achievement appears in its catalogue, but
  no rule ever checks it, and the model does the same.
- NewCrossFi.QuizState.Finish: requires at least one question. The source
  divides by `len(questions)` at new_crossfi.py:701 and raises
  `ZeroDivisionError` on an empty generated list, so that path is not modelled.
- NewCrossFi.QuizState.Reset: requires at least one question as well. With
  an empty list the source raises before the "Take Another Quiz" button at
  new_crossfi.py:747 is drawn. The quiz then stays active with no questions
  for the rest of the session. The model has no transition out of that state.
- NewCrossFi.QuizState.Submit: takes the chosen option's index directly. The
  source maps the chosen label back with `options.index`, which picks the
  first of two equal labels.
- StreamlitApp.QuizState.Submit: takes the chosen option's index directly, for
  the same reason.
- NewCrossFi.QuizState.Start: takes the question list as already generated.
  Generation is `GenerateQuizQuestions`, proved separately.
- UI-gated actions carry the state their button needs as a `requires`:
  - starting a quiz needs it inactive;
  - submitting and skipping need a current question;
  - finishing needs the last question answered;
  - connecting needs a disconnected wallet;
  - disconnecting needs a connected one.

  The source renders each button only in that state, so no other call can
  happen.
- Concurrency between browser sessions is left out; each session has its
  own state.
