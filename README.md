# Keyboard playground and quiz grader, modelled in Dafny

Two of the three browser exercises in this repository hold logic that can be
stated and checked, and this project models both.

- **Keyboard playground** (`exercise2/script.js`). The page keeps a rolling text
  buffer and the position, rotation, scale and colour of one box. Its `keydown`
  handler updates them one key at a time:
  - letters are appended in upper case, and the buffer keeps only its last 20;
  - Backspace removes the last letter;
  - the digits 1 to 9 paint the box from a fixed colour table;
  - the arrow keys move the box vertically or rotate it;
  - `=`/`+` and `-` grow and shrink it within a clamp;
  - space resets everything.

  `playground.dfy` (module `Playground`) gives the handler's meaning as the
  pure function `Step` over a `Box` value. The class `KeyboardPlayground`
  holds the page's module-level variables as fields. Its `HandleKey` method
  runs the handler's branches in order, updates those fields in place, and is
  proved to agree with `Step`. The lemmas state what each key does, which keys
  undo each other, and the invariant every reachable state keeps: at most 20
  upper-case letters, a scale between 0.5 and 2, and X always 0.
- **Quiz grader** (`exercise3/js/script.js`). `checkAnswers` trims and
  lower-cases two answers and gives 10 points for each one found among the
  accepted answers. `displayResults` shows "<score> / 20 points" and one of
  three feedback tiers. `quiz.dfy` (module `Quiz`) models these as pure
  functions. Its lemmas show that `Trim` finds the unique core of a string
  with no whitespace at either end (inner spaces stay). From that they derive that grading ignores case and surrounding
  whitespace, and they give each question's credit as an if-and-only-if over
  the raw answer. They also prove that the score and the tier follow from which
  questions were answered, and that the score text's number reads back as the
  score.

The box scale is kept in integer tenths: 10 stands for 1.0, and the clamp is
[5, 20]. The box colour is `None` until the handler first writes an inline
background, because the script never sets one at load time.

## Model

| member | source | states |
|---|---|---|
| Playground.KeyboardPlayground.constructor | exercise2/script.js:2-6 | the page starts with empty text, the box at (0, 0), scale 1, rotation 0 and no inline colour, and this state satisfies the invariant |
| Playground.KeyboardPlayground.HandleKey | exercise2/script.js:51-137 | one keydown updates the fields exactly as `Step` prescribes, and a valid state stays valid |
| Playground.KeyboardPlayground.EditText | exercise2/script.js:61-79 | the letter and Backspace tests update the text as the handler's text stage prescribes |
| Playground.KeyboardPlayground.Restyle | exercise2/script.js:82-107 | the colour-table and arrow tests update colour, Y and rotation as the handler's style stage prescribes |
| Playground.KeyboardPlayground.Rescale | exercise2/script.js:110-119 | the scale tests update the scale as the handler's scale stage prescribes |
| Playground.KeyboardPlayground.ResetOnSpace | exercise2/script.js:122-131 | space resets every field, any other key leaves them alone |
| Playground.HandleIsStep | exercise2/script.js:60-136 | the handler's tests, applied one after another, never fire twice for one key, so the handler equals a dispatch from the key's class (letter, Backspace, digit, arrow, scale key, space, other) to a single action |
| Playground.QuietStages | exercise2/script.js:81-136 | a key that is not in the colour table, not an arrow, not a scale key and not space passes through the colour, arrow, scale and reset tests unchanged |
| Playground.IsLetterKey | exercise2/script.js:61 | a key counts as a letter when its value is one character and that character is an ASCII letter |
| Playground.UpperOf | exercise2/script.js:62 | the letter appended is upper case: an upper-case letter is kept, a lower-case one is shifted down by 32 code points to its capital |
| Playground.Classify | exercise2/script.js:60-136 | exactly the letter keys append, always their upper-case form; exactly the colour table's keys paint, with that key's colour; exactly space resets |
| Playground.Apply | exercise2/script.js:61-131 | the effect of each action on the state, one branch of the handler each; `ApplyInv` proves every action keeps the invariant |
| Playground.Step | exercise2/script.js:51-137 | one keydown: the action the key is classified as, applied to the state; `HandleIsStep` proves the handler as written equals it |
| Playground.TextStage | exercise2/script.js:61-79 | the letter test, then the Backspace test on the updated text, as written; tied to `Step` by `HandleIsStep` |
| Playground.StyleStage | exercise2/script.js:82-107 | the colour-table test, then the four arrow tests, as written; tied to `Step` by `HandleIsStep` |
| Playground.ScaleStage | exercise2/script.js:110-119 | the `=`/`+` test, then the `-` test, as written; tied to `Step` by `HandleIsStep` |
| Playground.ResetStage | exercise2/script.js:122-131 | the space test, as written; tied to `Step` by `HandleIsStep` |
| Playground.Handle | exercise2/script.js:60-136 | the four stages in source order; `HandleIsStep` proves it equals `Step` |
| Playground.Run | exercise2/script.js:51-137 | the state after a sequence of keydowns, handled in order; `RunInv` proves the invariant over it |
| Playground.InitialInv | exercise2/script.js:2-6 | the load-time state satisfies the invariant (buffer of at most 20 upper-case letters, scale within [0.5, 2], X zero) |
| Playground.KeepLast | exercise2/script.js:63-65 | the buffer after an append is the last min(20, n) characters of the appended text |
| Playground.StepInv | exercise2/script.js:61-127 | every key keeps the invariant: text length at most 20, only A-Z, scale within [0.5, 2], X zero |
| Playground.RunInv | exercise2/script.js:51-137 | after any sequence of keys from a valid state the invariant still holds and X is 0 |
| Playground.ReachableInv | exercise2/script.js:2-6 | every state reachable from page load satisfies the invariant, in particular the scale bounds |
| Playground.LetterKey | exercise2/script.js:61-65 | a letter key appends its upper-case form; when 20 letters were already there the oldest is dropped; nothing else changes |
| Playground.BackspaceKey | exercise2/script.js:73-75 | Backspace on non-empty text removes exactly its last character and changes nothing else; on empty text it changes nothing |
| Playground.BackspaceUndoesLetter | exercise2/script.js:61-75 | Backspace after a letter typed into a buffer that was not full restores the previous state |
| Playground.ArrowKeys | exercise2/script.js:88-106 | ArrowUp/ArrowDown change Y by -10/+10, ArrowLeft/ArrowRight change rotation by -15/+15, nothing else changes |
| Playground.ArrowsCancel | exercise2/script.js:88-106 | each arrow key is undone by the opposite arrow |
| Playground.ScaleKeys | exercise2/script.js:110-119 | `=` and `+` act alike and raise the scale by 0.1 up to 2; `-` lowers it by 0.1 down to 0.5; only the scale changes |
| Playground.ScaleKeysCancel | exercise2/script.js:110-119 | below the cap `-` undoes `+`, above the floor `+` undoes `-` |
| Playground.SpaceKey | exercise2/script.js:122-131 | space yields empty text, X and Y 0, scale 1, rotation 0 and colour #9b59b6 whatever the previous state, and pressing it twice equals pressing it once |
| Playground.ColourKeys | exercise2/script.js:17-27 | the colour table's keys are exactly the digits 1 to 9 |
| Playground.DigitKey | exercise2/script.js:82-84 | a digit 1 to 9 sets the colour from the table (1 red #e74c3c ... 9 brown #795548) and changes nothing else |
| Playground.OtherKey | exercise2/script.js:51-137 | a key that matches no branch leaves the state unchanged |
| Playground.ZeroAndShiftIgnored | exercise2/script.js:82-84 | the keys `0` and `Shift` leave the state unchanged |
| Quiz.LeadingWhitespace | exercise3/js/script.js:25 | the count of characters trimmed at the front covers only whitespace and stops at the first non-whitespace character |
| Quiz.TrailingWhitespace | exercise3/js/script.js:25 | the count of characters trimmed at the back covers only whitespace and stops at the last non-whitespace character |
| Quiz.Trim | exercise3/js/script.js:25 | the trimmed answer neither starts nor ends with whitespace and is no longer than the input |
| Quiz.LeadIsWhitespace | exercise3/js/script.js:25 | everything trimmed from the front is whitespace |
| Quiz.TrailIsWhitespace | exercise3/js/script.js:25 | everything trimmed from the back is whitespace |
| Quiz.TrimIsSlice | exercise3/js/script.js:25 | the trimmed answer is the slice of the input between its leading and its trailing whitespace |
| Quiz.TrimSplit | exercise3/js/script.js:25 | every string is leading whitespace, then its trim, then trailing whitespace |
| Quiz.LeadingSkips | exercise3/js/script.js:25 | whitespace put in front of a string is all trimmed, together with the string's own leading whitespace |
| Quiz.TrailingSkips | exercise3/js/script.js:25 | whitespace put after a string is all trimmed, together with the string's own trailing whitespace |
| Quiz.TrimUnique | exercise3/js/script.js:25-26 | trimming any whitespace-padded string whose core has no whitespace at either end gives back that core |
| Quiz.TrimFixed | exercise3/js/script.js:25-26 | a string is its own trim iff neither end is whitespace |
| Quiz.TrimIdempotent | exercise3/js/script.js:25-26 | trimming twice equals trimming once |
| Quiz.LowerChar | exercise3/js/script.js:25-26 | a lower-cased character is never an ASCII capital; it differs from the input exactly when the input is A-Z, and then it is the input plus 32 |
| Quiz.ToLower | exercise3/js/script.js:25-26 | lower-casing keeps the length, leaves no ASCII capital, changes exactly the A-Z characters, and turns each of them into its small letter |
| Quiz.ToLowerIdempotent | exercise3/js/script.js:25-26 | lower-casing twice equals lower-casing once |
| Quiz.Normalize | exercise3/js/script.js:25-26 | the compared form of an answer is no longer than the answer, has no whitespace at either end and holds no ASCII capital |
| Quiz.TrimToLower | exercise3/js/script.js:25-26 | trimming and lower-casing commute |
| Quiz.NormalizeIgnoresCase | exercise3/js/script.js:25-26 | answers equal up to ASCII case normalise to the same string |
| Quiz.NormalizeIgnoresPadding | exercise3/js/script.js:25-26 | surrounding whitespace does not change an answer's normal form |
| Quiz.NormalizeIdempotent | exercise3/js/script.js:25-26 | normalising a normalised answer changes nothing |
| Quiz.CreditedIsPadded | exercise3/js/script.js:25-38 | a credited answer is some accepted answer, in some ASCII case, with whitespace around it |
| Quiz.PaddedIsCredited | exercise3/js/script.js:25-38 | an accepted answer in any ASCII case, with any whitespace around it, is credited |
| Quiz.CreditedIff | exercise3/js/script.js:25-38 | against a set of trimmed accepted answers, an answer is credited iff it is some accepted answer in any ASCII case with any whitespace around it |
| Quiz.Q1Correct | exercise3/js/script.js:25-31 | question 1's test on the normalised answer; `Q1CreditIff` characterises it over the raw answer |
| Quiz.Q2Correct | exercise3/js/script.js:26-38 | question 2's test on the normalised answer; `Q2CreditIff` characterises it over the raw answer |
| Quiz.Q1CreditIff | exercise3/js/script.js:29-31 | question 1 earns its points iff the answer is "javascript" or "js" in any case, padded by any whitespace |
| Quiz.Q2CreditIff | exercise3/js/script.js:34-38 | question 2 earns its points iff the answer is "cascading style sheets", "cascading stylesheets" or "cascading style sheet" in any case, padded by any whitespace |
| Quiz.Score | exercise3/js/script.js:24-38 | the score is 0, 10 or 20: 20 iff both answers are accepted, 10 iff exactly one is, 0 iff neither |
| Quiz.ScoreIgnoresCaseAndPadding | exercise3/js/script.js:25-38 | answers that differ only in ASCII case and surrounding whitespace get the same score, each answer padded independently of the other |
| Quiz.TierOf | exercise3/js/script.js:49-61 | the tier is Perfect iff the score is 20, GoodJob iff it is at least 10 and not 20, KeepStudying iff it is below 10 |
| Quiz.FeedbackText | exercise3/js/script.js:50-58 | the feedback line of each tier; `FeedbackIdentifiesTier` proves the three are distinct |
| Quiz.EmojiText | exercise3/js/script.js:51-59 | the emoji of each tier; `FeedbackIdentifiesTier` proves the three are distinct |
| Quiz.FeedbackIdentifiesTier | exercise3/js/script.js:49-61 | two tiers get the same feedback line, or the same emoji, exactly when they are the same tier |
| Quiz.NatToDecimal | exercise3/js/script.js:46 | a score's decimal text is a non-empty string of digits without a leading zero that reads back as the score |
| Quiz.ScoreText | exercise3/js/script.js:46 | the score text ends in " / 20 points" and what precedes it is digits, without a leading zero, that read back as the score |
| Quiz.TwoDigitDecimal | exercise3/js/script.js:46 | a score from 10 to 99 is written as its tens digit followed by its units digit |
| Quiz.ScoreTextZero | exercise3/js/script.js:46 | the score 0 is shown as "0 / 20 points" |
| Quiz.ScoreTextTen | exercise3/js/script.js:46 | the score 10 is shown as "10 / 20 points" |
| Quiz.ScoreTextTwenty | exercise3/js/script.js:46 | the score 20 is shown as "20 / 20 points" |
| Quiz.DisplayResults | exercise3/js/script.js:45-61 | the panel shows the score's text; the tier is Perfect iff the score is 20, GoodJob iff at least 10 and not 20, KeepStudying below 10; feedback and emoji are the tier's |
| Quiz.CheckAnswers | exercise3/js/script.js:23-61 | the score is `Score` of the two answers; the tier is Perfect iff both answers are accepted, GoodJob iff exactly one is, KeepStudying iff neither; the text is "20 / 20 points", "10 / 20 points" or "0 / 20 points" under exactly the same three conditions; feedback and emoji are the tier's |
| Quiz.PerfectExample | exercise3/js/script.js:23-52 | " JavaScript " and "Cascading Style Sheets" get the Perfect tier |
| Quiz.GoodJobExample | exercise3/js/script.js:23-46 | "JS" and "css" are shown as "10 / 20 points" |
| Quiz.KeepStudyingExample | exercise3/js/script.js:23-61 | "java" and an empty answer get "Keep studying! Try again." |

## Left out

- `exercise1/js/script.js`: the scroll-driven page is configuration of an external animation library plus a timer-driven restart animation. Its progress value comes from that library. Its code has no scroll-geometry progress computation, no per-card visibility or submersion flag and no throttle, so none is modelled.
- Playground.KeyboardPlayground.HandleKey: DOM writes are not modelled. These are the text display and its font-size formula (`exercise2/script.js:66-67`), the current-key display (line 58), the transform strings with their `toFixed` formatting, the event log with its timestamps (`log`/`clearLog`), focus handling and `preventDefault`. None of them feeds back into the state.
- Playground.ScaleKeys: the scale is an integer count of tenths. The source adds and subtracts the float 0.1, so its intermediate values carry binary rounding (for example 1.2000000000000002). Only the clamped bounds and the step of one tenth are modelled.
- Playground.Classify: the colour lookup uses only the table's nine own entries. A JavaScript object lookup would also find inherited property names such as `constructor`, but no keyboard key value has such a name.
- Playground.IsLetterKey: a key is a sequence of Unicode code points. JavaScript's `key.length` counts UTF-16 units. The two agree on every key the letter branch accepts, which are single ASCII letters.
- Quiz.LowerChar: lower-casing covers ASCII A-Z only, while `toLowerCase` also maps other letters. The grading can differ only for non-ASCII letters that lower-case to an ASCII letter of an accepted answer. The Kelvin sign lower-cases to `k`, and no accepted answer contains `k`.
- Quiz.DisplayResults: the result panel's background colour and its `show` class are not modelled. Scores are natural numbers, because `displayResults` is only called with `checkAnswers`' score.
- The submit-button and Enter-key listeners (`exercise3/js/script.js:11-20`) are event wiring. `CheckAnswers` is what they call.
