# Password strength checker, modelled in Dafny

This project models the checking core of `NewPythonProject/app.py`, a small
password strength checker, and proves properties of it. The core is made of
five pieces:

- **Character classes** (`CharClasses`, `Scan`). These are the predicates `islower`,
  `isupper` and `isdigit`, membership in `string.punctuation`, the `ord(c) > 127`
  test, and `str.lower`. The two scans the checker relies on are here too:
  `any(p(c) for c in s)` and the substring test `pat in text`.
- **Entropy** (`Entropy`). `calculate_entropy` sums a fixed contribution per
  character class present: 26, 26, 10, 32 and 100. It then multiplies the
  password length by `log2` of that sum.
- **Crack time** (`CrackTime`). `estimate_crack_time` assumes a guess rate of
  one billion per second. It turns the expected number of seconds into seconds,
  minutes, hours, days, months (30 days), years (365 days), thousands of years or
  "Millions of years", truncating the count each time.
- **Scoring** (`Scorer`). `check_password_strength` runs seven checks in a fixed
  order: length tier, lower case, upper case, digits, punctuation, common
  pattern and repeated character. Each check adds or subtracts points and
  reports one feedback line. The code then picks a category (Weak, Medium or
  Strong) from the unclamped score, and the returned score is clamped to
  [0, 100]. An empty password gives `None`.
- **Generation and breach lookup** (`Generator`, `Breach`).
  - `generate_password` concatenates the selected class alphabets and draws
    `length` symbols. It gives `None` when no class is selected.
  - `check_common_breach` looks the lower-cased password up, as a whole, in a
    fixed list of 25 passwords.

Floating-point library calls and randomness are not modelled. Each one is a
function parameter instead:

- `log2: nat -> real` stands for `math.log2`.
- `pow2: real -> real` stands for `2 ** x`.
- `oracle: nat -> nat` supplies the draws of `secrets.choice`. Its `k`-th value,
  reduced modulo the alphabet size, is the index of the `k`-th character.

Two behaviours need a closer look:

- **The category uses the unclamped score.** The code classifies the score
  before clamping it. `Scorer.CategoryAgreesWithClampedScore` proves that this
  always gives the category of the score actually returned.
- **A new class can lower the score.** Appending a character of a class the
  password lacks can still cost points:
  - `"ab"` scores 30.
  - `"abC"` scores 20, because lower-casing it produces the pattern `"abc"`.

  `Scenarios.NewClassCanLowerScore` proves both scores.
  `Scorer.NewClassRaisesScore` proves the rule that does hold: a new class that
  creates no new pattern and no new run adds at least 10 points.
  `Scorer.ExtensionLowersScoreOnlyThroughNewPenalty` proves that a penalty is
  the only way an extension can lower the score.

The modules are `Wrappers`, `CharClasses`, `Scan`, `Entropy`, `CrackTime`,
`Scorer`, `Generator`, `Breach` and `Scenarios`. `Scenarios` holds worked
examples on concrete passwords.

## Model

| member | source | states |
|---|---|---|
| `CharClasses.LowerChar` | NewPythonProject/app.py:123 | Lowering one character never leaves an upper-case letter. It changes exactly the upper-case letters. The result is a lower-case letter exactly when the input was a letter of either case. |
| `CharClasses.ToLower` | NewPythonProject/app.py:123 | `str.lower` keeps the length and lowers every position independently. |
| `CharClasses.ToLowerIdempotent` | NewPythonProject/app.py:123 | Lower-casing an already lower-cased password changes nothing. |
| `CharClasses.ToLowerConcat` | NewPythonProject/app.py:123 | Lower-casing distributes over concatenation. |
| `CharClasses.ToLowerFixesNonUpper` | NewPythonProject/app.py:197 | A text with no upper-case letter is its own lower-case form. |
| `CharClasses.LowerCharMapsUppercaseOntoLowercase` | NewPythonProject/app.py:123 | The `k`-th upper-case letter lowers to the `k`-th lower-case letter. |
| `CharClasses.LowercaseMatchesClass` | NewPythonProject/app.py:171-172 | A character is in `string.ascii_lowercase` exactly when `islower` holds of it. |
| `CharClasses.UppercaseMatchesClass` | NewPythonProject/app.py:173-174 | A character is in `string.ascii_uppercase` exactly when `isupper` holds of it. |
| `CharClasses.DigitsMatchClass` | NewPythonProject/app.py:175-176 | A character is in `string.digits` exactly when `isdigit` holds of it. |
| `CharClasses.PunctuationMatchesClass` | NewPythonProject/app.py:177-178 | The literal `string.punctuation` holds exactly the characters of the four symbol ranges that the class test uses. |
| `CharClasses.AlphabetsCoverPrintableAscii` | NewPythonProject/app.py:170-178 | The four alphabets together cover exactly the printable ASCII range from `!` to `~`. Punctuation overlaps no other class. |
| `CharClasses.IsLower` | NewPythonProject/app.py:86 | `c.islower()` on ASCII is the range `a`..`z`. No lower-case letter is upper case, a digit, a symbol or an extended character. |
| `CharClasses.IsUpper` | NewPythonProject/app.py:95 | `c.isupper()` on ASCII is the range `A`..`Z`. No upper-case letter is a digit, a symbol or an extended character. |
| `CharClasses.IsDigit` | NewPythonProject/app.py:104 | `c.isdigit()` on ASCII is the range `0`..`9`. No digit is a symbol or an extended character. |
| `CharClasses.IsPunctuation` | NewPythonProject/app.py:113 | `c in string.punctuation` holds only of printable ASCII characters other than the space. |
| `CharClasses.IsNonAscii` | NewPythonProject/app.py:27 | An extended character, `ord(c) > 127`, is never in `string.punctuation`. |
| `Scan.Any` | NewPythonProject/app.py:19-28 | `any(p(c) for c in s)` holds exactly when some position of `s` satisfies `p`. |
| `Scan.AnySameCharacters` | NewPythonProject/app.py:19-28 | `any` depends only on which characters occur, not on their order or count. |
| `Scan.AnyConcat` | NewPythonProject/app.py:19-28 | `any` over a concatenation is the disjunction over its parts. |
| `Scan.Contains` | NewPythonProject/app.py:123 | `pat in text` holds exactly when `pat` occurs as a contiguous block at some index of `text`. |
| `Scan.ContainsExtended` | NewPythonProject/app.py:123 | An occurrence survives appending text at the end. |
| `Entropy.Profile` | NewPythonProject/app.py:19-28 | Each of the five class flags is set exactly when some character of that class occurs. |
| `Entropy.Weight` | NewPythonProject/app.py:17-28 | The five class contributions add up to at most 194. The sum is 0 exactly when no class is present, and it is at least 100 exactly when an extended character is. |
| `Entropy.CharsetSize` | NewPythonProject/app.py:17-31 | The alphabet size is 26 if some character is lower case, plus 26 if some is upper case, plus 10 for a digit, 32 for a symbol and 100 for an extended character. So it is at most 194, and it is 0 exactly when every character is in none of the five classes. |
| `Entropy.EntropyBits` | NewPythonProject/app.py:15-34 | The entropy is 0 without consulting `log2` when no class is present, and in particular for the empty password. |
| `Entropy.Bits` | NewPythonProject/app.py:30-33 | `length * log2(size)` is 0 for an empty alphabet or an empty password. It is never negative when `log2(size)` is not. |
| `Entropy.ProfileDependsOnlyOnCharacters` | NewPythonProject/app.py:17-28 | Two passwords with the same set of characters have the same profile and alphabet size. |
| `Entropy.ProfileOfConcat` | NewPythonProject/app.py:17-28 | The profile of a concatenation is the class-wise disjunction of the profiles of its parts. |
| `Entropy.WeightMonotone` | NewPythonProject/app.py:17-28 | A profile with more classes present has at least the alphabet size of one with fewer. |
| `Entropy.CharsetSizeGrowsWithText` | NewPythonProject/app.py:17-28 | Appending or prepending text never shrinks the alphabet size. |
| `Entropy.EntropyGrowsWithText` | NewPythonProject/app.py:33 | With a non-negative, monotone logarithm, appending characters never lowers the entropy estimate. |
| `Entropy.BitsGrow` | NewPythonProject/app.py:30-33 | `length * log2(size)`, with 0 for size 0, grows with both the length and the size. |
| `Entropy.AlphanumericProfile` | NewPythonProject/app.py:25-28 | A password of letters and digits never counts as having punctuation or extended characters. |
| `Entropy.OnlyUnclassifiedGivesZeroEntropy` | NewPythonProject/app.py:30-31 | A password made only of unclassified characters, such as spaces, has entropy 0. |
| `CrackTime.Ladder` | NewPythonProject/app.py:43-62 | Each rung is chosen for exactly one interval of seconds. "Less than a second" is below 1 s. Seconds run from 1 s to 60 s, minutes up to 3600 s, hours up to 86400 s, days up to 2592000 s, and months up to 31536000 s. Years run up to 1001 years of seconds and thousands of years up to 1,000,001 years. "Millions of years" covers everything from there on. |
| `CrackTime.LadderTruncates` | NewPythonProject/app.py:43-62 | Every reported count `n` is at least 1. `n` units fit into the seconds and `n + 1` do not, so the count is the truncated quotient in the chosen unit. |
| `CrackTime.LadderTruncatesBelowAnHour` | NewPythonProject/app.py:45-48 | The truncation property for the seconds and minutes rungs. |
| `CrackTime.LadderTruncatesHoursAndDays` | NewPythonProject/app.py:49-52 | The truncation property for the hours and days rungs. |
| `CrackTime.LadderTruncatesMonths` | NewPythonProject/app.py:53-54 | The truncation property for the 30-day months rung. |
| `CrackTime.LadderTruncatesYears` | NewPythonProject/app.py:55-62 | The truncation property for years and for thousands of years. For thousands of years the unit is 1000 years. |
| `CrackTime.LadderMonotone` | NewPythonProject/app.py:43-62 | More seconds never give a finer unit, and within a unit never a smaller count. |
| `CrackTime.EstimateCrackTimeAsWritten` | NewPythonProject/app.py:36-62 | The code as written raises `OverflowError` exactly for an entropy of 1024 bits or more. |
| `CrackTime.EstimateCrackTime` | NewPythonProject/app.py:36-62 | The corrected estimate never fails. It answers "Millions of years" for every entropy the float power cannot handle. |
| `CrackTime.CorrectedAgreesWhereDefined` | NewPythonProject/app.py:36-62 | Wherever the code as written returns an estimate, the corrected estimate returns the same one. |
| `CrackTime.CorrectedMatchesExactLadder` | NewPythonProject/app.py:39-41 | With an exact, monotone power function, the corrected estimate is the ladder applied to the exact seconds, for every entropy. |
| `CrackTime.ZeroEntropyCracksInstantly` | NewPythonProject/app.py:40-44 | Entropy 0, which is the result for unclassified passwords, gives "Less than a second". |
| `Scorer.HasCommonPattern` | NewPythonProject/app.py:122-123 | A password carrying a common pattern has at least three characters, and at least one of them is a letter or a digit. |
| `Scorer.PatternStartsWithLetterOrDigit` | NewPythonProject/app.py:122 | Every common pattern has at least three characters and starts with a lower-case letter or a digit. |
| `Scorer.HasRun` | NewPythonProject/app.py:132 | `re.search(r'(.)\1{2,}', s)` finds a match exactly when some position starts three equal characters that are not newlines. |
| `Scorer.FactsOf` | NewPythonProject/app.py:74-137 | Each fact the checks use holds exactly when its condition holds of the password. The facts are the length, the four class flags, a common pattern in the lower-cased text, and a run. |
| `Scorer.Verdicts` | NewPythonProject/app.py:73-137 | There are exactly seven checks, one feedback line each, in the fixed order: length, lower case, upper case, digits, punctuation, pattern, repetition. |
| `Scorer.Lines` | NewPythonProject/app.py:70-137 | The feedback list has one line per check, in check order. |
| `Scorer.RawScore` | NewPythonProject/app.py:69-137 | For any combination of check outcomes, the running total lies in [-15, 90]. |
| `Scorer.Clamp` | NewPythonProject/app.py:158 | `max(0, min(100, score))` lies in [0, 100] and leaves scores in that range unchanged. |
| `Scorer.Classify` | NewPythonProject/app.py:144-155 | The category is Strong exactly from 75 on, Medium exactly from 50 to 74, and Weak exactly below 50. |
| `Scorer.Analyze` | NewPythonProject/app.py:64-166 | With the corrected crack-time estimate: the result is `None` exactly for the empty password. Otherwise it has seven feedback lines in check order and a score in [0, 100]. Each criteria flag holds exactly when its condition does. The entropy is 0 when no class is present. |
| `Scorer.AnalyzeAsWritten` | NewPythonProject/app.py:64-166 | The function as written raises exactly for a non-empty password whose entropy is 1024 bits or more. Whenever it returns, it returns the same result as the corrected `Scorer.Analyze`. |
| `Scorer.RawScoreMatchesTable` | NewPythonProject/app.py:73-137 | The running total of the seven checks equals the scoring table. The table gives 25, 15 or 0 for length and 10, 10, 10, 15 per class. It gives -10 or +10 for a pattern and -5 or +10 for a run. |
| `Scorer.TopScore` | NewPythonProject/app.py:73-137 | The unclamped score is 90 exactly when every check passes at its best. |
| `Scorer.BottomScore` | NewPythonProject/app.py:73-137 | No password reaches -15. A common pattern brings a letter or a digit with it, so the unclamped score of a password is at least -5. It is exactly -5 for a password under 8 characters that has one class among lower case, upper case and digits, no symbol, a common pattern and a run. |
| `Scorer.StrongCharacterization` | NewPythonProject/app.py:143-145 | A password is Strong exactly when it meets all three conditions: at least 8 characters, no common pattern, and at most one 10-point or one 15-point loss. |
| `Scorer.FactsMonotone` | NewPythonProject/app.py:73-137 | Facts that are better in every check never score lower. Each additional class adds at least 10 points. |
| `Scorer.AnalyzeScore` | NewPythonProject/app.py:157-158 | The returned score lies in [0, 90]. It equals the unclamped score when that score is non-negative, and 0 otherwise. The upper clamp never fires. |
| `Scorer.CategoryAgreesWithClampedScore` | NewPythonProject/app.py:143-158 | Classifying the unclamped score gives the same category as classifying the clamped one. |
| `Scorer.AnalysisCategoryMatchesScore` | NewPythonProject/app.py:143-158 | The category of an analysis is the one its own returned score falls in: 75 and up, 50 and up, or below. |
| `Scorer.FeedbackTagsMatchFacts` | NewPythonProject/app.py:73-137 | The mark of each check's line agrees with the facts. A satisfied check gets a tick and a missed one gets a cross. The two penalty checks give a warning exactly when the penalty applies. `Scorer.Lines` keeps each line at its check's position in the feedback list. |
| `Scorer.FeedbackTagsMatchCriteria` | NewPythonProject/app.py:75-119 | The first five feedback lines are ticks exactly where the matching criteria flags hold. |
| `Scorer.RunPersists` | NewPythonProject/app.py:131-137 | A run survives any extension of the password. |
| `Scorer.CommonPatternPersists` | NewPythonProject/app.py:121-129 | A common pattern survives any extension of the password. |
| `Scorer.LoweredContainmentPersists` | NewPythonProject/app.py:123 | A substring of the lowered password remains one after appending text. |
| `Scorer.CommonPatternsAreLowercase` | NewPythonProject/app.py:122-123 | Every common pattern is its own lower-case form. |
| `Scorer.CommonPatternSuffix` | NewPythonProject/app.py:121-129 | A password that ends in any casing of a common pattern carries the pattern penalty. |
| `Scorer.ShortPasswordHasNoPattern` | NewPythonProject/app.py:122-123 | Passwords shorter than three characters never carry the pattern penalty. |
| `Scorer.NoRunWithoutThreeInARow` | NewPythonProject/app.py:132 | A password with no three equal characters in a row carries no repetition penalty. |
| `Scorer.ExtensionKeepsClasses` | NewPythonProject/app.py:74-119 | Extending a password keeps its length tier or raises it, and keeps every class it had. |
| `Scorer.ExtensionKeepsPenalties` | NewPythonProject/app.py:121-137 | Extending a password keeps every penalty it had. |
| `Scorer.ExtensionLowersScoreOnlyThroughNewPenalty` | NewPythonProject/app.py:73-137 | An extension lowers the unclamped score only when it creates a new common pattern or a new run. |
| `Scorer.NewClassRaisesScore` | NewPythonProject/app.py:85-137 | Appending a character of a missing class raises the score by at least 10, provided it creates no new pattern or run. |
| `Generator.Alphabet` | NewPythonProject/app.py:170-178 | The size of `charset` is the sum of the selected class sizes, 26, 26, 10 and 32. A character is in it exactly when it belongs to a selected class. |
| `Generator.DrawCount` | NewPythonProject/app.py:183 | `range(length)` makes no draws for a zero or negative length, and `length` draws otherwise. |
| `Generator.Generate` | NewPythonProject/app.py:168-184 | The result is `None` exactly when no class is selected. Otherwise it has `length` characters, none for a negative length, and each belongs to a selected class. |
| `Generator.Draws` | NewPythonProject/app.py:183 | `n` draws give `n` characters, each from the alphabet. |
| `Generator.DrawsReachEveryString` | NewPythonProject/app.py:183 | Every string over a non-empty alphabet is produced by some sequence of draws. |
| `Generator.GenerateReachesEveryString` | NewPythonProject/app.py:168-184 | Every string of the requested length over the selected classes can come out of the generator. |
| `Generator.FullAlphabet` | NewPythonProject/app.py:168-178 | With every class selected, the alphabet is the 94 printable non-space ASCII characters. |
| `Generator.SelectedClass` | NewPythonProject/app.py:170-178 | A selected character reveals its class's flag and is never an extended character. |
| `Generator.SelectedCharsetWithinAlphabet` | NewPythonProject/app.py:170-178 | A password over the selected classes sets only the entropy class flags of selected classes, never the extended-character flag. So its entropy alphabet is no larger than the generator's alphabet. |
| `Generator.GeneratedCharsetWithinAlphabet` | NewPythonProject/app.py:168-184 | The entropy estimate of a generated password counts only classes the generator drew from, and never extended characters. So its alphabet size is at most the generator's. |
| `Generator.SelectedClassMayBeAbsent` | NewPythonProject/app.py:168-184 | A selected class is not guaranteed to appear. With the defaults, one sequence of draws gives sixteen `a`s. |
| `Breach.IsBreached` | NewPythonProject/app.py:186-197 | A reported password has 6 to 9 characters, and its lowered form is lower-case letters and digits. |
| `Breach.BreachListShape` | NewPythonProject/app.py:189-195 | The list has 25 pairwise distinct entries. |
| `Breach.EntriesAreLowerAlphanumeric` | NewPythonProject/app.py:189-195 | Every entry consists of lower-case letters and digits. |
| `Breach.EntriesAreReported` | NewPythonProject/app.py:189-197 | Every entry is already lower case, so every entry is itself reported. |
| `Breach.BreachedExactlyEntries` | NewPythonProject/app.py:189-197 | A password is reported exactly when it lowers, character by character, onto some list entry. So a prefix, an extension or a near miss of an entry is not reported. |
| `Breach.LowerCaseLookedUpAsIs` | NewPythonProject/app.py:197 | A password without capitals is reported exactly when it is itself a list entry. |
| `Breach.BreachIgnoresCase` | NewPythonProject/app.py:197 | Passwords that lower-case alike are reported alike. |
| `Scenarios.BreachExamples` | NewPythonProject/app.py:197 | "Password" and "PASSWORD" are both reported. |
| `Scenarios.NotBreachedExamples` | NewPythonProject/app.py:197 | "mypassword" is not reported, although it contains an entry. A long random password is not reported either. |
| `Scenarios.ExtendedEntryNotBreached` | NewPythonProject/app.py:197 | "dragon1" is not reported, although it extends the entry "dragon". |
| `Scenarios.TruncatedEntryNotBreached` | NewPythonProject/app.py:197 | "passwor" is not reported, although it is a prefix of the entry "password". |
| `Scenarios.RunExamples` | NewPythonProject/app.py:132 | "aaa" and "xaaaay" contain a run. Three newlines do not. |
| `Scenarios.NewClassCanLowerScore` | NewPythonProject/app.py:85-129 | "ab" scores 30 and "abC" scores 20: a new class can lower the score through a new pattern. |
| `Scenarios.PAtSsw0rd123Example` | NewPythonProject/app.py:64-158 | "P@ssw0rd123" has alphabet size 94, score 60 and category Medium. |
| `Scenarios.Aaaa1111Example` | NewPythonProject/app.py:64-158 | "aaaa1111" meets the length criterion but scores 20, Weak, because it has both a pattern and a run. |
| `Scenarios.OneOneOneExample` | NewPythonProject/app.py:64-158 | "111" has an unclamped score of -5, which is returned as 0, with category Weak. |
| `Scenarios.LongPasswordOverflowsAsWritten` | NewPythonProject/app.py:40 | 218 `a`s make the crack-time estimate and `check_password_strength` as written raise. The corrected estimate, and so the corrected analysis, answers "Millions of years". |

## Left out

- The Streamlit user interface (lines 1-13 and 199 onward) is not modelled. Nor are its four tabs (check, generate, compare, export), the session state holding the last generated password, the pandas comparison table, and the text report stamped with `datetime.now()`.
- The `color` and `emoji` fields of the returned dictionary are not modelled. They are presentation only and follow the category.
- The leading marks of the feedback lines (tick, cross, warning sign) are modelled as a `Tag` next to the message text.
- Character classification is ASCII only. Python's `islower`, `isupper`, `isdigit` and `lower` also act on non-ASCII letters and digits, which this model treats as belonging to no letter or digit class. Such characters still count through the `ord(c) > 127` test.
- Floating-point arithmetic is not modelled. `math.log2` and `2 ** x` are function parameters, the seconds are exact reals, and rounding is not modelled.
- Entropy.EntropyBits: the contract only states the zero case. The positive case is `length * log2(size)` through the `log2` parameter, and `Entropy.EntropyGrowsWithText` states its monotonicity.
- Scorer.Analyze: composes the corrected crack-time estimate, so it answers where the code as written raises `OverflowError`, for entropies of 1024 bits or more. `Scorer.AnalyzeAsWritten` models the code as written and agrees with `Scorer.Analyze` wherever that code returns. See "## Findings".
- The crack-time text is returned as a `Duration` value rather than a formatted string.
- The distribution of `secrets.choice` is not modelled. The draws come from a parameter, and the model states only which strings can be produced.
- The types exclude a non-integer `length` for `generate_password`, for which `range(length)` would raise `TypeError`. The four class flags are modelled as booleans. Python tests them by truthiness, so any value is accepted, and a truthy value behaves like `True`.

## Findings

| source | as written | input that shows it | evidently intended | confidence | as-written member | corrected member |
|---|---|---|---|---|---|---|
| NewPythonProject/app.py:40 | `2 ** entropy` is a float power, which raises `OverflowError` once the entropy reaches 1024 bits. `check_password_strength` then fails instead of answering. | 218 lower-case letters, about 1024.7 bits. Any password of 157 or more characters using all four classes also fails. | The estimate answers "Millions of years", as the exact power would. | medium, not executed | `CrackTime.EstimateCrackTimeAsWritten`, `Scorer.AnalyzeAsWritten`, `Scenarios.LongPasswordOverflowsAsWritten` | `CrackTime.EstimateCrackTime`, `CrackTime.CorrectedMatchesExactLadder`, `Scorer.Analyze` |
