# Swing C-programming quiz: a verified model of the quiz core

This project models the core of a desktop quiz about C programming, written in Java with
Swing. The user picks one of three themes, a question count (1–12) and a time limit
(30–600 seconds). The quiz then draws that many questions of the theme at random from a
fixed catalogue of 36. It shows them one at a time with a countdown, grades each answer
and finally appends one CSV line with the result to a statistics file.

The model is split into modules that follow the Java classes:

- `JavaLang` (`JavaLang.dfy`) models the parts of the Java library the quiz relies on:
  - `String.trim`, the regex class `\s` and `toLowerCase`;
  - `Integer.parseInt` and `String.valueOf`;
  - `String.join`;
  - `Double.parseDouble` for decimal notation;
  - `String.format(Locale.US, "%.2f", x)`.
- `QuestionModel` (`QuestionModel.dfy`, from `Question.java`) holds the question record
  and `Question.normalize`.
- `Catalogue` (`QuestionBank.dfy`, from `QuestionBank.java`) builds the 36 hard-coded
  questions. `getAllQuestions` is a method that extends a sequence question by question,
  as the Java code extends its `ArrayList`. It is proved to yield 12 well-formed
  questions per theme.
- `Session` (`QuizManager.dfy`, from `QuizManager.java`) has a class `QuizManager` whose
  methods update the session fields in place. The filter, the `Collections.shuffle` loop
  and the truncation are proved against the specification function `Selection`.
- `Grading` (`Grading.dfy`, from `QuestionPanel.checkAnswer` and `getUserAnswer`) grades
  and reads back what the widgets hold, and builds the slider.
- `Panel` (`QuestionPanel.dfy`, from `QuestionPanel.java`) has a class `QuestionPanel`.
  Its fields are the widget state. Its methods are the user's clicks and the
  image-click listeners.
- `Stats` (`Stats.dfy`, from `StatsManager.java`) holds `escapeCsv`, the result line
  and the `split(",")` that reads it back.
- `QuizFlow` (`QuizFlow.dfy`, from `MainFrame.java`) has a class `QuizController` for
  the quiz flow: start screen sliders, start, hint, next, Enter, finish, the countdown
  tick and `formatTime`.
- `Wrappers` holds `Option`.

Java `null` is `None`. Instants are integer nanoseconds. Whenever the code reads the
clock (`Instant.now()`, `LocalDateTime.now()`), the model takes the value as a
parameter (`now`, `timestamp`). The random draws of `Collections.shuffle` are a
parameter `draws` holding the `nextInt` results, with `draws[k] < n - k`. Appending to
the statistics file is modelled as the field `statsLog`, the sequence of appended
lines.

Where the code and its documentation disagree, the model follows the code:

- `QuizManager.finish` is not idempotent. Every call overwrites the end time with the
  current instant (`Session.QuizManager.Finish`).
- Starting a quiz on a theme without questions raises no error. It yields an empty
  selection. In the app this cannot happen, because every theme in the combo box has 12
  questions (`Catalogue.ThemeSizes`).
- A NUMERIC question compares the typed number with the first accepted answer only. The
  loop in `checkAnswer` returns on its first iteration (`Grading.NumericCorrect`). Every
  NUMERIC question in the catalogue has exactly one accepted answer, so nothing depends
  on it.
- `formatTime` uses Java's truncating `/` and `%`. A negative time would show as
  `00:-5` (`QuizFlow.FormatTimeNegative`). The countdown stops at zero, so the label
  never shows one.

## Model

| member | source | states |
|---|---|---|
| JavaLang.Trim | src/Question.java:91 | `trim` leaves a text with no blank (code at most U+0020) at either end, and leaves a text that already has none unchanged |
| JavaLang.TrimEmptyIff | src/MainFrame.java:332 | `s.trim().isEmpty()` holds exactly when every char of `s` is blank |
| JavaLang.LowerChar | src/Question.java:91 | a lower-cased char is not upper case, and is a `\s` or blank char exactly when the original is |
| JavaLang.Lower | src/Question.java:91 | `toLowerCase` keeps the length and lower-cases every char in place |
| JavaLang.NatToDigits | src/StatsManager.java:37-41 | the decimal digits of a natural number are non-empty digits whose value is the number, with no leading zero |
| JavaLang.IntToString | src/StatsManager.java:37-41 | `String.valueOf` writes no comma, blank or upper-case letter and ends in a digit |
| JavaLang.ParseInt | src/QuestionPanel.java:104-108 | `Integer.parseInt` accepts only a blank-free text, and what it yields lies within 32 bits |
| JavaLang.ParseIntOfIntToString | src/QuestionPanel.java:204 | `Integer.parseInt` reads back every 32-bit value `String.valueOf` writes |
| JavaLang.ParseDouble | src/QuestionPanel.java:247-248 | `Double.parseDouble` after `trim` rejects a text that is blank once trimmed |
| JavaLang.ParseDoubleOfIntToString | src/QuestionPanel.java:247-248 | `Double.parseDouble` reads back the decimal text of every integer as that integer |
| JavaLang.ParseDoubleOfPoint | src/QuestionPanel.java:247-248 | digits, a point and digits parse as the whole part plus the fraction |
| JavaLang.Hundredths | src/StatsManager.java:39 | `%.2f` rounds to a count of hundredths within half a hundredth of the value |
| JavaLang.FormatFixed2 | src/StatsManager.java:39 | the two-decimal text of a non-negative value holds no comma |
| JavaLang.HundredthsTextValue | src/StatsManager.java:39 | the text of `h` hundredths parses back as `h / 100` |
| JavaLang.FormatFixed2Value | src/StatsManager.java:39 | the `%.2f` text parses back to a value within 0.005 of `x`, a whole number of hundredths |
| QuestionModel.PlainQuestion | src/Question.java:45-55 | the six-argument constructor keeps its six fields and has no image and no correct areas |
| QuestionModel.DropSpaces | src/Question.java:91 | drops exactly the leading run of `\s` chars |
| QuestionModel.CollapseSpaces | src/Question.java:91 | `replaceAll("\\s+", " ")` is empty exactly for the empty text, and keeps a non-space first or last char |
| QuestionModel.NonSpace | src/Question.java:91 | the non-whitespace chars of a text, in order, are no more than the text |
| QuestionModel.DropSpacesNonSpace | src/Question.java:91 | dropping the leading whitespace keeps every other char, in order |
| QuestionModel.CollapseNonSpace | src/Question.java:91 | `replaceAll("\\s+", " ")` keeps every non-whitespace char, in order, and adds none |
| QuestionModel.LowerNonSpace | src/Question.java:91 | lower-casing and then dropping whitespace is dropping whitespace and then lower-casing |
| QuestionModel.CollapseIsSingleSpaced | src/Question.java:91 | after `replaceAll("\\s+", " ")` every whitespace char is a single space followed by a non-space |
| QuestionModel.LowerSingleSpaced | src/Question.java:91 | lower-casing keeps a text single-spaced |
| QuestionModel.Normalize | src/Question.java:88-90 | `normalize(null)` is the empty string |
| QuestionModel.DropSpacesPrefix | src/Question.java:91 | the leading `\s` run of a text that ends in a non-space stays inside it, whatever follows |
| QuestionModel.DropSpacesRun | src/Question.java:91 | a run of `\s` chars in front of a non-space is dropped entirely |
| QuestionModel.CollapseAppend | src/Question.java:91 | `replaceAll("\\s+", " ")` of two texts, the first ending in a non-space, is the two collapses joined |
| QuestionModel.CollapseRun | src/Question.java:91 | every maximal inner run of `\s` chars becomes exactly one space, between the collapses of the two sides |
| QuestionModel.LowerAppend | src/Question.java:91 | `toLowerCase` distributes over concatenation |
| QuestionModel.NormalizeWordBreak | src/Question.java:87-92 | two blank-free words with a run of whitespace between them normalize to the lower-cased words with one space |
| QuestionModel.WordBreakExample | src/Question.java:87-92 | `"int  main"` normalizes to `"int main"` |
| QuestionModel.NormalizeWords | src/Question.java:87-92 | apart from whitespace, `normalize` keeps exactly the chars of the trimmed text, lower-cased and in order |
| QuestionModel.NormalizeForm | src/Question.java:87-92 | a normalized text has no blank at either end, single spaces only and no upper-case letter |
| QuestionModel.LowerNoUpper | src/Question.java:91 | lower-casing a text without upper-case letters changes nothing |
| QuestionModel.CollapseSingleSpaced | src/Question.java:91 | collapsing a single-spaced text changes nothing |
| QuestionModel.NormalizeIdempotent | src/Question.java:87-92 | normalizing twice is normalizing once |
| QuestionModel.NoSpaceSingleSpaced | src/Question.java:91 | a text without whitespace is single-spaced |
| QuestionModel.NormalizeClean | src/Question.java:87-92 | a text with no blank and no upper-case letter is its own normal form |
| QuestionModel.NormalizeExample | src/Question.java:87-92 | `"  A   b\n"` normalizes to `"a b"` |
| QuestionModel.NormalizeTrailingBlank | src/Question.java:87-92 | `"No "` and `"no"` normalize alike, to `"no"` |
| Catalogue.IntLiteral | src/QuestionPanel.java:104-108 | a literal integer option or answer reads back as its value, both as a trimmed option and as a normalized answer |
| Catalogue.SmallLiterals | src/QuestionBank.java:180-192 | the small slider literals are the decimal texts of their values |
| Catalogue.NegativeLiterals | src/QuestionBank.java:98-103 | the negative slider literals are the decimal texts of their values |
| Catalogue.TwelveLiteral | src/QuestionBank.java:278-283 | the literal `"12"` is the decimal text of 12 |
| Catalogue.SliderLiterals | src/QuestionBank.java:91-103 | a slider question whose options are the literals `[lo, hi, d]` with `lo <= d <= hi`, and whose answer is a literal inside the bounds, is well formed |
| Catalogue.Grow | src/QuestionBank.java:21-299 | appending one more well-formed question of the theme keeps the run well formed |
| Catalogue.AddIfs1 | src/QuestionBank.java:24-29 | appends question 1 of theme "ifs loops and operators": a RADIO question with one accepted answer among its options |
| Catalogue.AddIfs2 | src/QuestionBank.java:31-36 | appends question 2 of theme "ifs loops and operators": a CHECKBOX question with a non-empty answer set among its options |
| Catalogue.AddIfs3 | src/QuestionBank.java:38-43 | appends question 3 of theme "ifs loops and operators": a TEXT question with no options and a non-empty answer list |
| Catalogue.AddIfs4 | src/QuestionBank.java:45-50 | appends question 4 of theme "ifs loops and operators": a RADIO question with one accepted answer among its options |
| Catalogue.AddIfs5 | src/QuestionBank.java:52-57 | appends question 5 of theme "ifs loops and operators": a RADIO question with one accepted answer among its options |
| Catalogue.AddIfs6 | src/QuestionBank.java:59-64 | appends question 6 of theme "ifs loops and operators": a TEXT question with no options and a non-empty answer list |
| Catalogue.AddIfs7 | src/QuestionBank.java:66-71 | appends question 7 of theme "ifs loops and operators": a NUMERIC question with no options and a non-empty answer list |
| Catalogue.AddIfs8 | src/QuestionBank.java:73-80 | appends question 8 of theme "ifs loops and operators": an IMAGE_CLICK question with an image and one non-empty correct area, no options or answers |
| Catalogue.AddIfs9 | src/QuestionBank.java:82-89 | appends question 9 of theme "ifs loops and operators": an IMAGE_CLICK question with an image and one non-empty correct area, no options or answers |
| Catalogue.AddIfs10 | src/QuestionBank.java:91-96 | appends question 10 of theme "ifs loops and operators": a SLIDER question with integer bounds and default with the default and the answer inside the bounds |
| Catalogue.AddIfs11 | src/QuestionBank.java:98-103 | appends question 11 of theme "ifs loops and operators": a SLIDER question with integer bounds and default with the default and the answer inside the bounds |
| Catalogue.AddIfs12 | src/QuestionBank.java:105-110 | appends question 12 of theme "ifs loops and operators": a COMBOBOX question with one accepted answer among its options |
| Catalogue.AddStrings1 | src/QuestionBank.java:113-118 | appends question 1 of theme "strings arrays and pointers": a RADIO question with one accepted answer among its options |
| Catalogue.AddStrings2 | src/QuestionBank.java:120-125 | appends question 2 of theme "strings arrays and pointers": a CHECKBOX question with a non-empty answer set among its options |
| Catalogue.AddStrings3 | src/QuestionBank.java:127-132 | appends question 3 of theme "strings arrays and pointers": a NUMERIC question with no options and a non-empty answer list |
| Catalogue.AddStrings4 | src/QuestionBank.java:134-139 | appends question 4 of theme "strings arrays and pointers": a NUMERIC question with no options and a non-empty answer list |
| Catalogue.AddStrings5 | src/QuestionBank.java:141-146 | appends question 5 of theme "strings arrays and pointers": a TEXT question with no options and a non-empty answer list |
| Catalogue.AddStrings6 | src/QuestionBank.java:148-153 | appends question 6 of theme "strings arrays and pointers": a RADIO question with one accepted answer among its options |
| Catalogue.AddStrings7 | src/QuestionBank.java:155-160 | appends question 7 of theme "strings arrays and pointers": a RADIO question with one accepted answer among its options |
| Catalogue.AddStrings8 | src/QuestionBank.java:162-169 | appends question 8 of theme "strings arrays and pointers": an IMAGE_CLICK question with an image and one non-empty correct area, no options or answers |
| Catalogue.AddStrings9 | src/QuestionBank.java:171-178 | appends question 9 of theme "strings arrays and pointers": an IMAGE_CLICK question with an image and one non-empty correct area, no options or answers |
| Catalogue.AddStrings10 | src/QuestionBank.java:180-185 | appends question 10 of theme "strings arrays and pointers": a SLIDER question with integer bounds and default with the default and the answer inside the bounds |
| Catalogue.AddStrings11 | src/QuestionBank.java:187-192 | appends question 11 of theme "strings arrays and pointers": a SLIDER question with integer bounds and default with the default and the answer inside the bounds |
| Catalogue.AddStrings12 | src/QuestionBank.java:194-199 | appends question 12 of theme "strings arrays and pointers": a COMBOBOX question with one accepted answer among its options |
| Catalogue.AddMemory1 | src/QuestionBank.java:202-207 | appends question 1 of theme "functions structs and memory": a RADIO question with one accepted answer among its options |
| Catalogue.AddMemory2 | src/QuestionBank.java:209-214 | appends question 2 of theme "functions structs and memory": a TEXT question with no options and a non-empty answer list |
| Catalogue.AddMemory3 | src/QuestionBank.java:216-221 | appends question 3 of theme "functions structs and memory": a CHECKBOX question with a non-empty answer set among its options |
| Catalogue.AddMemory4 | src/QuestionBank.java:223-228 | appends question 4 of theme "functions structs and memory": a RADIO question with one accepted answer among its options |
| Catalogue.AddMemory5 | src/QuestionBank.java:230-244 | appends question 5 of theme "functions structs and memory": a TEXT question with no options and a non-empty answer list |
| Catalogue.AddMemory6 | src/QuestionBank.java:246-251 | appends question 6 of theme "functions structs and memory": a RADIO question with one accepted answer among its options |
| Catalogue.AddMemory7 | src/QuestionBank.java:253-258 | appends question 7 of theme "functions structs and memory": a TEXT question with no options and a non-empty answer list |
| Catalogue.AddMemory8 | src/QuestionBank.java:260-267 | appends question 8 of theme "functions structs and memory": an IMAGE_CLICK question with an image and one non-empty correct area, no options or answers |
| Catalogue.AddMemory9 | src/QuestionBank.java:269-276 | appends question 9 of theme "functions structs and memory": an IMAGE_CLICK question with an image and one non-empty correct area, no options or answers |
| Catalogue.AddMemory10 | src/QuestionBank.java:278-283 | appends question 10 of theme "functions structs and memory": a SLIDER question with integer bounds and default with the default and the answer inside the bounds |
| Catalogue.AddMemory11 | src/QuestionBank.java:285-290 | appends question 11 of theme "functions structs and memory": a SLIDER question with integer bounds and default with the default and the answer inside the bounds |
| Catalogue.AddMemory12 | src/QuestionBank.java:292-297 | appends question 12 of theme "functions structs and memory": a COMBOBOX question with one accepted answer among its options |
| Catalogue.AddIfsQuestions | src/QuestionBank.java:23-110 | appends the 12 questions of theme "ifs loops and operators", each well formed, leaving the list before them unchanged |
| Catalogue.AddStringsQuestions | src/QuestionBank.java:112-199 | appends the 12 questions of theme "strings arrays and pointers", each well formed, leaving the list before them unchanged |
| Catalogue.AddMemoryQuestions | src/QuestionBank.java:201-297 | appends the 12 questions of theme "functions structs and memory", each well formed, leaving the list before them unchanged |
| Catalogue.GetAllQuestions | src/QuestionBank.java:20-300 | the catalogue has 36 questions; question `i` belongs to theme `i / 12` and is well formed for its type |
| Catalogue.WellFormedDisplayable | src/QuestionPanel.java:67-162 | building the panel of any catalogue question throws nothing: its options are present, and its slider range is not rejected |
| Catalogue.WellFormedGradable | src/QuestionPanel.java:219-292 | grading any catalogue question never dereferences a null answer list |
| Catalogue.ComboAnswerReachable | src/QuestionPanel.java:90-98 | every combo-box question has an item whose selection is graded correct |
| Catalogue.SliderBuilt | src/QuestionPanel.java:99-127 | every catalogue slider is built with the bounds and the default its options spell |
| Catalogue.SliderAnswerAccepted | src/QuestionPanel.java:270-283 | moving a catalogue slider to its answer is graded correct |
| Catalogue.IndicesOfBlock | src/QuizManager.java:41-46 | when a theme's questions form one contiguous block, its filtered list has the block's length |
| Catalogue.ThemeSizes | src/QuizManager.java:41-46 | filtering the catalogue by any of its three themes yields 12 questions |
| Catalogue.FullQuizOnEveryTheme | src/QuizManager.java:40-51 | a quiz of 12 questions on any theme has 12 questions, whatever the shuffle draws |
| Session.ThemeIndices | src/QuizManager.java:41-46 | the filtered list holds the positions of the theme's questions: all of them, and no others |
| Session.ThemeIndicesIncreasing | src/QuizManager.java:41-46 | the filter keeps catalogue order, so it holds each question once |
| Session.Swap | src/QuizManager.java:47 | `Collections.swap` keeps the length |
| Session.SwapPermutes | src/QuizManager.java:47 | `Collections.swap` permutes the list |
| Session.Shuffled | src/QuizManager.java:47 | each step of `Collections.shuffle` keeps the length |
| Session.ShuffledPermutes | src/QuizManager.java:47 | `Collections.shuffle` permutes the list, whatever the draws |
| Session.Selection | src/QuizManager.java:47-51 | the quiz has `min(questionCount, number of theme questions)` questions |
| Session.SelectionFromTheme | src/QuizManager.java:47-51 | the quiz questions are a sub-multiset of the theme's questions |
| Session.IncreasingOnce | src/QuizManager.java:41-46 | a strictly increasing list holds each value at most once |
| Session.TwiceCounted | src/QuizManager.java:47-51 | a value at two positions occurs at least twice |
| Session.SelectionTheme | src/QuizManager.java:40-51 | every quiz question belongs to the chosen theme |
| Session.SelectionDistinct | src/QuizManager.java:40-51 | no question is asked twice in one quiz |
| Session.FilterTheme | src/QuizManager.java:41-46 | the filtering loop yields the theme's positions in catalogue order |
| Session.Shuffle | src/QuizManager.java:47 | the `Collections.shuffle` loop (swap position `i - 1` with draw `nextInt(i)`, from the end) yields the specified permutation |
| Session.ChooseQuestions | src/QuizManager.java:41-51 | filter, shuffle and `subList` yield `Selection`, every element of which is a question of the theme |
| Session.QuizManager.constructor | src/QuizManager.java:16-32 | a new session holds the catalogue, has no quiz, zero counts, no end time, no answers and a zero time limit |
| Session.QuizManager.CurrentQuestion | src/QuizManager.java:64 | the current question is one of the catalogue's |
| Session.QuizManager.StartQuizForTheme | src/QuizManager.java:40-58 | the selection is `Selection` of the theme; index, counts and answers are reset; the start time is `now` and there is no end time; the time limit is kept |
| Session.QuizManager.Percentage | src/QuizManager.java:82-85 | the score lies in 0–100, and is 0 when nothing was graded |
| Session.QuizManager.PercentageShare | src/QuizManager.java:82-85 | the score is `100 * correct / total`: 100 when all are correct, 0 when none is |
| Session.QuizManager.ElapsedSeconds | src/QuizManager.java:88-91 | the elapsed seconds are the whole seconds between the start and the end (or `now` while running), rounded down |
| Session.QuizManager.NextQuestion | src/QuizManager.java:94-98 | the index advances by one unless on the last question, and nothing else changes |
| Session.QuizManager.RecordAnswer | src/QuizManager.java:105-111 | exactly one of the two counts grows by one, according to `correct` |
| Session.QuizManager.StoreAnswer | src/QuizManager.java:118-120 | the answer is stored for the current question, replacing an earlier one, and nothing else changes |
| Session.QuizManager.Finish | src/QuizManager.java:123-125 | the end time becomes `now`, overwriting any earlier one, and nothing else changes |
| Session.QuizManager.SetTimeLimitSeconds | src/QuizManager.java:132-134 | the time limit becomes `seconds`, and nothing else changes |
| Grading.SliderFor | src/QuestionPanel.java:99-127 | fewer than two options shows "Invalid slider range."; a bound or default that does not parse shows "Invalid slider values."; a lower bound above the upper one is rejected by `JSlider`; otherwise the slider has the parsed bounds and the default clamped into them, or the lower bound when there is no default |
| Grading.FirstSelected | src/QuestionPanel.java:174-180 | the label of the first selected button in display order, and none exactly when no button is selected |
| Grading.SelectedTexts | src/QuestionPanel.java:181-189 | the labels of the selected check boxes: exactly the selected labels |
| Grading.NormalizeEach | src/QuestionPanel.java:231-243 | each accepted answer normalized, position by position |
| Grading.AnyMatch | src/QuestionPanel.java:262-269 | `anyMatch` holds exactly when some normalized accepted answer equals the given text |
| Grading.SetOf | src/QuestionPanel.java:231-243 | `new HashSet<>(list)` holds exactly the list's elements |
| Grading.SliderMatch | src/QuestionPanel.java:273-280 | some accepted answer, normalized and read with `parseInt`, equals the value; unparsable answers are skipped |
| Grading.RadioCorrect | src/QuestionPanel.java:222-230 | correct exactly when a button is selected and the first selected label matches an accepted answer |
| Grading.FirstSelectedExists | src/QuestionPanel.java:174-180 | when some button is selected, a first selected one exists at or before it |
| Grading.CheckboxCorrect | src/QuestionPanel.java:231-243 | correct exactly when every checked label is an accepted answer and every accepted answer is checked, after normalizing |
| Grading.CheckedLabels | src/QuestionPanel.java:231-243 | the normalized checked labels are exactly the normalized labels of the selected buttons |
| Grading.NumericCorrect | src/QuestionPanel.java:244-254 | correct exactly when there is an accepted answer, the typed text and the first accepted answer both parse as numbers, and they differ by less than 0.000001 |
| Grading.SliderCorrect | src/QuestionPanel.java:270-283 | correct exactly when a slider was built and some accepted answer reads as its value |
| Grading.CheckAnswer | src/QuestionPanel.java:219-292 | a TEXT answer or the combo box's selected item (empty when none) is correct exactly when it matches an accepted answer after normalizing; an IMAGE_CLICK answer is correct exactly when a correct area was clicked |
| Grading.UserAnswer | src/QuestionPanel.java:172-212 | RADIO gives the first selected label, or empty; CHECKBOX with nothing checked gives empty; SLIDER gives text that reads back as the slider value; IMAGE_CLICK gives "correct" after a correct click and empty before any click |
| Grading.SliderTextRoundTrip | src/QuestionPanel.java:202-206 | the stored slider text is its own normal form and reads back as the value |
| Grading.GradeFromStoredAnswer | src/QuestionPanel.java:172-292 | for RADIO, TEXT, COMBOBOX, SLIDER and IMAGE_CLICK questions, grading the stored answer text gives the grade of the widgets |
| Grading.CheckboxOrderIrrelevant | src/QuestionPanel.java:231-243 | the check-box grade does not depend on the order of the buttons |
| Grading.CheckboxMissingAnswer | src/QuestionPanel.java:231-243 | leaving an accepted answer unchecked makes a check-box answer wrong |
| Grading.CheckboxExtraOption | src/QuestionPanel.java:231-243 | checking a label that is not accepted makes a check-box answer wrong |
| Grading.TrailingZeroNormal | src/QuestionPanel.java:247 | a typed `n.0` is already in normal form |
| Grading.TrailingZeroValue | src/QuestionPanel.java:247 | `n.0` parses as `n` |
| Grading.NumericTrailingZero | src/QuestionPanel.java:244-254 | typing `n.0` for the accepted answer `n` is correct |
| Panel.HitsCorrectArea | src/QuestionPanel.java:146-157 | a click lands on a correct-area button exactly when some correct rectangle contains it |
| Panel.ButtonsFor | src/QuestionPanel.java:68-83 | one unselected button per option, labelled with it, in order |
| Panel.QuestionPanel.ComboItem | src/QuestionPanel.java:264-265 | the combo box has a selected item exactly when its index lies in its items |
| Panel.QuestionPanel.constructor | src/QuestionPanel.java:44-165 | buttons for RADIO and CHECKBOX, an empty text field, the first option selected in a non-empty combo box, the slider `SliderFor` builds, nothing answered |
| Panel.QuestionPanel.ClickImage | src/QuestionPanel.java:136-157 | a click in a correct area marks the answer correct; a click elsewhere on the image marks it wrong; a click off the image changes nothing; the grade is then `answered && answerCorrect` |
| Panel.QuestionPanel.ClickOption | src/QuestionPanel.java:68-83 | a radio click selects that button alone, and it becomes the first selected; a check-box click toggles that box alone; the labels never change |
| Panel.QuestionPanel.TypeText | src/QuestionPanel.java:84-89 | the text field holds the typed text, and nothing else changes |
| Panel.QuestionPanel.ChooseComboItem | src/QuestionPanel.java:90-98 | the chosen item becomes the selected one, and nothing else changes |
| Panel.QuestionPanel.MoveSlider | src/QuestionPanel.java:111 | the slider keeps its bounds and takes the value clamped into them |
| Stats.CountAppend | src/StatsManager.java:62-64 | occurrences in a concatenation add up |
| Stats.CountAbsent | src/StatsManager.java:62 | a char occurs zero times exactly when it is absent |
| Stats.DoubleQuotes | src/StatsManager.java:63 | doubling the quotes adds one char per quote |
| Stats.EscapeCsv | src/StatsManager.java:60-67 | null gives empty; a text without comma, quote or newline passes through unchanged; otherwise the text is wrapped in quotes and each quote is doubled |
| Stats.UndoubleDoubleQuotes | src/StatsManager.java:63 | undoubling reverses quote doubling |
| Stats.EscapeRoundTrip | src/StatsManager.java:60-67 | a CSV reader that strips the quotes and undoubles gets every escaped field back |
| Stats.LoneCarriageReturn | src/StatsManager.java:62 | a carriage return alone does not trigger quoting |
| Stats.RecordFields | src/StatsManager.java:34-42 | a result line has seven fields |
| Stats.CommaIndex | src/StatsManager.java:84 | the first comma, or the end of the text |
| Stats.SplitAll | src/StatsManager.java:84 | a text with `k` commas splits into `k + 1` pieces |
| Stats.DropTrailingEmpty | src/StatsManager.java:84 | `split` removes exactly the trailing empty pieces |
| Stats.ReadRow | src/StatsManager.java:84 | a line without a comma is read as one column |
| Stats.SplitAllAppend | src/StatsManager.java:84 | splitting `a,b` splits `a` and `b` |
| Stats.SplitAllAt | src/StatsManager.java:84 | splitting at the first comma gives its prefix, then the split of the rest |
| Stats.CommaIndexAt | src/StatsManager.java:84 | the first comma is found where it is |
| Stats.SplitAllNoComma | src/StatsManager.java:84 | a text without a comma splits into itself |
| Stats.CommaTotalAtLeast | src/StatsManager.java:34-42 | one field holds no more commas than all fields together |
| Stats.JoinCommas | src/StatsManager.java:34-42 | `String.join(",", …)` of `n` fields holds `n - 1` commas plus the fields' own |
| Stats.SplitJoinClean | src/StatsManager.java:34-84 | splitting a join of comma-free fields gives the fields back |
| Stats.SplitJoinLast | src/StatsManager.java:34-84 | splitting a join gives the last field back when it has no comma |
| Stats.DoubleQuotesCommas | src/StatsManager.java:63 | doubling quotes adds no comma |
| Stats.EscapeCommas | src/StatsManager.java:60-67 | escaping keeps the commas of the text, because quoting does not hide them from `split` |
| Stats.RecordLine | src/StatsManager.java:34-42 | a result line holds six separating commas plus the commas of its seven fields |
| Stats.RecordLineSplit | src/StatsManager.java:33-84 | reading a result line back gives 7 columns plus one per comma in the fields |
| Stats.RecordRoundTrip | src/StatsManager.java:33-84 | a line whose timestamp and theme have no comma reads back as its seven fields, and the theme column decodes to the theme |
| Stats.CommaThemeWidensRow | src/StatsManager.java:33-84 | a theme with a comma makes the line read back as more than seven columns, despite the quoting |
| QuizFlow.JavaDiv | src/MainFrame.java:474 | Java `/` by a positive divisor truncates toward zero |
| QuizFlow.JavaRem | src/MainFrame.java:475 | Java `%` by a positive divisor takes the sign of the dividend |
| QuizFlow.JavaDivRem | src/MainFrame.java:474-475 | quotient times divisor plus remainder is the dividend, and the remainder lies strictly between minus the divisor and the divisor, on the dividend's side |
| QuizFlow.ReadTime | src/MainFrame.java:473-477 | reading `MM:SS` back needs a colon |
| QuizFlow.Pad2Digits | src/MainFrame.java:476 | `%02d` of a non-negative number is at least two digits and reads back as the number |
| QuizFlow.Pad2Seconds | src/MainFrame.java:476 | `%02d` of a seconds count below 60 is exactly two digits |
| QuizFlow.ColonAfterDigits | src/MainFrame.java:476 | in `MM:SS` the first colon follows the minutes |
| QuizFlow.ReadPadded | src/MainFrame.java:476 | `MM:SS` reads back as `60 * MM + SS` |
| QuizFlow.FormatTime | src/MainFrame.java:473-477 | the label of a non-negative time within `int` range reads back as that time |
| QuizFlow.FormatTimeRoundTrip | src/MainFrame.java:473-477 | for a non-negative time the label is minutes, a colon and two digits of seconds, and reads back as the time |
| QuizFlow.FormatTimeNegative | src/MainFrame.java:473-477 | a negative time gives `00:-5`, since Java's `/` and `%` truncate |
| QuizFlow.CataloguePlayable | src/MainFrame.java:241-243 | every question of the catalogue can be shown and graded, and every theme in the combo box has as many questions as the question slider's maximum |
| QuizFlow.HasHintIff | src/MainFrame.java:332 | a hint counts exactly when it is not null and holds a char above a space |
| QuizFlow.Clamp | src/MainFrame.java:170-187 | a `JSlider` value is clamped into its bounds |
| QuizFlow.QuizController.SelectedTheme | src/MainFrame.java:254 | the selected theme is one of the combo box's items |
| QuizFlow.QuizController.constructor | src/MainFrame.java:161-243 | the session holds the catalogue with no quiz; the three themes; the first theme, 12 questions and 300 seconds preselected; no hints and an empty stats file |
| QuizFlow.QuizController.SelectTheme | src/MainFrame.java:161-164 | the combo box selects the theme, and nothing else changes |
| QuizFlow.QuizController.MoveQuestionSlider | src/MainFrame.java:170 | the question count is clamped into 1–12 |
| QuizFlow.QuizController.MoveTimeSlider | src/MainFrame.java:187 | the time limit is clamped into 30–600 |
| QuizFlow.QuizController.ShowCurrentQuestion | src/MainFrame.java:285-290 | a new panel shows the session's current question, unanswered, and nothing else changes |
| QuizFlow.QuizController.StartQuiz | src/MainFrame.java:253-282 | the session's selection is `Selection` of the chosen theme and count; the count matches the slider; index, counts and answers are reset; the time limit and the countdown take the time slider's value; hints reset; the timer runs and a new panel is shown |
| QuizFlow.QuizController.ShowHint | src/MainFrame.java:330-338 | `hintsUsed` grows by one exactly when the current question has a non-blank hint |
| QuizFlow.QuizController.RecordAndStore | src/MainFrame.java:359-361 | one count grows according to the grade, and the answer is stored for the current question; afterwards the graded questions are exactly those up to the current one |
| QuizFlow.QuizController.GoNext | src/MainFrame.java:341-351 | before the last question: the grade of the panel is counted, its answer stored, the index advances and a new panel is shown; on the last question nothing changes |
| QuizFlow.QuizController.FinishQuiz | src/MainFrame.java:354-374 | the timer stops; the panel's grade is counted and its answer stored; the session ends at `now`; one result line with the theme, counts, score, hints and elapsed seconds is appended to the stats file; the start screen is shown |
| QuizFlow.QuizController.CloseQuiz | src/MainFrame.java:355-362 | the timer stops; the last answer is graded and stored; the session ends at `now`; the stats file is untouched |
| QuizFlow.QuizController.AppendResult | src/MainFrame.java:364-374 | exactly the session's result line is appended to the stats file |
| QuizFlow.QuizController.Tick | src/MainFrame.java:269-276 | the countdown drops by one second; above one second nothing else changes; at one second or less the quiz is finished: the grade of the panel on screen goes to the matching count, its answer is stored for the current question, the session ends at `now` and the result line is appended; the selection, index, panel, hints, theme and sliders stay as they were |
| QuizFlow.QuizController.PressEnter | src/MainFrame.java:317-321 | the panel on screen is graded into the matching count and its answer stored for the current question; before the last question Enter then shows the next one, keeping the timer and log; on the last it ends the session at `now` and appends the result line; the selection, hints, theme and sliders stay as they were |

## Left out

- Swing layout, fonts, labels, menus, dark mode, the help, about and history dialogs, and
  the end-of-quiz dialog with its answers summary. They display things and change no quiz
  state. The history dialog's `String.join(" | ", row)` is only display, too.
- `BackgroundMusicPlayer` is not part of this model. It plays audio on its own thread and
  shares no state with the quiz.
- The statistics file is modelled as the sequence of appended lines. Opening, creating
  and writing the file and its `IOException` path are left out, as is the line
  separator. `readHistory` is modelled for one line (`Stats.ReadRow`); the loop over the
  file's lines is left out.
- Clocks are parameters: `now` in nanoseconds, and the ISO timestamp as a text.
- Randomness is a parameter: the `nextInt` draws of `Collections.shuffle`.
- The dimensions of an image are parameters of the panel (`iconWidth`, `iconHeight`).
  The model does not load the image file.
- The model does not include the Swing `Timer` thread. A countdown tick is the method
  `Tick`, called by the caller. The "Time has run out!" dialog is left out.
- The model has no Swing z-order. The correct-area buttons are added on top of the
  full-image "wrong" button, so a click is routed to a correct area whenever one contains
  it. `Rectangle.contains` is modelled as half-open containment.
- `double` arithmetic is modelled on exact reals:
  - `Double.parseDouble` covers decimal notation with an optional sign, exponent and
    type suffix. Hexadecimal literals, `NaN` and `Infinity` are left out.
  - Binary rounding of parsed values and of `100.0 * correct / total` is left out.
  - `%.2f` is rounded half up on the exact value.
- Characters are modelled as ASCII for `trim`, `\s` and `toLowerCase`. Java's
  locale-sensitive and Unicode case mapping is left out.
- Question prompts and hints in the catalogue are abbreviated texts. Themes, types,
  options, answers and correct areas are written out in full, because they are what
  grading uses. Image paths are kept as given.
- Session.QuizManager.RecordAnswer: the counts are unbounded naturals. Java's 32-bit
  `int` would overflow only after two billion answers.
- Session.QuizManager.StartQuizForTheme: a negative `questionCount` is excluded. With
  one, `subList` throws, and the question slider never yields one.
- Session.QuizManager.ElapsedSeconds: `Duration.getSeconds` is modelled on unbounded
  integers, without the `long` range.
- Stats.RecordLine: requires a non-negative percentage. `%.2f` of a negative number is
  not modelled, and `getPercentage` never yields one.
- Grading.UserAnswer: its contract covers the RADIO, SLIDER and IMAGE_CLICK cases and
  the empty CHECKBOX case. The text of TEXT, NUMERIC and COMBOBOX answers, and the
  check-box labels joined by `", "`, are given by its body only.
- Grading.CheckAnswer: its contract covers the TEXT, COMBOBOX and IMAGE_CLICK cases
  directly. The RADIO, CHECKBOX, NUMERIC and SLIDER cases are stated by
  `RadioCorrect`, `CheckboxCorrect`, `NumericCorrect` and `SliderCorrect`, which it
  calls.
- QuizFlow.QuizController.ShowCurrentQuestion: the question on screen must be one that
  can be displayed. `CataloguePlayable` shows that every catalogue question can be.
