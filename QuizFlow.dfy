/**
 * The quiz flow of the main window (`MainFrame`): the start screen's widgets, starting a
 * quiz, the countdown timer, hints, moving to the next question, finishing and writing
 * the result line, and the Enter key. Layout, dialogs, menus and music are not modelled.
 */
module QuizFlow {
  import opened Wrappers
  import opened JavaLang
  import opened QuestionModel
  import opened Grading
  import opened Session
  import opened Panel
  import Stats
  import Catalogue

  // ---------------------------------------------------------------------------
  // formatTime
  // ---------------------------------------------------------------------------

  /** Java's `/` on `int`: the quotient rounded toward zero. */
  function JavaDiv(a: int, b: int): (q: int)
    requires b > 0
    ensures a >= 0 ==> q == a / b
    ensures a < 0 ==> q == -((-a) / b)
  {
    if a >= 0 then a / b else -((-a) / b)
  }

  /** Java's `%` on `int`: the remainder takes the sign of the dividend. */
  function JavaRem(a: int, b: int): (r: int)
    requires b > 0
    ensures a >= 0 ==> r == a % b
    ensures a < 0 ==> r == -((-a) % b)
  {
    if a >= 0 then a % b else -((-a) % b)
  }

  /** Java's quotient and remainder recompose the dividend; the remainder is smaller than the divisor. */
  lemma {:induction false} JavaDivRem(a: int, b: int)
    requires b > 0
    ensures a == JavaDiv(a, b) * b + JavaRem(a, b)
    ensures a >= 0 ==> 0 <= JavaRem(a, b) < b
    ensures a < 0 ==> -b < JavaRem(a, b) <= 0
  {
    if a < 0 {
      assert -a == (-a) / b * b + (-a) % b;
    }
  }

  /** `String.format("%02d", n)`: at least two characters, zeros inserted after any sign. */
  function Pad2(n: int): string
  {
    if 0 <= n < 10 then "0" + IntToString(n) else IntToString(n)
  }

  /** `formatTime(totalSeconds)`: minutes and seconds, each printed by `%02d`, around a colon. */
  function FormatTime(totalSeconds: int): (r: string)
    ensures 0 <= totalSeconds <= MaxInt ==> ReadTime(r) == Some(totalSeconds)
  {
    var minutes, seconds := JavaDiv(totalSeconds, 60), JavaRem(totalSeconds, 60);
    var text := Pad2(minutes) + ":" + Pad2(seconds);
    assert 0 <= totalSeconds <= MaxInt ==> ReadTime(text) == Some(totalSeconds) by {
      if 0 <= totalSeconds <= MaxInt {
        assert minutes == totalSeconds / 60 && seconds == totalSeconds % 60;
        ReadPadded(minutes, seconds);
      }
    }
    text
  }

  /** Reads a `MM:SS` text back into seconds: the text before the first colon is the minutes. */
  function ReadTime(text: string): (r: Option<int>)
    ensures r.Some? ==> ':' in text
  {
    var i := IndexOfAny(text, {':'});
    if i == |text| then None
    else
      match (ParseInt(text[..i]), ParseInt(text[i + 1..]))
      case (Some(m), Some(s)) => Some(60 * m + s)
      case _ => None
  }

  /** A non-negative number printed by `%02d` is all digits, at least two of them, and reads back. */
  lemma {:induction false} Pad2Digits(n: int)
    requires 0 <= n <= MaxInt
    ensures |Pad2(n)| >= 2 && IsDigits(Pad2(n))
    ensures ParseInt(Pad2(n)) == Some(n)
  {
    var d := NatToDigits(n);
    if n < 10 {
      var p := Pad2(n);
      assert d == [DigitChar(n)];
      assert p == ['0', DigitChar(n)];
      assert p[..1] == ['0'] && ['0'][..0] == [];
      assert DigitsValue(p) == DigitsValue(['0']) * 10 + n;
    } else {
      assert d == NatToDigits(n / 10) + [DigitChar(n % 10)];
      ParseIntOfIntToString(n);
    }
  }

  /** `%02d` of a number of seconds below a minute is exactly two digits. */
  lemma {:induction false} Pad2Seconds(n: int)
    requires 0 <= n < 60
    ensures |Pad2(n)| == 2 && IsDigits(Pad2(n)) && DigitsValue(Pad2(n)) == n
  {
    Pad2Digits(n);
    if n >= 10 {
      assert NatToDigits(n) == NatToDigits(n / 10) + [DigitChar(n % 10)];
    }
  }

  /** The first colon of `m:s` is the one after `m` when `m` is all digits. */
  lemma {:induction false} ColonAfterDigits(m: string, s: string)
    requires IsDigits(m)
    ensures IndexOfAny(m + ":" + s, {':'}) == |m|
    ensures (m + ":" + s)[..|m|] == m && (m + ":" + s)[|m| + 1..] == s
  {
    var text := m + ":" + s;
    assert forall k :: 0 <= k < |m| ==> text[k] == m[k];
    assert text[|m|] == ':';
  }

  /** Reading `minutes:seconds` back, both printed by `%02d`. */
  lemma {:induction false} ReadPadded(minutes: int, seconds: int)
    requires 0 <= minutes <= MaxInt && 0 <= seconds <= MaxInt
    ensures ReadTime(Pad2(minutes) + ":" + Pad2(seconds)) == Some(60 * minutes + seconds)
  {
    Pad2Digits(minutes);
    Pad2Digits(seconds);
    ColonAfterDigits(Pad2(minutes), Pad2(seconds));
  }

  /**
   * For a non-negative count, the text is the minutes padded to at least two digits, a
   * colon, and the seconds as exactly two digits; reading it back gives the count.
   */
  lemma {:induction false} FormatTimeRoundTrip(t: int)
    requires 0 <= t <= MaxInt
    ensures var text := FormatTime(t);
      text == Pad2(t / 60) + ":" + Pad2(t % 60) &&
      |text| >= 5 && text[|text| - 3] == ':' &&
      IsDigits(text[|text| - 2..]) && DigitsValue(text[|text| - 2..]) == t % 60
    ensures ReadTime(FormatTime(t)) == Some(t)
  {
    var m, s := Pad2(t / 60), Pad2(t % 60);
    Pad2Digits(t / 60);
    Pad2Seconds(t % 60);
    var text := m + ":" + s;
    assert FormatTime(t) == text;
    assert text[|text| - 2..] == s;
    ReadPadded(t / 60, t % 60);
  }

  /** Below zero the text is not clock-like: Java's `/` and `%` both round toward zero. */
  lemma {:induction false} FormatTimeNegative()
    ensures FormatTime(-5) == "00:-5"
  {
    assert JavaDiv(-5, 60) == 0 && JavaRem(-5, 60) == -5;
    assert NatToDigits(0) == "0" && NatToDigits(5) == "5";
    assert Pad2(0) == "00" && Pad2(-5) == "-5";
  }

  // ---------------------------------------------------------------------------
  // The start screen
  // ---------------------------------------------------------------------------

  /** `new JSlider(HORIZONTAL, 1, 12, 12)`: the number of questions. */
  const QuestionSliderMin: int := 1
  const QuestionSliderMax: int := 12
  const QuestionSliderInitial: int := 12
  /** `new JSlider(HORIZONTAL, 30, 600, 300)`: the time limit in seconds. */
  const TimeSliderMin: int := 30
  const TimeSliderMax: int := 600
  const TimeSliderInitial: int := 300

  /** A question the window can show and grade: a panel can be built and grading finds its answers. */
  ghost predicate Askable(q: Question) {
    Displayable(q) && forall inputs :: ReadsAnswers(q, inputs) ==> q.answers.Some?
  }

  /** What the quiz flow relies on in the catalogue the session holds. */
  ghost predicate Playable(qs: seq<Question>, themes: seq<string>) {
    (forall i :: 0 <= i < |qs| ==> Askable(qs[i])) &&
    (forall t :: 0 <= t < |themes| ==> |ThemeIndices(qs, themes[t])| == QuestionSliderMax)
  }

  /** The catalogue of the question bank is playable, whichever theme is picked. */
  lemma {:induction false} CataloguePlayable(qs: seq<Question>)
    requires Catalogue.Catalogue(qs)
    ensures Playable(qs, Catalogue.Themes)
  {
    forall i | 0 <= i < |qs| ensures Askable(qs[i]) {
      assert Catalogue.WellFormed(qs[i]);
      Catalogue.WellFormedDisplayable(qs[i]);
      forall inputs ensures ReadsAnswers(qs[i], inputs) ==> qs[i].answers.Some? {
        Catalogue.WellFormedGradable(qs[i], inputs);
      }
    }
    forall t | 0 <= t < 3 ensures |ThemeIndices(qs, Catalogue.Themes[t])| == QuestionSliderMax {
      Catalogue.ThemeSizes(qs, t);
    }
  }

  /** `showHint` counts a hint only when there is one and it is not blank. */
  predicate HasHint(hint: Option<string>) {
    hint.Some? && Trim(hint.value) != []
  }

  /** A hint counts exactly when it holds a character above a space. */
  lemma {:induction false} HasHintIff(hint: Option<string>)
    ensures HasHint(hint) <==> hint.Some? && exists i :: 0 <= i < |hint.value| && !IsBlank(hint.value[i])
  {
    if hint.Some? {
      TrimEmptyIff(hint.value);
    }
  }

  /** `JSlider.setValue`: a value outside the bounds is moved to the nearer bound. */
  function Clamp(v: int, lo: int, hi: int): (r: int)
    requires lo <= hi
    ensures lo <= r <= hi
    ensures lo <= v <= hi ==> r == v
    ensures v < lo ==> r == lo
    ensures v > hi ==> r == hi
  {
    if v < lo then lo else if v > hi then hi else v
  }

  // ---------------------------------------------------------------------------
  // The window's quiz flow
  // ---------------------------------------------------------------------------

  class QuizController {
    /** The session, created over the question bank when the window is set up. */
    const quiz: QuizManager
    /** The theme combo box's items. */
    const themeItems: seq<string>
    /** The panel of the question on screen; none before the first quiz. */
    var panel: QuestionPanel?
    /** The start screen: the theme combo box's index and the two sliders' values. */
    var themeIndex: nat
    var questionSliderValue: int
    var timeSliderValue: int
    var hintsUsed: int
    var remainingSeconds: int
    /** The countdown timer is running. */
    var timerRunning: bool
    /** The question card is shown (otherwise the start screen is). */
    var inQuiz: bool
    /** The lines appended to the stats file, oldest first. */
    var statsLog: seq<string>

    /**
     * While a quiz is on screen the panel shows the current question, and exactly the
     * questions before the current one have been graded and have a stored answer.
     */
    ghost predicate InProgress()
      reads this`panel, quiz, panel
    {
      quiz.Valid() && quiz.Started() && quiz.currentIndex < |quiz.selection| &&
      panel != null && panel.Valid() && panel.question == quiz.CurrentQuestion() && Askable(panel.question) &&
      quiz.correctCount + quiz.wrongCount == quiz.currentIndex &&
      (forall p :: p in quiz.userAnswers <==> p in quiz.selection[..quiz.currentIndex])
    }

    ghost predicate Valid()
      reads this, quiz, panel
    {
      quiz.Valid() && Playable(quiz.allQuestions, themeItems) &&
      themeIndex < |themeItems| &&
      QuestionSliderMin <= questionSliderValue <= QuestionSliderMax &&
      TimeSliderMin <= timeSliderValue <= TimeSliderMax &&
      hintsUsed >= 0 &&
      (timerRunning ==> inQuiz && 0 < remainingSeconds <= quiz.timeLimitSeconds) &&
      (inQuiz ==> InProgress())
    }

    /** The theme the selector shows, as `getSelectedItem` returns it. */
    function SelectedTheme(): (theme: string)
      reads this`themeIndex
      requires themeIndex < |themeItems|
      ensures theme in themeItems
    {
      themeItems[themeIndex]
    }

    /** The line `StatsManager.append` writes for the session's result, with `timestamp` as the date. */
    function ResultLine(timestamp: string, now: int): string
      reads this`themeIndex, this`hintsUsed, quiz
      requires themeIndex < |themeItems| && quiz.Started()
    {
      Stats.RecordLine(timestamp, Some(SelectedTheme()), quiz.correctCount, quiz.wrongCount,
                       quiz.Percentage(), hintsUsed, quiz.ElapsedSeconds(now))
    }

    /**
     * The window's setup: a session over the question bank, the start screen with the first
     * theme and both sliders at their initial values, no timer and an empty stats file.
     */
    constructor ()
      ensures Valid() && !inQuiz && !timerRunning
      ensures Catalogue.Catalogue(quiz.allQuestions) && !quiz.Started()
      ensures themeItems == Catalogue.Themes
      ensures themeIndex == 0 && questionSliderValue == QuestionSliderInitial
      ensures timeSliderValue == TimeSliderInitial
      ensures hintsUsed == 0 && remainingSeconds == 0 && statsLog == []
    {
      var all := Catalogue.GetAllQuestions();
      CataloguePlayable(all);
      quiz := new QuizManager(all);
      themeItems := Catalogue.Themes;
      panel := null;
      themeIndex := 0;
      questionSliderValue := QuestionSliderInitial;
      timeSliderValue := TimeSliderInitial;
      hintsUsed := 0;
      remainingSeconds := 0;
      timerRunning := false;
      inQuiz := false;
      statsLog := [];
    }

    /** The user picks theme `i` in the combo box. */
    method SelectTheme(i: nat)
      requires Valid() && i < |themeItems|
      modifies this
      ensures Valid() && themeIndex == i
      ensures questionSliderValue == old(questionSliderValue) && timeSliderValue == old(timeSliderValue)
      ensures panel == old(panel) && hintsUsed == old(hintsUsed) && remainingSeconds == old(remainingSeconds)
      ensures timerRunning == old(timerRunning) && inQuiz == old(inQuiz) && statsLog == old(statsLog)
    {
      themeIndex := i;
    }

    /** The user drags the question-count slider. */
    method MoveQuestionSlider(v: int)
      requires Valid()
      modifies this
      ensures Valid() && questionSliderValue == Clamp(v, QuestionSliderMin, QuestionSliderMax)
      ensures themeIndex == old(themeIndex) && timeSliderValue == old(timeSliderValue)
      ensures panel == old(panel) && hintsUsed == old(hintsUsed) && remainingSeconds == old(remainingSeconds)
      ensures timerRunning == old(timerRunning) && inQuiz == old(inQuiz) && statsLog == old(statsLog)
    {
      questionSliderValue := Clamp(v, QuestionSliderMin, QuestionSliderMax);
    }

    /** The user drags the time-limit slider. */
    method MoveTimeSlider(v: int)
      requires Valid()
      modifies this
      ensures Valid() && timeSliderValue == Clamp(v, TimeSliderMin, TimeSliderMax)
      ensures themeIndex == old(themeIndex) && questionSliderValue == old(questionSliderValue)
      ensures panel == old(panel) && hintsUsed == old(hintsUsed) && remainingSeconds == old(remainingSeconds)
      ensures timerRunning == old(timerRunning) && inQuiz == old(inQuiz) && statsLog == old(statsLog)
    {
      timeSliderValue := Clamp(v, TimeSliderMin, TimeSliderMax);
    }

    /**
     * `showCurrentQuestion`: a new panel for the session's current question; loading its
     * image reports the size `iconWidth` by `iconHeight`.
     */
    method ShowCurrentQuestion(iconWidth: int, iconHeight: int)
      requires quiz.Valid() && Playable(quiz.allQuestions, themeItems) && quiz.currentIndex < |quiz.selection|
      modifies this
      ensures fresh(panel) && panel.Valid() && panel.question == quiz.CurrentQuestion()
      ensures panel.imageWidth == iconWidth && panel.imageHeight == iconHeight
      ensures !panel.answered && panel.text == ""
      ensures themeIndex == old(themeIndex) && questionSliderValue == old(questionSliderValue)
      ensures timeSliderValue == old(timeSliderValue) && hintsUsed == old(hintsUsed)
      ensures remainingSeconds == old(remainingSeconds) && timerRunning == old(timerRunning)
      ensures inQuiz == old(inQuiz) && statsLog == old(statsLog)
    {
      var q := quiz.CurrentQuestion();
      assert Askable(quiz.allQuestions[quiz.selection[quiz.currentIndex]]);
      panel := new QuestionPanel(q, iconWidth, iconHeight);
    }

    /**
     * `startQuiz`: a session over the selected theme with as many questions as the slider
     * says (every theme has twelve, the slider's maximum, so none is cut short), the time
     * limit from the other slider, no hints yet, a full countdown, and the first question
     * on screen. `draws` are the shuffle's random choices, `now` the start instant.
     */
    method StartQuiz(draws: seq<nat>, now: int, iconWidth: int, iconHeight: int)
      requires Valid() && ValidDraws(draws, QuestionSliderMax)
      modifies this, quiz
      ensures Valid() && inQuiz && timerRunning
      ensures quiz.selection == Selection(quiz.allQuestions, SelectedTheme(), questionSliderValue, draws)
      ensures |quiz.selection| == questionSliderValue
      ensures quiz.currentIndex == 0 && quiz.correctCount == 0 && quiz.wrongCount == 0
      ensures quiz.startTime == Some(now) && quiz.endTime == None && quiz.userAnswers == map[]
      ensures quiz.timeLimitSeconds == timeSliderValue
      ensures hintsUsed == 0 && remainingSeconds == timeSliderValue
      ensures fresh(panel) && panel.imageWidth == iconWidth && panel.imageHeight == iconHeight
      ensures themeIndex == old(themeIndex) && questionSliderValue == old(questionSliderValue)
      ensures timeSliderValue == old(timeSliderValue) && statsLog == old(statsLog)
    {
      quiz.StartQuizForTheme(SelectedTheme(), questionSliderValue, draws, now);
      quiz.SetTimeLimitSeconds(timeSliderValue);
      hintsUsed := 0;
      remainingSeconds := quiz.timeLimitSeconds;
      timerRunning := true;
      ShowCurrentQuestion(iconWidth, iconHeight);
      inQuiz := true;
    }

    /** `showHint`: the hint of the question on screen is shown and counted, if it has one. */
    method ShowHint()
      requires Valid() && inQuiz
      modifies this
      ensures Valid() && inQuiz && panel == old(panel)
      ensures hintsUsed == old(hintsUsed) + (if HasHint(panel.question.hint) then 1 else 0)
      ensures themeIndex == old(themeIndex)
      ensures questionSliderValue == old(questionSliderValue) && timeSliderValue == old(timeSliderValue)
      ensures remainingSeconds == old(remainingSeconds) && timerRunning == old(timerRunning)
      ensures statsLog == old(statsLog)
    {
      if HasHint(panel.question.hint) {
        hintsUsed := hintsUsed + 1;
      }
    }

    /**
     * The step `goNext` and `finishQuiz` share once the panel is graded: `recordAnswer`
     * with the grade, then `storeAnswer` with the panel's answer. Afterwards the current
     * question counts among the graded and answered ones.
     */
    method RecordAndStore(correct: bool, answer: string)
      requires quiz.Valid() && quiz.Started() && quiz.currentIndex < |quiz.selection|
      requires quiz.correctCount + quiz.wrongCount == quiz.currentIndex
      requires forall p :: p in quiz.userAnswers <==> p in quiz.selection[..quiz.currentIndex]
      modifies quiz
      ensures quiz.selection == old(quiz.selection) && quiz.currentIndex == old(quiz.currentIndex)
      ensures quiz.Valid() && quiz.Started()
      ensures quiz.correctCount == old(quiz.correctCount) + (if correct then 1 else 0)
      ensures quiz.wrongCount == old(quiz.wrongCount) + (if correct then 0 else 1)
      ensures quiz.userAnswers == old(quiz.userAnswers)[quiz.selection[quiz.currentIndex] := answer]
      ensures quiz.correctCount + quiz.wrongCount == quiz.currentIndex + 1
      ensures forall p :: p in quiz.userAnswers <==> p in quiz.selection[..quiz.currentIndex + 1]
      ensures quiz.startTime == old(quiz.startTime) && quiz.endTime == old(quiz.endTime)
      ensures quiz.timeLimitSeconds == old(quiz.timeLimitSeconds)
    {
      ghost var before := quiz.selection[..quiz.currentIndex];
      quiz.RecordAnswer(correct);
      quiz.StoreAnswer(answer);
      assert quiz.selection[..quiz.currentIndex + 1] == before + [quiz.selection[quiz.currentIndex]];
    }

    /**
     * `goNext`: before the last question, grades the panel, records the grade, stores the
     * panel's answer for the current question and shows the next one. On the last question
     * only a message appears.
     */
    method GoNext(iconWidth: int, iconHeight: int)
      requires Valid() && inQuiz
      modifies this, quiz
      ensures Valid() && inQuiz
      ensures old(quiz.currentIndex) < |quiz.selection| - 1 ==>
        quiz.currentIndex == old(quiz.currentIndex) + 1 &&
        quiz.correctCount == old(quiz.correctCount) + (if old(CheckAnswer(panel.question, panel.Inputs())) then 1 else 0) &&
        quiz.wrongCount == old(quiz.wrongCount) + (if old(CheckAnswer(panel.question, panel.Inputs())) then 0 else 1) &&
        quiz.userAnswers == old(quiz.userAnswers)[old(quiz.selection[quiz.currentIndex]) := old(UserAnswer(panel.question, panel.Inputs()))] &&
        fresh(panel) && panel.imageWidth == iconWidth && panel.imageHeight == iconHeight
      ensures old(quiz.currentIndex) >= |quiz.selection| - 1 ==>
        unchanged(quiz) && panel == old(panel)
      ensures quiz.selection == old(quiz.selection) && quiz.startTime == old(quiz.startTime)
      ensures quiz.endTime == old(quiz.endTime) && quiz.timeLimitSeconds == old(quiz.timeLimitSeconds)
      ensures themeIndex == old(themeIndex) && questionSliderValue == old(questionSliderValue)
      ensures timeSliderValue == old(timeSliderValue) && hintsUsed == old(hintsUsed)
      ensures remainingSeconds == old(remainingSeconds) && timerRunning == old(timerRunning)
      ensures statsLog == old(statsLog)
    {
      if quiz.currentIndex < quiz.QuestionCount() - 1 {
        var correct := CheckAnswer(panel.question, panel.Inputs());
        RecordAndStore(correct, UserAnswer(panel.question, panel.Inputs()));
        quiz.NextQuestion();
        ShowCurrentQuestion(iconWidth, iconHeight);
      }
    }

    /**
     * `finishQuiz` at instant `now`: stops the timer, grades and stores the answer on screen,
     * ends the session, appends the result line (dated `timestamp`) to the stats file and
     * returns to the start screen. Every question up to the current one is graded exactly
     * once; later ones are not graded at all.
     */
    method FinishQuiz(now: int, timestamp: string)
      requires Valid() && inQuiz
      modifies this, quiz
      ensures Valid() && !inQuiz && !timerRunning
      ensures quiz.correctCount == old(quiz.correctCount) + (if old(CheckAnswer(panel.question, panel.Inputs())) then 1 else 0)
      ensures quiz.wrongCount == old(quiz.wrongCount) + (if old(CheckAnswer(panel.question, panel.Inputs())) then 0 else 1)
      ensures quiz.correctCount + quiz.wrongCount == quiz.currentIndex + 1
      ensures quiz.userAnswers == old(quiz.userAnswers)[old(quiz.selection[quiz.currentIndex]) := old(UserAnswer(panel.question, panel.Inputs()))]
      ensures quiz.endTime == Some(now) && quiz.Started()
      ensures quiz.selection == old(quiz.selection) && quiz.currentIndex == old(quiz.currentIndex)
      ensures quiz.startTime == old(quiz.startTime) && quiz.timeLimitSeconds == old(quiz.timeLimitSeconds)
      ensures statsLog == old(statsLog) + [ResultLine(timestamp, now)]
      ensures panel == old(panel)
      ensures themeIndex == old(themeIndex) && questionSliderValue == old(questionSliderValue)
      ensures timeSliderValue == old(timeSliderValue) && hintsUsed == old(hintsUsed)
      ensures remainingSeconds == old(remainingSeconds)
    {
      CloseQuiz(now);
      AppendResult(timestamp, now);
    }

    /** The part of `finishQuiz` before the stats line: stop, grade, store, end, leave the card. */
    method CloseQuiz(now: int)
      requires Valid() && inQuiz
      modifies this, quiz
      ensures Valid() && !inQuiz && !timerRunning
      ensures quiz.correctCount == old(quiz.correctCount) + (if old(CheckAnswer(panel.question, panel.Inputs())) then 1 else 0)
      ensures quiz.wrongCount == old(quiz.wrongCount) + (if old(CheckAnswer(panel.question, panel.Inputs())) then 0 else 1)
      ensures quiz.correctCount + quiz.wrongCount == quiz.currentIndex + 1
      ensures quiz.userAnswers == old(quiz.userAnswers)[old(quiz.selection[quiz.currentIndex]) := old(UserAnswer(panel.question, panel.Inputs()))]
      ensures quiz.endTime == Some(now) && quiz.Started()
      ensures quiz.selection == old(quiz.selection) && quiz.currentIndex == old(quiz.currentIndex)
      ensures quiz.startTime == old(quiz.startTime) && quiz.timeLimitSeconds == old(quiz.timeLimitSeconds)
      ensures statsLog == old(statsLog) && panel == old(panel)
      ensures themeIndex == old(themeIndex) && questionSliderValue == old(questionSliderValue)
      ensures timeSliderValue == old(timeSliderValue) && hintsUsed == old(hintsUsed)
      ensures remainingSeconds == old(remainingSeconds)
    {
      var correct := CheckAnswer(panel.question, panel.Inputs());
      var answer := UserAnswer(panel.question, panel.Inputs());
      timerRunning := false;
      RecordAndStore(correct, answer);
      quiz.Finish(now);
      inQuiz := false;
    }

    /** `StatsManager.append` with the session's result, dated `timestamp`. */
    method AppendResult(timestamp: string, now: int)
      requires themeIndex < |themeItems| && quiz.Started()
      modifies this`statsLog
      ensures statsLog == old(statsLog) + [ResultLine(timestamp, now)]
    {
      statsLog := statsLog + [ResultLine(timestamp, now)];
    }

    /**
     * One firing of the countdown timer at instant `now`: one second less, and when none is
     * left the timer stops and the quiz is finished. A running timer therefore fires at most
     * the time limit's number of times.
     */
    method Tick(now: int, timestamp: string)
      requires Valid() && timerRunning
      modifies this, quiz
      ensures Valid()
      ensures remainingSeconds == old(remainingSeconds) - 1
      ensures old(remainingSeconds) > 1 ==>
        timerRunning && inQuiz && unchanged(quiz) && statsLog == old(statsLog)
      ensures old(remainingSeconds) <= 1 ==>
        !timerRunning && !inQuiz && quiz.Started() && quiz.endTime == Some(now) &&
        quiz.correctCount == old(quiz.correctCount) + (if old(CheckAnswer(panel.question, panel.Inputs())) then 1 else 0) &&
        quiz.wrongCount == old(quiz.wrongCount) + (if old(CheckAnswer(panel.question, panel.Inputs())) then 0 else 1) &&
        quiz.userAnswers == old(quiz.userAnswers)[old(quiz.selection[quiz.currentIndex]) := old(UserAnswer(panel.question, panel.Inputs()))] &&
        quiz.correctCount + quiz.wrongCount == quiz.currentIndex + 1 &&
        statsLog == old(statsLog) + [ResultLine(timestamp, now)]
      ensures quiz.selection == old(quiz.selection) && quiz.currentIndex == old(quiz.currentIndex)
      ensures quiz.startTime == old(quiz.startTime) && quiz.timeLimitSeconds == old(quiz.timeLimitSeconds)
      ensures panel == old(panel) && hintsUsed == old(hintsUsed) && themeIndex == old(themeIndex)
      ensures questionSliderValue == old(questionSliderValue) && timeSliderValue == old(timeSliderValue)
    {
      ghost var inputs, question := panel.Inputs(), panel.question;
      remainingSeconds := remainingSeconds - 1;
      if remainingSeconds <= 0 {
        timerRunning := false;
        assert panel.Inputs() == inputs && panel.question == question;
        FinishQuiz(now, timestamp);
      }
    }

    /**
     * The Enter key: before the last question it acts as Next, on the last one as Submit,
     * so it never lands on the "last question" message.
     */
    method PressEnter(now: int, timestamp: string, iconWidth: int, iconHeight: int)
      requires Valid() && inQuiz
      modifies this, quiz
      ensures Valid()
      ensures old(quiz.currentIndex) < |old(quiz.selection)| - 1 ==>
        inQuiz && quiz.currentIndex == old(quiz.currentIndex) + 1 &&
        fresh(panel) && panel.imageWidth == iconWidth && panel.imageHeight == iconHeight &&
        quiz.correctCount + quiz.wrongCount == quiz.currentIndex && quiz.endTime == old(quiz.endTime) &&
        timerRunning == old(timerRunning) && remainingSeconds == old(remainingSeconds) && statsLog == old(statsLog)
      ensures old(quiz.currentIndex) >= |old(quiz.selection)| - 1 ==>
        !inQuiz && !timerRunning && quiz.Started() && quiz.endTime == Some(now) &&
        quiz.currentIndex == old(quiz.currentIndex) && panel == old(panel) &&
        quiz.correctCount + quiz.wrongCount == |quiz.selection| &&
        remainingSeconds == old(remainingSeconds) && statsLog == old(statsLog) + [ResultLine(timestamp, now)]
      ensures quiz.correctCount == old(quiz.correctCount) + (if old(CheckAnswer(panel.question, panel.Inputs())) then 1 else 0)
      ensures quiz.wrongCount == old(quiz.wrongCount) + (if old(CheckAnswer(panel.question, panel.Inputs())) then 0 else 1)
      ensures quiz.userAnswers == old(quiz.userAnswers)[old(quiz.selection[quiz.currentIndex]) := old(UserAnswer(panel.question, panel.Inputs()))]
      ensures quiz.selection == old(quiz.selection) && quiz.startTime == old(quiz.startTime)
      ensures quiz.timeLimitSeconds == old(quiz.timeLimitSeconds)
      ensures themeIndex == old(themeIndex) && hintsUsed == old(hintsUsed)
      ensures questionSliderValue == old(questionSliderValue) && timeSliderValue == old(timeSliderValue)
    {
      if quiz.currentIndex < quiz.QuestionCount() - 1 {
        GoNext(iconWidth, iconHeight);
      } else {
        FinishQuiz(now, timestamp);
      }
    }
  }
}
