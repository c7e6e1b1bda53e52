/**
 * One quiz session (`QuizManager`): picking the questions of a theme, the cursor,
 * the score, the stored answers and the clock.
 *
 * Questions are identified by their position in the catalogue the manager was made
 * with, as Java's identity-keyed `HashMap<Question, String>` identifies them by object.
 * Instants are whole nanoseconds; the caller passes the current instant in.
 */
module Session {
  import opened Wrappers
  import opened QuestionModel

  const NanosPerSecond: int := 1_000_000_000

  // ---------------------------------------------------------------------------
  // Choosing the questions
  // ---------------------------------------------------------------------------

  predicate StrictlyIncreasing(s: seq<nat>) {
    forall j, k :: 0 <= j < k < |s| ==> s[j] < s[k]
  }

  /** The positions of the questions of `theme`, in catalogue order. */
  function ThemeIndices(qs: seq<Question>, theme: string): (r: seq<nat>)
    ensures forall k :: 0 <= k < |r| ==> r[k] < |qs| && qs[r[k]].theme == theme
    ensures forall i :: 0 <= i < |qs| && qs[i].theme == theme ==> i in r
    decreases |qs|
  {
    if qs == [] then []
    else
      var last := |qs| - 1;
      var init := qs[..last];
      assert forall i :: 0 <= i < last ==> qs[i] == init[i];
      ThemeIndices(init, theme) + (if qs[last].theme == theme then [last] else [])
  }

  /** The theme's questions are listed in catalogue order, each once. */
  lemma {:induction false} ThemeIndicesIncreasing(qs: seq<Question>, theme: string)
    ensures StrictlyIncreasing(ThemeIndices(qs, theme))
    decreases |qs|
  {
    if qs != [] {
      var last := |qs| - 1;
      var init := qs[..last];
      assert forall i :: 0 <= i < last ==> qs[i] == init[i];
      ThemeIndicesIncreasing(init, theme);
    }
  }

  /**
   * `Collections.shuffle`'s draws are valid for a list of `n`: one per step
   * `i = n, n-1, ..., 2`, the step with `i` drawing `nextInt(i)`.
   */
  predicate ValidDraws(draws: seq<nat>, n: nat) {
    |draws| == (if n > 1 then n - 1 else 0) &&
    forall k :: 0 <= k < |draws| ==> draws[k] < n - k
  }

  /** `Collections.swap(list, i, j)`. */
  function Swap(s: seq<nat>, i: nat, j: nat): (r: seq<nat>)
    requires i < |s| && j < |s|
    ensures |r| == |s|
  {
    seq(|s|, k requires 0 <= k < |s| => if k == i then s[j] else if k == j then s[i] else s[k])
  }

  /** A swap only reorders the list. */
  lemma {:induction false} SwapPermutes(s: seq<nat>, i: nat, j: nat)
    requires i < |s| && j < |s|
    ensures multiset(Swap(s, i, j)) == multiset(s)
  {
    assert Swap(s, i, j) == s[i := s[j]][j := s[i]];
  }

  /** The list after the first `steps` swaps of `Collections.shuffle`. */
  function Shuffled(s: seq<nat>, draws: seq<nat>, steps: nat): (r: seq<nat>)
    requires ValidDraws(draws, |s|) && steps <= |draws|
    ensures |r| == |s|
  {
    if steps == 0 then s
    else Swap(Shuffled(s, draws, steps - 1), |s| - steps, draws[steps - 1])
  }

  /** Shuffling only reorders the list. */
  lemma {:induction false} ShuffledPermutes(s: seq<nat>, draws: seq<nat>, steps: nat)
    requires ValidDraws(draws, |s|) && steps <= |draws|
    ensures multiset(Shuffled(s, draws, steps)) == multiset(s)
  {
    if steps > 0 {
      var prev := Shuffled(s, draws, steps - 1);
      var i, j := |s| - steps, draws[steps - 1];
      calc {
        multiset(Shuffled(s, draws, steps));
        multiset(Swap(prev, i, j));
        { SwapPermutes(prev, i, j); }
        multiset(prev);
        { ShuffledPermutes(s, draws, steps - 1); }
        multiset(s);
      }
    }
  }

  /** The questions a quiz on `theme` asks, given the shuffle's draws. */
  function Selection(qs: seq<Question>, theme: string, count: nat, draws: seq<nat>): (r: seq<nat>)
    requires ValidDraws(draws, |ThemeIndices(qs, theme)|)
    ensures |r| == if count < |ThemeIndices(qs, theme)| then count else |ThemeIndices(qs, theme)|
  {
    var shuffled := Shuffled(ThemeIndices(qs, theme), draws, |draws|);
    var n := if count < |shuffled| then count else |shuffled|;
    shuffled[..n]
  }

  /** A quiz asks only questions of its theme, none more often than the theme lists it. */
  lemma {:induction false} SelectionFromTheme(qs: seq<Question>, theme: string, count: nat, draws: seq<nat>)
    requires ValidDraws(draws, |ThemeIndices(qs, theme)|)
    ensures multiset(Selection(qs, theme, count, draws)) <= multiset(ThemeIndices(qs, theme))
  {
    var shuffled := Shuffled(ThemeIndices(qs, theme), draws, |draws|);
    ShuffledPermutes(ThemeIndices(qs, theme), draws, |draws|);
    var n := if count < |shuffled| then count else |shuffled|;
    assert shuffled == shuffled[..n] + shuffled[n..];
  }

  /** A strictly increasing sequence holds each value at most once. */
  lemma {:induction false} IncreasingOnce(s: seq<nat>, x: nat)
    requires StrictlyIncreasing(s)
    ensures multiset(s)[x] <= 1
    decreases |s|
  {
    if s != [] {
      assert s == [s[0]] + s[1..];
      IncreasingOnce(s[1..], x);
      if x == s[0] {
        assert x !in s[1..];
      }
    }
  }

  /** A value at two positions occurs twice. */
  lemma {:induction false} TwiceCounted(s: seq<nat>, i: int, j: int)
    requires 0 <= i < j < |s| && s[i] == s[j]
    ensures multiset(s)[s[i]] >= 2
  {
    assert s == s[..j] + [s[j]] + s[j + 1..];
    assert s[i] in s[..j];
  }

  /** Every question of a quiz has the chosen theme. */
  lemma {:induction false} SelectionTheme(qs: seq<Question>, theme: string, count: nat, draws: seq<nat>)
    requires ValidDraws(draws, |ThemeIndices(qs, theme)|)
    ensures var r := Selection(qs, theme, count, draws);
      forall k :: 0 <= k < |r| ==> r[k] < |qs| && qs[r[k]].theme == theme
  {
    var r := Selection(qs, theme, count, draws);
    var t := ThemeIndices(qs, theme);
    SelectionFromTheme(qs, theme, count, draws);
    forall k | 0 <= k < |r| ensures r[k] < |qs| && qs[r[k]].theme == theme {
      assert r[k] in multiset(t);
    }
  }

  /** No question is asked twice in one quiz. */
  lemma {:induction false} SelectionDistinct(qs: seq<Question>, theme: string, count: nat, draws: seq<nat>)
    requires ValidDraws(draws, |ThemeIndices(qs, theme)|)
    ensures var r := Selection(qs, theme, count, draws);
      forall j, k :: 0 <= j < k < |r| ==> r[j] != r[k]
  {
    var r := Selection(qs, theme, count, draws);
    var t := ThemeIndices(qs, theme);
    SelectionFromTheme(qs, theme, count, draws);
    ThemeIndicesIncreasing(qs, theme);
    forall j, k | 0 <= j < k < |r| ensures r[j] != r[k] {
      if r[j] == r[k] {
        TwiceCounted(r, j, k);
        IncreasingOnce(t, r[j]);
        assert false;
      }
    }
  }

  /** The loop of `startQuizForTheme` that collects the questions of `theme`. */
  method FilterTheme(qs: seq<Question>, theme: string) returns (filtered: seq<nat>)
    ensures filtered == ThemeIndices(qs, theme)
  {
    filtered := [];
    var i := 0;
    while i < |qs|
      invariant 0 <= i <= |qs|
      invariant filtered == ThemeIndices(qs[..i], theme)
    {
      assert qs[..i + 1][..i] == qs[..i];
      if qs[i].theme == theme {
        filtered := filtered + [i];
      }
      i := i + 1;
    }
    assert qs[..i] == qs;
  }

  /** `Collections.shuffle(list)` with the given draws of `nextInt`. */
  method Shuffle(s: seq<nat>, draws: seq<nat>) returns (shuffled: seq<nat>)
    requires ValidDraws(draws, |s|)
    ensures shuffled == Shuffled(s, draws, |draws|)
  {
    var n := |s|;
    shuffled := s;
    var i := n;
    assert Shuffled(s, draws, 0) == s;
    while i > 1
      invariant (n == 0 && i == 0) || 1 <= i <= n
      invariant shuffled == Shuffled(s, draws, n - i)
    {
      var step := n - i;
      assert step < |draws| && draws[step] < i;
      assert Shuffled(s, draws, step + 1) == Swap(Shuffled(s, draws, step), i - 1, draws[step]);
      shuffled := Swap(shuffled, i - 1, draws[step]);
      i := i - 1;
    }
    assert n - i == |draws|;
  }

  /**
   * The first half of `startQuizForTheme`: filter, shuffle, and keep at most `count`
   * of the shuffled questions.
   */
  method ChooseQuestions(qs: seq<Question>, theme: string, count: nat, draws: seq<nat>)
    returns (chosen: seq<nat>)
    requires ValidDraws(draws, |ThemeIndices(qs, theme)|)
    ensures chosen == Selection(qs, theme, count, draws)
    ensures forall k :: 0 <= k < |chosen| ==> chosen[k] < |qs| && qs[chosen[k]].theme == theme
  {
    var filtered := FilterTheme(qs, theme);
    var shuffled := Shuffle(filtered, draws);
    var n := if count > |shuffled| then |shuffled| else count;
    chosen := shuffled[..n];
    SelectionTheme(qs, theme, count, draws);
  }

  // ---------------------------------------------------------------------------
  // The session
  // ---------------------------------------------------------------------------

  class QuizManager {
    /** The catalogue, copied at construction. */
    const allQuestions: seq<Question>
    /** The catalogue positions of the quiz's questions, in the order they are asked. */
    var selection: seq<nat>
    var currentIndex: nat
    var correctCount: nat
    var wrongCount: nat
    var startTime: Option<int>
    var endTime: Option<int>
    var timeLimitSeconds: int
    /** The stored answer text per catalogue position. */
    var userAnswers: map<nat, string>

    ghost predicate Valid()
      reads this
    {
      (forall k :: 0 <= k < |selection| ==> selection[k] < |allQuestions|) &&
      (currentIndex < |selection| || currentIndex == 0) &&
      (forall p :: p in userAnswers ==> p in selection)
    }

    /** A quiz was started; before that Java's list, map and start instant are null. */
    predicate Started()
      reads this
    {
      startTime.Some?
    }

    constructor (all: seq<Question>)
      ensures Valid() && !Started()
      ensures allQuestions == all && selection == [] && currentIndex == 0
      ensures correctCount == 0 && wrongCount == 0 && endTime == None
      ensures timeLimitSeconds == 0 && userAnswers == map[]
    {
      allQuestions := all;
      selection := [];
      currentIndex := 0;
      correctCount := 0;
      wrongCount := 0;
      startTime := None;
      endTime := None;
      timeLimitSeconds := 0;
      userAnswers := map[];
    }

    /** `getQuestionCount`. */
    function QuestionCount(): nat
      reads this
    {
      |selection|
    }

    /** `getCurrentQuestion`; Java throws on an empty quiz. */
    function CurrentQuestion(): (q: Question)
      reads this
      requires Valid() && currentIndex < |selection|
      ensures q in allQuestions
    {
      allQuestions[selection[currentIndex]]
    }

    /**
     * `startQuizForTheme(theme, questionCount)` at instant `now`: filters the
     * catalogue, shuffles with `draws`, keeps the first `questionCount` (or all), and
     * resets the cursor, the score, the end instant and the stored answers. A negative
     * count makes `subList` throw, so it is excluded.
     */
    method StartQuizForTheme(theme: string, questionCount: int, draws: seq<nat>, now: int)
      requires Valid() && questionCount >= 0
      requires ValidDraws(draws, |ThemeIndices(allQuestions, theme)|)
      modifies this
      ensures Valid() && Started()
      ensures selection == Selection(allQuestions, theme, questionCount, draws)
      ensures currentIndex == 0 && correctCount == 0 && wrongCount == 0
      ensures startTime == Some(now) && endTime == None && userAnswers == map[]
      ensures timeLimitSeconds == old(timeLimitSeconds)
    {
      selection := ChooseQuestions(allQuestions, theme, questionCount, draws);
      currentIndex := 0;
      correctCount := 0;
      wrongCount := 0;
      startTime := Some(now);
      endTime := None;
      userAnswers := map[];
    }

    /** `getPercentage`: the share of correct answers among the recorded ones, in percent. */
    function Percentage(): (r: real)
      reads this
      ensures 0.0 <= r <= 100.0
      ensures correctCount + wrongCount == 0 ==> r == 0.0
    {
      var total := correctCount + wrongCount;
      if total == 0 then 0.0 else 100.0 * correctCount as real / total as real
    }

    /** The percentage is the exact share: all correct gives 100, none correct gives 0. */
    lemma PercentageShare()
      ensures Percentage() * (correctCount + wrongCount) as real == 100.0 * correctCount as real
      ensures correctCount + wrongCount > 0 && wrongCount == 0 ==> Percentage() == 100.0
      ensures correctCount == 0 ==> Percentage() == 0.0
    {
      var total := (correctCount + wrongCount) as real;
      if total > 0.0 {
        var c := correctCount as real;
        assert Percentage() == 100.0 * c / total;
        assert 100.0 * c / total * total == 100.0 * c;
      }
    }

    /**
     * `getElapsedSeconds` at instant `now`: whole seconds from the start to the end
     * instant, or to `now` while the quiz is running, rounded down.
     */
    function ElapsedSeconds(now: int): (r: int)
      reads this
      requires Started()
      ensures var span := endTime.GetOr(now) - startTime.value;
        r * NanosPerSecond <= span < (r + 1) * NanosPerSecond
    {
      (endTime.GetOr(now) - startTime.value) / NanosPerSecond
    }

    /** `nextQuestion`: moves on unless the cursor is on the last question. */
    method NextQuestion()
      requires Valid()
      modifies this
      ensures Valid()
      ensures old(currentIndex) + 1 < |selection| ==> currentIndex == old(currentIndex) + 1
      ensures old(currentIndex) + 1 >= |selection| ==> currentIndex == old(currentIndex)
      ensures selection == old(selection) && correctCount == old(correctCount) && wrongCount == old(wrongCount)
      ensures startTime == old(startTime) && endTime == old(endTime)
      ensures timeLimitSeconds == old(timeLimitSeconds) && userAnswers == old(userAnswers)
    {
      if currentIndex < |selection| - 1 {
        currentIndex := currentIndex + 1;
      }
    }

    /** `recordAnswer(correct)`: one more correct or one more wrong answer. */
    method RecordAnswer(correct: bool)
      requires Valid()
      modifies this
      ensures Valid()
      ensures correct ==> correctCount == old(correctCount) + 1 && wrongCount == old(wrongCount)
      ensures !correct ==> wrongCount == old(wrongCount) + 1 && correctCount == old(correctCount)
      ensures selection == old(selection) && currentIndex == old(currentIndex)
      ensures startTime == old(startTime) && endTime == old(endTime)
      ensures timeLimitSeconds == old(timeLimitSeconds) && userAnswers == old(userAnswers)
    {
      if correct {
        correctCount := correctCount + 1;
      } else {
        wrongCount := wrongCount + 1;
      }
    }

    /** `storeAnswer(ans)`: the answer for the current question, replacing an earlier one. */
    method StoreAnswer(ans: string)
      requires Valid() && Started() && currentIndex < |selection|
      modifies this
      ensures Valid()
      ensures selection == old(selection) && currentIndex == old(currentIndex)
      ensures userAnswers == old(userAnswers)[selection[currentIndex] := ans]
      ensures correctCount == old(correctCount) && wrongCount == old(wrongCount)
      ensures startTime == old(startTime) && endTime == old(endTime)
      ensures timeLimitSeconds == old(timeLimitSeconds)
    {
      userAnswers := userAnswers[selection[currentIndex] := ans];
    }

    /** `finish` at instant `now`: every call moves the end instant to `now`. */
    method Finish(now: int)
      requires Valid()
      modifies this
      ensures Valid()
      ensures endTime == Some(now)
      ensures selection == old(selection) && currentIndex == old(currentIndex)
      ensures correctCount == old(correctCount) && wrongCount == old(wrongCount)
      ensures startTime == old(startTime) && timeLimitSeconds == old(timeLimitSeconds)
      ensures userAnswers == old(userAnswers)
    {
      endTime := Some(now);
    }

    method SetTimeLimitSeconds(seconds: int)
      requires Valid()
      modifies this
      ensures Valid()
      ensures timeLimitSeconds == seconds
      ensures selection == old(selection) && currentIndex == old(currentIndex)
      ensures correctCount == old(correctCount) && wrongCount == old(wrongCount)
      ensures startTime == old(startTime) && endTime == old(endTime)
      ensures userAnswers == old(userAnswers)
    {
      timeLimitSeconds := seconds;
    }
  }
}
