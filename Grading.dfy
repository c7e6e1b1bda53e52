/**
 * Grading of one answer and the text stored for it (`QuestionPanel.checkAnswer`,
 * `QuestionPanel.getUserAnswer`) and the slider set-up of the panel, as total
 * functions of what the widgets hold.
 */
module Grading {
  import opened Wrappers
  import opened JavaLang
  import opened QuestionModel

  /** A radio button or check box: its label and whether it is selected. */
  datatype OptionButton = OptionButton(text: string, selected: bool)

  /** A `JSlider`: its bounds and its current value. */
  datatype SliderWidget = SliderWidget(min: int, max: int, value: int) {
    predicate Valid() {
      MinInt <= min <= value <= max <= MaxInt
    }
  }

  /**
   * What the widgets of a question panel hold when the answer is graded: the option
   * buttons in display order, the text field, the combo box's selected item (None
   * for a null selection), the slider when one was built, and the two flags the
   * image-click listeners set.
   */
  datatype PanelInputs = PanelInputs(
    buttons: seq<OptionButton>,
    text: string,
    comboItem: Option<string>,
    slider: Option<SliderWidget>,
    answered: bool,
    answerCorrect: bool)

  // ---------------------------------------------------------------------------
  // Slider set-up
  // ---------------------------------------------------------------------------

  /**
   * What building the slider of a SLIDER question ends in: a label saying the range
   * is invalid (fewer than two options), a label saying the values are invalid (a
   * bound or the default does not parse), a slider, or the `IllegalArgumentException`
   * `JSlider` throws for a lower bound above the upper one, which nothing catches.
   */
  datatype SliderSetup = InvalidRange | InvalidValues | Built(slider: SliderWidget) | RangeRejected

  /** `Math.max(lo, Math.min(hi, v))`. */
  function ClampInto(v: int, lo: int, hi: int): int {
    var below := if hi < v then hi else v;
    if lo > below then lo else below
  }

  /** Reads an option as `Integer.parseInt(option.trim())` does. */
  function OptionInt(option: string): Option<int> {
    ParseInt(Trim(option))
  }

  /** The slider built from the options `[min, max]` or `[min, max, default, ...]`. */
  function SliderFor(options: seq<string>): (r: SliderSetup)
    ensures |options| < 2 <==> r == InvalidRange
    ensures r == InvalidValues <==>
      |options| >= 2 &&
      (OptionInt(options[0]).None? || OptionInt(options[1]).None? ||
       (|options| > 2 && OptionInt(options[2]).None?))
    ensures r == RangeRejected <==>
      |options| >= 2 && OptionInt(options[0]).Some? && OptionInt(options[1]).Some? &&
      (|options| > 2 ==> OptionInt(options[2]).Some?) &&
      OptionInt(options[0]).value > OptionInt(options[1]).value
    ensures r.Built? ==>
      r.slider.Valid() &&
      OptionInt(options[0]) == Some(r.slider.min) &&
      OptionInt(options[1]) == Some(r.slider.max)
    ensures r.Built? && |options| == 2 ==> r.slider.value == r.slider.min
    ensures r.Built? && |options| > 2 ==>
      var d := OptionInt(options[2]).value;
      (r.slider.min <= d <= r.slider.max ==> r.slider.value == d) &&
      (d < r.slider.min ==> r.slider.value == r.slider.min) &&
      (d > r.slider.max ==> r.slider.value == r.slider.max)
  {
    if |options| < 2 then InvalidRange
    else
      match (OptionInt(options[0]), OptionInt(options[1]))
      case (Some(lo), Some(hi)) =>
        if |options| > 2 && OptionInt(options[2]).None? then InvalidValues
        else
          var initial := if |options| > 2 then ClampInto(OptionInt(options[2]).value, lo, hi) else lo;
          // new JSlider(min, max, value) rejects any value outside [min, max].
          if lo <= initial <= hi then Built(SliderWidget(lo, hi, initial)) else RangeRejected
      case _ => InvalidValues
  }

  // ---------------------------------------------------------------------------
  // Reading the widgets
  // ---------------------------------------------------------------------------

  /** Button `i` is selected and no button before it is. */
  predicate FirstSelectedAt(buttons: seq<OptionButton>, i: int) {
    0 <= i < |buttons| && buttons[i].selected && forall j :: 0 <= j < i ==> !buttons[j].selected
  }

  /** The label of the first selected button, scanning in display order. */
  function FirstSelected(buttons: seq<OptionButton>): (r: Option<string>)
    ensures r.None? <==> forall i :: 0 <= i < |buttons| ==> !buttons[i].selected
    ensures forall i :: FirstSelectedAt(buttons, i) ==> r == Some(buttons[i].text)
  {
    if buttons == [] then None
    else if buttons[0].selected then Some(buttons[0].text)
    else
      var r := FirstSelected(buttons[1..]);
      assert forall i :: FirstSelectedAt(buttons, i) ==> i > 0 && FirstSelectedAt(buttons[1..], i - 1);
      r
  }

  /** The labels of the selected buttons, in display order. */
  function SelectedTexts(buttons: seq<OptionButton>): (r: seq<string>)
    ensures |r| <= |buttons|
    ensures forall t :: t in r <==> exists i :: 0 <= i < |buttons| && buttons[i].selected && buttons[i].text == t
  {
    if buttons == [] then []
    else
      var rest := SelectedTexts(buttons[1..]);
      assert forall i :: 1 <= i < |buttons| ==> buttons[i] == buttons[1..][i - 1];
      if buttons[0].selected then [buttons[0].text] + rest else rest
  }

  // ---------------------------------------------------------------------------
  // Comparing with the accepted answers
  // ---------------------------------------------------------------------------

  /** Each text through `Question.normalize`. */
  function NormalizeEach(texts: seq<string>): (r: seq<string>)
    ensures |r| == |texts|
    ensures forall k :: 0 <= k < |texts| ==> r[k] == Normalize(Some(texts[k]))
  {
    seq(|texts|, k requires 0 <= k < |texts| => Normalize(Some(texts[k])))
  }

  /** Some accepted answer normalises to `a`. */
  predicate Accepts(answers: seq<string>, a: string) {
    a in NormalizeEach(answers)
  }

  /** `answers.stream().anyMatch(c -> normalize(c).equals(a))`, scanning in order. */
  function AnyMatch(answers: seq<string>, a: string): (r: bool)
    ensures r <==> Accepts(answers, a)
  {
    if answers == [] then false
    else
      assert NormalizeEach(answers) == [Normalize(Some(answers[0]))] + NormalizeEach(answers[1..]);
      if Normalize(Some(answers[0])) == a then true
      else AnyMatch(answers[1..], a)
  }

  /** The set a `HashSet` filled with `xs` holds. */
  function SetOf(xs: seq<string>): (r: set<string>)
    ensures forall a :: a in r <==> a in xs
  {
    if xs == [] then {} else {xs[0]} + SetOf(xs[1..])
  }

  /** Some accepted answer, normalised, parses as the integer `v`; the others are skipped. */
  function SliderMatch(answers: seq<string>, v: int): (r: bool)
    ensures r <==> exists k :: 0 <= k < |answers| && ParseInt(Normalize(Some(answers[k]))) == Some(v)
  {
    if answers == [] then false
    else if ParseInt(Normalize(Some(answers[0]))) == Some(v) then true
    else
      assert forall k :: 1 <= k < |answers| ==> answers[k] == answers[1..][k - 1];
      SliderMatch(answers[1..], v)
  }

  /** `Math.abs(ans - correct) < 0.000001`. */
  const Tolerance: real := 0.000001

  predicate Close(a: real, b: real) {
    -Tolerance < a - b < Tolerance
  }

  // ---------------------------------------------------------------------------
  // checkAnswer
  // ---------------------------------------------------------------------------

  /**
   * Grading reads the accepted answers (a null list throws) exactly when: a radio
   * button is selected, the question is a check-box, numeric, text or combo-box one,
   * or a slider was built.
   */
  predicate ReadsAnswers(q: Question, inputs: PanelInputs) {
    match q.questionType
    case Radio => FirstSelected(inputs.buttons).Some?
    case Slider => inputs.slider.Some?
    case ImageClick => false
    case _ => true
  }

  /** The RADIO case: the first selected label matches an accepted answer; no selection is wrong. */
  function RadioCorrect(buttons: seq<OptionButton>, answers: seq<string>): (r: bool)
    ensures r <==> exists i :: FirstSelectedAt(buttons, i) && Accepts(answers, Normalize(Some(buttons[i].text)))
  {
    match FirstSelected(buttons)
    case None => false
    case Some(t) =>
      assert exists i :: FirstSelectedAt(buttons, i) by {
        var i :| 0 <= i < |buttons| && buttons[i].selected;
        FirstSelectedExists(buttons, i);
      }
      AnyMatch(answers, Normalize(Some(t)))
  }

  /** A selected button has a first selected one at or before it. */
  lemma {:induction false} FirstSelectedExists(buttons: seq<OptionButton>, i: int)
    requires 0 <= i < |buttons| && buttons[i].selected
    ensures exists j :: 0 <= j <= i && FirstSelectedAt(buttons, j)
    decreases i
  {
    if exists j :: 0 <= j < i && buttons[j].selected {
      var j :| 0 <= j < i && buttons[j].selected;
      FirstSelectedExists(buttons, j);
    } else {
      assert FirstSelectedAt(buttons, i);
    }
  }

  /**
   * The CHECKBOX case: the normalised checked labels and the normalised accepted
   * answers form the same set, so order and repetitions do not matter.
   */
  function CheckboxCorrect(buttons: seq<OptionButton>, answers: seq<string>): (r: bool)
    ensures r <==>
      (forall i :: 0 <= i < |buttons| && buttons[i].selected ==> Accepts(answers, Normalize(Some(buttons[i].text)))) &&
      (forall a :: a in NormalizeEach(answers) ==>
         exists i :: 0 <= i < |buttons| && buttons[i].selected && Normalize(Some(buttons[i].text)) == a)
  {
    var checked := NormalizeEach(SelectedTexts(buttons));
    CheckedLabels(buttons);
    SetOf(checked) == SetOf(NormalizeEach(answers))
  }

  /** The normalised checked labels are those of the selected buttons. */
  lemma {:induction false} CheckedLabels(buttons: seq<OptionButton>)
    ensures forall a :: a in NormalizeEach(SelectedTexts(buttons)) <==>
      exists i :: 0 <= i < |buttons| && buttons[i].selected && Normalize(Some(buttons[i].text)) == a
  {
    var s := SelectedTexts(buttons);
    var n := NormalizeEach(s);
    forall a | a in n
      ensures exists i :: 0 <= i < |buttons| && buttons[i].selected && Normalize(Some(buttons[i].text)) == a
    {
      var k :| 0 <= k < |n| && n[k] == a;
      assert s[k] in s;
    }
    forall a, i | 0 <= i < |buttons| && buttons[i].selected && Normalize(Some(buttons[i].text)) == a
      ensures a in n
    {
      assert buttons[i].text in s;
      var k :| 0 <= k < |s| && s[k] == buttons[i].text;
      assert n[k] == a;
    }
  }

  /**
   * The NUMERIC case: only the first accepted answer is compared; an input or
   * answer that does not parse, or an empty answer list, is wrong.
   */
  function NumericCorrect(text: string, answers: seq<string>): (r: bool)
    ensures r <==>
      |answers| > 0 &&
      ParseDouble(Normalize(Some(text))).Some? && ParseDouble(Normalize(Some(answers[0]))).Some? &&
      Close(ParseDouble(Normalize(Some(text))).value, ParseDouble(Normalize(Some(answers[0]))).value)
  {
    if answers == [] then false
    else
      match (ParseDouble(Normalize(Some(text))), ParseDouble(Normalize(Some(answers[0]))))
      case (Some(given), Some(expected)) => Close(given, expected)
      case _ => false
  }

  /** The SLIDER case: no slider is wrong; otherwise some accepted answer parses as its value. */
  function SliderCorrect(slider: Option<SliderWidget>, answers: seq<string>): (r: bool)
    ensures r <==> (slider.Some? &&
      exists k :: 0 <= k < |answers| && ParseInt(Normalize(Some(answers[k]))) == Some(slider.value.value))
  {
    match slider
    case None => false
    case Some(s) => SliderMatch(answers, s.value)
  }

  /** `QuestionPanel.checkAnswer`: one case per question type. */
  function CheckAnswer(q: Question, inputs: PanelInputs): (r: bool)
    requires ReadsAnswers(q, inputs) ==> q.answers.Some?
    ensures q.questionType == Text ==> (r <==> Accepts(q.answers.GetOr([]), Normalize(Some(inputs.text))))
    ensures q.questionType == Combobox ==> (r <==> Accepts(q.answers.GetOr([]), Normalize(inputs.comboItem)))
    ensures q.questionType == ImageClick ==> (r <==> inputs.answered && inputs.answerCorrect)
  {
    var answers := q.answers.GetOr([]);
    match q.questionType
    case Radio => RadioCorrect(inputs.buttons, answers)
    case Checkbox => CheckboxCorrect(inputs.buttons, answers)
    case Numeric => NumericCorrect(inputs.text, answers)
    case Text => AnyMatch(answers, Normalize(Some(inputs.text)))
    case Combobox => AnyMatch(answers, Normalize(inputs.comboItem))
    case Slider => SliderCorrect(inputs.slider, answers)
    case ImageClick => inputs.answered && inputs.answerCorrect
  }

  // ---------------------------------------------------------------------------
  // getUserAnswer
  // ---------------------------------------------------------------------------

  /** `QuestionPanel.getUserAnswer`: the text the session stores for the question. */
  function UserAnswer(q: Question, inputs: PanelInputs): (r: string)
    ensures q.questionType == Radio ==>
      (FirstSelected(inputs.buttons).None? ==> r == "") &&
      forall i :: FirstSelectedAt(inputs.buttons, i) ==> r == inputs.buttons[i].text
    ensures q.questionType == Checkbox && SelectedTexts(inputs.buttons) == [] ==> r == ""
    ensures q.questionType == Slider && inputs.slider.Some? && inputs.slider.value.Valid() ==>
      ParseInt(Normalize(Some(r))) == Some(inputs.slider.value.value)
    ensures q.questionType == ImageClick ==>
      (r == "correct" <==> inputs.answered && inputs.answerCorrect) &&
      (r == "" <==> !inputs.answered)
  {
    match q.questionType
    case Radio => FirstSelected(inputs.buttons).GetOr("")
    case Checkbox => Join(", ", SelectedTexts(inputs.buttons))
    case Numeric => inputs.text
    case Text => inputs.text
    case ImageClick => if inputs.answered then (if inputs.answerCorrect then "correct" else "wrong") else ""
    case Combobox => inputs.comboItem.GetOr("")
    case Slider =>
      (match inputs.slider
       case None => ""
       case Some(s) =>
         SliderTextRoundTrip(s.value);
         IntToString(s.value))
  }

  /** The stored slider text normalises to itself and parses back to the slider value. */
  lemma {:induction false} SliderTextRoundTrip(v: int)
    ensures Normalize(Some(IntToString(v))) == IntToString(v)
    ensures MinInt <= v <= MaxInt ==> ParseInt(Normalize(Some(IntToString(v)))) == Some(v)
  {
    NormalizeClean(IntToString(v));
    if MinInt <= v <= MaxInt {
      ParseIntOfIntToString(v);
    }
  }

  // ---------------------------------------------------------------------------
  // Properties of the grading
  // ---------------------------------------------------------------------------

  /**
   * Except for the check boxes and numbers, the stored answer text carries all that
   * grading looked at: grading the stored text gives the same verdict.
   */
  lemma {:induction false} GradeFromStoredAnswer(q: Question, inputs: PanelInputs)
    requires ReadsAnswers(q, inputs) ==> q.answers.Some?
    ensures var stored, ans := UserAnswer(q, inputs), q.answers.GetOr([]);
      (q.questionType == Radio ==>
         (CheckAnswer(q, inputs) <==> FirstSelected(inputs.buttons).Some? && Accepts(ans, Normalize(Some(stored))))) &&
      (q.questionType in {Text, Combobox} ==> (CheckAnswer(q, inputs) <==> Accepts(ans, Normalize(Some(stored))))) &&
      (q.questionType == Slider && inputs.slider.Some? && inputs.slider.value.Valid() ==>
         (CheckAnswer(q, inputs) <==> SliderMatch(ans, ParseInt(Normalize(Some(stored))).value))) &&
      (q.questionType == ImageClick ==> (CheckAnswer(q, inputs) <==> stored == "correct"))
  {
    var ans := q.answers.GetOr([]);
    match q.questionType
    case Radio =>
      if FirstSelected(inputs.buttons).Some? {
        var i :| 0 <= i < |inputs.buttons| && inputs.buttons[i].selected;
        FirstSelectedExists(inputs.buttons, i);
      }
    case Combobox =>
      if inputs.comboItem.None? {
        assert Trim("") == "";
        assert Normalize(Some("")) == "";
      }
    case _ =>
  }

  /** Checking the same boxes shown in another order gives the same verdict. */
  lemma {:induction false} CheckboxOrderIrrelevant(b1: seq<OptionButton>, b2: seq<OptionButton>, answers: seq<string>)
    requires multiset(b1) == multiset(b2)
    ensures CheckboxCorrect(b1, answers) == CheckboxCorrect(b2, answers)
  {
    var c1, c2 := NormalizeEach(SelectedTexts(b1)), NormalizeEach(SelectedTexts(b2));
    CheckedLabels(b1);
    CheckedLabels(b2);
    forall a | a in c1 ensures a in c2 {
      var i :| 0 <= i < |b1| && b1[i].selected && Normalize(Some(b1[i].text)) == a;
      assert b1[i] in multiset(b2);
      var j :| 0 <= j < |b2| && b2[j] == b1[i];
    }
    forall a | a in c2 ensures a in c1 {
      var j :| 0 <= j < |b2| && b2[j].selected && Normalize(Some(b2[j].text)) == a;
      assert b2[j] in multiset(b1);
      var i :| 0 <= i < |b1| && b1[i] == b2[j];
    }
    assert SetOf(c1) == SetOf(c2);
  }

  /** Checking only part of the accepted answers is wrong. */
  lemma {:induction false} CheckboxMissingAnswer(buttons: seq<OptionButton>, answers: seq<string>, k: int)
    requires 0 <= k < |answers|
    requires forall i :: 0 <= i < |buttons| && buttons[i].selected ==>
      Normalize(Some(buttons[i].text)) != Normalize(Some(answers[k]))
    ensures !CheckboxCorrect(buttons, answers)
  {
    assert NormalizeEach(answers)[k] in NormalizeEach(answers);
  }

  /** Checking an option that is not accepted is wrong, whatever else is checked. */
  lemma {:induction false} CheckboxExtraOption(buttons: seq<OptionButton>, answers: seq<string>, i: int)
    requires 0 <= i < |buttons| && buttons[i].selected
    requires !Accepts(answers, Normalize(Some(buttons[i].text)))
    ensures !CheckboxCorrect(buttons, answers)
  {
  }

  /** A whole number followed by `.0` is already in normal form. */
  lemma {:induction false} TrailingZeroNormal(n: nat)
    ensures Normalize(Some(NatToDigits(n) + ".0")) == NatToDigits(n) + ".0"
  {
    var typed := NatToDigits(n) + ".0";
    assert forall i :: 0 <= i < |typed| ==> typed[i] == '.' || IsDigit(typed[i]);
    NormalizeClean(typed);
  }

  /** A whole number followed by `.0` parses as the number. */
  lemma {:induction false} TrailingZeroValue(n: nat)
    ensures ParseDouble(NatToDigits(n) + ".0") == Some(n as real)
  {
    var d, z := NatToDigits(n), "0";
    assert IsDigits(z) && |z| == 1;
    assert DigitsValue(z) == 0 by {
      assert z[..0] == [];
    }
    var v := DecimalValue(DigitsValue(d), DigitsValue(z), |z|, 0);
    assert v == DecimalValue(n, 0, 1, 0);
    calc {
      ParseDouble(NatToDigits(n) + ".0");
      { assert d + "." + z == d + ".0"; }
      ParseDouble(d + "." + z);
      { ParseDoubleOfPoint(d, z); }
      Some(v);
      { DecimalValueWhole(n, 1); }
      Some(n as real);
    }
  }

  /** A number typed with a trailing `.0` is graded equal to the accepted whole number. */
  lemma {:induction false} NumericTrailingZero(n: nat)
    ensures NumericCorrect(NatToDigits(n) + ".0", [NatToDigits(n)])
  {
    TrailingZeroNormal(n);
    TrailingZeroValue(n);
    SliderTextRoundTrip(n);
    ParseDoubleOfIntToString(n);
    assert IntToString(n) == NatToDigits(n);
  }
}
