/**
 * The panel that shows one question (`QuestionPanel`): the widget state it is built
 * with, the user's edits of that state, and the image-click listeners that set the
 * `answered` and `answerCorrect` flags.
 */
module Panel {
  import opened Wrappers
  import opened JavaLang
  import opened QuestionModel
  import opened Grading

  /**
   * A panel can be built for `q` without an exception: the option list exists where
   * the panel iterates over it, a slider's bounds are not reversed, and an image
   * question names its image.
   */
  predicate Displayable(q: Question) {
    match q.questionType
    case Radio => q.options.Some?
    case Checkbox => q.options.Some?
    case Combobox => q.options.Some?
    case Slider => q.options.Some? && SliderFor(q.options.value) != RangeRejected
    case ImageClick => q.imagePath.Some?
    case _ => true
  }

  /** Some correct area contains the point, scanning the areas in order. */
  function HitsCorrectArea(areas: seq<Rect>, x: int, y: int): (r: bool)
    ensures r <==> exists i :: 0 <= i < |areas| && areas[i].Contains(x, y)
  {
    if areas == [] then false
    else if areas[0].Contains(x, y) then true
    else
      assert forall i :: 1 <= i < |areas| ==> areas[i] == areas[1..][i - 1];
      HitsCorrectArea(areas[1..], x, y)
  }

  /** One unselected button per option, in order. */
  function ButtonsFor(options: seq<string>): (r: seq<OptionButton>)
    ensures |r| == |options|
    ensures forall i :: 0 <= i < |r| ==> r[i] == OptionButton(options[i], false)
  {
    seq(|options|, i requires 0 <= i < |options| => OptionButton(options[i], false))
  }

  class QuestionPanel {
    const question: Question
    /** The size of the loaded image; the clickable region of an image question. */
    const imageWidth: int
    const imageHeight: int
    /** The radio buttons or check boxes, in display order. */
    var buttons: seq<OptionButton>
    /** The text field of a NUMERIC or TEXT question. */
    var text: string
    /** The combo box's items and selected index (-1 when nothing is selected). */
    var comboItems: seq<string>
    var comboIndex: int
    /** The slider, when one was built. */
    var slider: Option<SliderWidget>
    var answered: bool
    var answerCorrect: bool

    ghost predicate Valid()
      reads this
    {
      Displayable(question) &&
      (question.questionType in {Radio, Checkbox} ==>
         |buttons| == |question.options.value| &&
         forall i :: 0 <= i < |buttons| ==> buttons[i].text == question.options.value[i]) &&
      (question.questionType == Radio ==>
         forall i, j :: 0 <= i < j < |buttons| ==> !(buttons[i].selected && buttons[j].selected)) &&
      (question.questionType == Combobox ==> comboItems == question.options.value) &&
      -1 <= comboIndex < |comboItems| &&
      (comboItems != [] ==> comboIndex >= 0) &&
      (slider.Some? ==> slider.value.Valid()) &&
      (!answered ==> !answerCorrect)
    }

    /** The selected combo item; Java's `getSelectedItem` is null when there is none. */
    function ComboItem(): Option<string>
      reads this
      ensures ComboItem().Some? <==> 0 <= comboIndex < |comboItems|
    {
      if 0 <= comboIndex < |comboItems| then Some(comboItems[comboIndex]) else None
    }

    /** What grading and `getUserAnswer` read from the widgets. */
    function Inputs(): PanelInputs
      reads this
    {
      PanelInputs(buttons, text, ComboItem(), slider, answered, answerCorrect)
    }

    /**
     * `new QuestionPanel(q)`: unselected option buttons, an empty text field, a combo
     * box showing its first item, the slider `SliderFor` builds, and no click yet.
     * The image size is what loading the image would report.
     */
    constructor (q: Question, iconWidth: int, iconHeight: int)
      requires Displayable(q)
      ensures Valid()
      ensures question == q && imageWidth == iconWidth && imageHeight == iconHeight
      ensures buttons == (if q.questionType in {Radio, Checkbox} then ButtonsFor(q.options.value) else [])
      ensures text == ""
      ensures ComboItem() == (if q.questionType == Combobox && q.options.value != [] then Some(q.options.value[0]) else None)
      ensures q.questionType == Slider ==> slider == (match SliderFor(q.options.value)
                                                      case Built(s) => Some(s)
                                                      case _ => None)
      ensures q.questionType != Slider ==> slider == None
      ensures !answered && !answerCorrect
    {
      question := q;
      imageWidth := iconWidth;
      imageHeight := iconHeight;
      buttons := if q.questionType in {Radio, Checkbox} then ButtonsFor(q.options.value) else [];
      text := "";
      if q.questionType == Combobox {
        comboItems := q.options.value;
        comboIndex := if q.options.value != [] then 0 else -1;
      } else {
        comboItems := [];
        comboIndex := -1;
      }
      slider := if q.questionType == Slider && SliderFor(q.options.value).Built?
                then Some(SliderFor(q.options.value).slider) else None;
      answered := false;
      answerCorrect := false;
    }

    /**
     * A click on the image of an IMAGE_CLICK question. The transparent buttons over
     * the correct areas lie on top of the button covering the whole image, so a click
     * in a correct area answers correctly, a click elsewhere on the image answers
     * wrongly, and a click off the image reaches no button. The last click wins.
     */
    method ClickImage(x: int, y: int)
      requires Valid() && question.questionType == ImageClick
      modifies this
      ensures Valid()
      ensures buttons == old(buttons) && text == old(text) && slider == old(slider)
      ensures comboItems == old(comboItems) && comboIndex == old(comboIndex)
      ensures HitsCorrectArea(question.correctAreas, x, y) ==> answered && answerCorrect
      ensures !HitsCorrectArea(question.correctAreas, x, y) && Rect(0, 0, imageWidth, imageHeight).Contains(x, y) ==>
        answered && !answerCorrect
      ensures !HitsCorrectArea(question.correctAreas, x, y) && !Rect(0, 0, imageWidth, imageHeight).Contains(x, y) ==>
        answered == old(answered) && answerCorrect == old(answerCorrect)
      ensures CheckAnswer(question, Inputs()) == (answered && answerCorrect)
    {
      if HitsCorrectArea(question.correctAreas, x, y) {
        answerCorrect := true;
        answered := true;
      } else if Rect(0, 0, imageWidth, imageHeight).Contains(x, y) {
        answerCorrect := false;
        answered := true;
      }
    }

    /**
     * The user clicks option `i`: a radio button becomes the only selected one of
     * its group; a check box flips.
     */
    method ClickOption(i: int)
      requires Valid() && question.questionType in {Radio, Checkbox} && 0 <= i < |buttons|
      modifies this
      ensures Valid()
      ensures |buttons| == |old(buttons)|
      ensures forall j :: 0 <= j < |buttons| ==> buttons[j].text == old(buttons)[j].text
      ensures question.questionType == Radio ==>
        forall j :: 0 <= j < |buttons| ==> buttons[j].selected == (j == i)
      ensures question.questionType == Checkbox ==>
        forall j :: 0 <= j < |buttons| ==>
          buttons[j].selected == (if j == i then !old(buttons)[j].selected else old(buttons)[j].selected)
      ensures question.questionType == Radio ==> FirstSelected(buttons) == Some(buttons[i].text)
      ensures text == old(text) && slider == old(slider) && comboItems == old(comboItems)
      ensures comboIndex == old(comboIndex) && answered == old(answered) && answerCorrect == old(answerCorrect)
    {
      var b := buttons;
      if question.questionType == Radio {
        buttons := seq(|b|, j requires 0 <= j < |b| => OptionButton(b[j].text, j == i));
        assert FirstSelectedAt(buttons, i);
      } else {
        buttons := b[i := OptionButton(b[i].text, !b[i].selected)];
      }
    }

    /** The user types into the text field. */
    method TypeText(s: string)
      requires Valid()
      modifies this
      ensures Valid()
      ensures text == s
      ensures buttons == old(buttons) && slider == old(slider) && comboItems == old(comboItems)
      ensures comboIndex == old(comboIndex) && answered == old(answered) && answerCorrect == old(answerCorrect)
    {
      text := s;
    }

    /** The user picks item `i` of the combo box. */
    method ChooseComboItem(i: int)
      requires Valid() && 0 <= i < |comboItems|
      modifies this
      ensures Valid()
      ensures comboItems == old(comboItems) && ComboItem() == Some(old(comboItems)[i])
      ensures buttons == old(buttons) && text == old(text) && slider == old(slider)
      ensures answered == old(answered) && answerCorrect == old(answerCorrect)
    {
      comboIndex := i;
    }

    /** The user drags the slider; `JSlider.setValue` keeps the value within the bounds. */
    method MoveSlider(v: int)
      requires Valid() && slider.Some?
      modifies this
      ensures Valid()
      ensures slider.Some? && slider.value.min == old(slider).value.min && slider.value.max == old(slider).value.max
      ensures slider.value.min <= v <= slider.value.max ==> slider.value.value == v
      ensures v < slider.value.min ==> slider.value.value == slider.value.min
      ensures v > slider.value.max ==> slider.value.value == slider.value.max
      ensures buttons == old(buttons) && text == old(text) && comboItems == old(comboItems)
      ensures comboIndex == old(comboIndex) && answered == old(answered) && answerCorrect == old(answerCorrect)
    {
      var s := slider.value;
      var w := if v < s.min then s.min else if v > s.max then s.max else v;
      slider := Some(SliderWidget(s.min, s.max, w));
    }
  }
}
