/**
 * The fixed question catalogue (`QuestionBank.getAllQuestions`): twelve questions for
 * each of three themes, in theme order, and the shape every entry has.
 */
module Catalogue {
  import opened Wrappers
  import opened JavaLang
  import opened QuestionModel
  import opened Grading
  import opened Session
  import opened Panel

  const Theme1: string := "ifs loops and operators"
  const Theme2: string := "strings arrays and pointers"
  const Theme3: string := "functions structs and memory"

  /** The themes in the order the start screen offers them. */
  const Themes: seq<string> := [Theme1, Theme2, Theme3]

  const ClickTheBug: string :=
    "Click the bug (once clicked press next, clicking again will overwrite your first answer)."

  // ---------------------------------------------------------------------------
  // The shape of a catalogue entry
  // ---------------------------------------------------------------------------

  /** Options and answers are present and every accepted answer is verbatim an option. */
  predicate AnswersAmongOptions(q: Question) {
    q.options.Some? && q.answers.Some? &&
    forall k :: 0 <= k < |q.answers.value| ==> q.answers.value[k] in q.options.value
  }

  /**
   * The slider options are `[min, max, default]` integers with the default inside the
   * bounds, and the single accepted answer reads as an integer inside the bounds.
   */
  predicate SliderShape(q: Question) {
    q.options.Some? && |q.options.value| == 3 && q.answers.Some? && |q.answers.value| == 1 &&
    var o := q.options.value;
    var lo, hi, d := OptionInt(o[0]), OptionInt(o[1]), OptionInt(o[2]);
    var v := ParseInt(Normalize(Some(q.answers.value[0])));
    lo.Some? && hi.Some? && d.Some? && v.Some? &&
    lo.value <= d.value <= hi.value && lo.value <= v.value <= hi.value
  }

  /** What every catalogue entry of each type looks like. */
  predicate WellFormed(q: Question) {
    match q.questionType
    case Radio => AnswersAmongOptions(q) && |q.answers.value| == 1
    case Combobox => AnswersAmongOptions(q) && |q.answers.value| == 1
    case Checkbox => AnswersAmongOptions(q) && q.answers.value != []
    case Numeric => q.options.None? && q.answers.Some? && q.answers.value != []
    case Text => q.options.None? && q.answers.Some? && q.answers.value != []
    case Slider => SliderShape(q)
    case ImageClick =>
      q.options.None? && q.answers.None? && q.imagePath.Some? &&
      |q.correctAreas| == 1 && q.correctAreas[0].width > 0 && q.correctAreas[0].height > 0
  }

  // ---------------------------------------------------------------------------
  // Integer literals of the slider questions
  // ---------------------------------------------------------------------------

  /** A literal integer option or answer reads back as its value, however it is read. */
  lemma {:induction false} IntLiteral(s: string, n: int)
    requires MinInt <= n <= MaxInt && s == IntToString(n)
    ensures OptionInt(s) == Some(n) && ParseInt(Normalize(Some(s))) == Some(n)
  {
    assert Trim(s) == s;
    NormalizeClean(s);
    ParseIntOfIntToString(n);
  }

  lemma SmallLiterals()
    ensures IntToString(0) == "0" && IntToString(2) == "2" && IntToString(3) == "3"
    ensures IntToString(4) == "4" && IntToString(5) == "5" && IntToString(6) == "6"
    ensures IntToString(8) == "8"
  {
  }

  lemma NegativeLiterals()
    ensures IntToString(-4) == "-4" && IntToString(-8) == "-8" && IntToString(-16) == "-16"
  {
    assert NatToDigits(16) == NatToDigits(1) + [DigitChar(6)];
  }

  lemma TwelveLiteral()
    ensures IntToString(12) == "12"
  {
    assert NatToDigits(12) == NatToDigits(1) + [DigitChar(2)];
  }

  /** A slider question `[lo, hi, d]` with answer `a`, all written as plain integers. */
  lemma {:induction false} SliderLiterals(q: Question, lo: int, hi: int, d: int, v: int)
    requires q.questionType == Slider && MinInt <= lo <= d <= hi <= MaxInt && lo <= v <= hi
    requires q.options == Some([IntToString(lo), IntToString(hi), IntToString(d)])
    requires q.answers == Some([IntToString(v)])
    ensures WellFormed(q)
  {
    var o := q.options.value;
    assert OptionInt(o[0]) == Some(lo) by { IntLiteral(IntToString(lo), lo); }
    assert OptionInt(o[1]) == Some(hi) by { IntLiteral(IntToString(hi), hi); }
    assert OptionInt(o[2]) == Some(d) by { IntLiteral(IntToString(d), d); }
    assert ParseInt(Normalize(Some(q.answers.value[0]))) == Some(v) by { IntLiteral(IntToString(v), v); }
    assert SliderShape(q);
  }

  // ---------------------------------------------------------------------------
  // The questions, in the order they are added
  // ---------------------------------------------------------------------------

  /** `q` belongs to `theme` and has the shape its type asks for. */
  predicate OfTheme(q: Question, theme: string) {
    q.theme == theme && WellFormed(q)
  }

  /** `r` is `list` with one more question of `theme` and type `t`, of the shape that type asks for. */
  predicate Appended(list: seq<Question>, r: seq<Question>, theme: string, t: QuestionType) {
    |r| == |list| + 1 && r[..|list|] == list &&
    r[|list|].questionType == t && OfTheme(r[|list|], theme)
  }

  /** `r` is `list` followed by questions of `theme`, each of the shape its type asks for. */
  predicate Extended(list: seq<Question>, r: seq<Question>, theme: string) {
    |list| <= |r| && r[..|list|] == list &&
    forall i :: |list| <= i < |r| ==> OfTheme(r[i], theme)
  }

  /** One more well-formed question of the theme extends the run. */
  lemma {:induction false} Grow(list: seq<Question>, r: seq<Question>, next: seq<Question>, theme: string,
                                t: QuestionType)
    requires Extended(list, r, theme) && Appended(r, next, theme, t)
    ensures Extended(list, next, theme) && |next| == |r| + 1
  {
    var q := next[|r|];
    assert next == r + [q] by {
      assert next[..|r|] == r;
    }
    assert next[..|list|] == list by {
      assert next[..|list|] == r[..|list|];
    }
    forall i | |list| <= i < |next| ensures OfTheme(next[i], theme) {
      if i < |r| {
        assert next[i] == r[i];
      }
    }
  }

  method AddIfs1(list: seq<Question>) returns (r: seq<Question>)
    ensures Appended(list, r, Theme1, Radio)
  {
    r := list + [PlainQuestion(Theme1, "Output of if (a) with a=0?", Radio,
      Some(["yes", "no", "error"]),
      Some(["no"]),
      Some("Booleans are integers."))];
  }

  method AddIfs2(list: seq<Question>) returns (r: seq<Question>)
    ensures Appended(list, r, Theme1, Checkbox)
  {
    r := list + [PlainQuestion(Theme1, "Valid loop types in C?", Checkbox,
      Some(["for", "for each", "while", "do while"]),
      Some(["for", "while", "do while"]),
      Some("C has no for each loop."))];
  }

  method AddIfs3(list: seq<Question>) returns (r: seq<Question>)
    ensures Appended(list, r, Theme1, Text)
  {
    r := list + [PlainQuestion(Theme1, "(x > 0 ? x : -x) computes?", Text,
      None,
      Some(["absolute value", "abs", "absolute"]),
      Some("Absolute value."))];
  }

  method AddIfs4(list: seq<Question>) returns (r: seq<Question>)
    ensures Appended(list, r, Theme1, Radio)
  {
    r := list + [PlainQuestion(Theme1, "while(++i < 3) prints?", Radio,
      Some(["0 1 2", "1 2", "1 2 3", "2 3", "0 1 2 3", "error"]),
      Some(["1 2"]),
      Some("++i increments first."))];
  }

  method AddIfs5(list: seq<Question>) returns (r: seq<Question>)
    ensures Appended(list, r, Theme1, Radio)
  {
    r := list + [PlainQuestion(Theme1, "Always true if bit 0 is 1?", Radio,
      Some(["(x & 1) != 1", "x == 1", "x == 0", "(x ^ 1) == 1", "(x | 1) != 0"]),
      Some(["(x | 1) != 0"]),
      Some("Look up bitwise operators."))];
  }

  method AddIfs6(list: seq<Question>) returns (r: seq<Question>)
    ensures Appended(list, r, Theme1, Text)
  {
    r := list + [PlainQuestion(Theme1, "Why store a condition first?", Text,
      None,
      Some([
        "for clarity",
        "reuse result",
        "to avoid recomputing",
        "to reuse result",
        "for simplicity",
        "for reusability",
        "to reuse result",
        "to avoid recomputation",
        "avoid recomputing",
        "for clarity and reusability"]),
      Some("Clarity and reusability."))];
  }

  method AddIfs7(list: seq<Question>) returns (r: seq<Question>)
    ensures Appended(list, r, Theme1, Numeric)
  {
    r := list + [PlainQuestion(Theme1, "do-while with i-- runs?", Numeric,
      None,
      Some(["2"]),
      Some("Body first, then i--."))];
  }

  method AddIfs8(list: seq<Question>) returns (r: seq<Question>)
    ensures Appended(list, r, Theme1, ImageClick)
  {
    r := list + [Question(Theme1, ClickTheBug, ImageClick, None, None, Some("Look at the if condition."),
      Some("images/bitwise_instead_of_logical.png"), [Rect(65, 121, 57, 17)])];
  }

  method AddIfs9(list: seq<Question>) returns (r: seq<Question>)
    ensures Appended(list, r, Theme1, ImageClick)
  {
    r := list + [Question(Theme1, ClickTheBug, ImageClick, None, None, Some("Look at the loop condition."),
      Some("images/no_incrementation.png"), [Rect(96, 98, 70, 18)])];
  }

  method AddIfs10(list: seq<Question>) returns (r: seq<Question>)
    ensures Appended(list, r, Theme1, Slider)
  {
    SmallLiterals();
    var q := PlainQuestion(Theme1, "How often does printf run?", Slider,
      Some(["0", "6", "3"]),
      Some(["2"]),
      Some("i++ uses the old value."));
    SliderLiterals(q, 0, 6, 3, 2);
    r := list + [q];
  }

  method AddIfs11(list: seq<Question>) returns (r: seq<Question>)
    ensures Appended(list, r, Theme1, Slider)
  {
    SmallLiterals();
    NegativeLiterals();
    var q := PlainQuestion(Theme1, "x = -8; x >>= 1; x?", Slider,
      Some(["-16", "-4", "-8"]),
      Some(["-4"]),
      Some("Arithmetic shift."));
    SliderLiterals(q, -16, -4, -8, -4);
    r := list + [q];
  }

  method AddIfs12(list: seq<Question>) returns (r: seq<Question>)
    ensures Appended(list, r, Theme1, Combobox)
  {
    r := list + [PlainQuestion(Theme1, "5 + 3 * 2 >> 1 equals?", Combobox,
      Some(["1", "2", "3", "5", "6", "8", "11", "error"]),
      Some(["5"]),
      Some("Shifts bind last."))];
  }

  method AddStrings1(list: seq<Question>) returns (r: seq<Question>)
    ensures Appended(list, r, Theme2, Radio)
  {
    r := list + [PlainQuestion(Theme2, "How is a C string stored?", Radio,
      Some([
        "Array of chars terminated by '\\0'",
        "Linked list of chars",
        "Pointer with length field",
        "UTF-8 object",
        "Strings are a primitive data type"]),
      Some(["Array of chars terminated by '\\0'"]),
      Some("Chars in a structure."))];
  }

  method AddStrings2(list: seq<Question>) returns (r: seq<Question>)
    ensures Appended(list, r, Theme2, Checkbox)
  {
    r := list + [PlainQuestion(Theme2, "Valid operations on char *s?", Checkbox,
      Some(["s[0]", "s+\"String\"", "strlen(s)", "s++", "s->len"]),
      Some(["s[0]", "strlen(s)", "s++"]),
      Some("No + on strings in C."))];
  }

  method AddStrings3(list: seq<Question>) returns (r: seq<Question>)
    ensures Appended(list, r, Theme2, Numeric)
  {
    r := list + [PlainQuestion(Theme2, "Bytes in int arr[6][7]?", Numeric,
      None,
      Some(["168"]),
      Some("An int is 4 bytes."))];
  }

  method AddStrings4(list: seq<Question>) returns (r: seq<Question>)
    ensures Appended(list, r, Theme2, Numeric)
  {
    r := list + [PlainQuestion(Theme2, "sizeof(s) for s[] = \"abc\"?", Numeric,
      None,
      Some(["4"]),
      Some("Don't forget '\\0'."))];
  }

  method AddStrings5(list: seq<Question>) returns (r: seq<Question>)
    ensures Appended(list, r, Theme2, Text)
  {
    r := list + [PlainQuestion(Theme2, "Array vs pointer parameters?", Text,
      None,
      Some([
        "arrays decay to pointer to first element",
        "array parameter is pointer",
        "size not passed",
        "arrays decay to pointers",
        "they are the same",
        "there is no difference"]),
      Some("Arrays decay to pointers."))];
  }

  method AddStrings6(list: seq<Question>) returns (r: seq<Question>)
    ensures Appended(list, r, Theme2, Radio)
  {
    r := list + [PlainQuestion(Theme2, "Pointer arithmetic: true?", Radio,
      Some([
        "p++ moves by one byte",
        "p++ moves by sizeof(*p) bytes",
        "p++ sets pointer to next bit",
        "p++ is invalid"]),
      Some(["p++ moves by sizeof(*p) bytes"]),
      Some("Bytes or bits would be UB."))];
  }

  method AddStrings7(list: seq<Question>) returns (r: seq<Question>)
    ensures Appended(list, r, Theme2, Radio)
  {
    r := list + [PlainQuestion(Theme2, "Layout of int a[2][3]?", Radio,
      Some([
        "Column-major contiguous",
        "Array of pointers to rows",
        "Row-major contiguous",
        "Interleaved"]),
      Some(["Row-major contiguous"]),
      Some("Arrays are contiguous."))];
  }

  method AddStrings8(list: seq<Question>) returns (r: seq<Question>)
    ensures Appended(list, r, Theme2, ImageClick)
  {
    r := list + [Question(Theme2, ClickTheBug, ImageClick, None, None, Some("Look at the initializer."),
      Some("images/missing_terminator.png"), [Rect(165, 61, 174, 21)])];
  }

  method AddStrings9(list: seq<Question>) returns (r: seq<Question>)
    ensures Appended(list, r, Theme2, ImageClick)
  {
    r := list + [Question(Theme2, ClickTheBug, ImageClick, None, None, Some("Look at the loop condition."),
      Some("images/index_out_of_bounds.png"), [Rect(75, 103, 202, 19)])];
  }

  method AddStrings10(list: seq<Question>) returns (r: seq<Question>)
    ensures Appended(list, r, Theme2, Slider)
  {
    SmallLiterals();
    var q := PlainQuestion(Theme2, "&arr[1][2] - &arr[0][1]?", Slider,
      Some(["0", "6", "3"]),
      Some(["5"]),
      Some("Row-major!"));
    SliderLiterals(q, 0, 6, 3, 5);
    r := list + [q];
  }

  method AddStrings11(list: seq<Question>) returns (r: seq<Question>)
    ensures Appended(list, r, Theme2, Slider)
  {
    SmallLiterals();
    var q := PlainQuestion(Theme2, "sizeof(p) - sizeof(\"hello\")?", Slider,
      Some(["0", "8", "4"]),
      Some(["2"]),
      Some("sizeof a pointer."));
    SliderLiterals(q, 0, 8, 4, 2);
    r := list + [q];
  }

  method AddStrings12(list: seq<Question>) returns (r: seq<Question>)
    ensures Appended(list, r, Theme2, Combobox)
  {
    r := list + [PlainQuestion(Theme2, "s2[1] after s1[1] = 'x'?", Combobox,
      Some(["'b'", "'x'", "undefined"]),
      Some(["undefined"]),
      Some("Literals are read-only."))];
  }

  method AddMemory1(list: seq<Question>) returns (r: seq<Question>)
    ensures Appended(list, r, Theme3, Radio)
  {
    r := list + [PlainQuestion(Theme3, "Passing an int to a function?", Radio,
      Some([
        "reference passed",
        "pointer auto created",
        "value copied (pass-by-value)",
        "global changed"]),
      Some(["value copied (pass-by-value)"]),
      Some("No pointers involved."))];
  }

  method AddMemory2(list: seq<Question>) returns (r: seq<Question>)
    ensures Appended(list, r, Theme3, Text)
  {
    r := list + [PlainQuestion(Theme3, "Allocate n ints at runtime?", Text,
      None,
      Some(["malloc(n * sizeof(int))", "malloc(n * 4)"]),
      Some("Use malloc()."))];
  }

  method AddMemory3(list: seq<Question>) returns (r: seq<Question>)
    ensures Appended(list, r, Theme3, Checkbox)
  {
    r := list + [PlainQuestion(Theme3, "Free and resize malloc memory?", Checkbox,
      Some(["delete()", "resize()", "realloc()", "free()", "freeMemory()"]),
      Some(["free()", "realloc()"]),
      None)];
  }

  method AddMemory4(list: seq<Question>) returns (r: seq<Question>)
    ensures Appended(list, r, Theme3, Radio)
  {
    r := list + [PlainQuestion(Theme3, "Writing *ptr after free(ptr)?", Radio,
      Some(["use-after-free", "double-free", "memory-leak", "buffer-overflow"]),
      Some(["use-after-free"]),
      None)];
  }

  method AddMemory5(list: seq<Question>) returns (r: seq<Question>)
    ensures Appended(list, r, Theme3, Text)
  {
    r := list + [PlainQuestion(Theme3, "Declare struct type Point?", Text,
      None,
      Some([
        "typedef struct { int x; int y; } Point;",
        "struct Point { int x; int y; }; typedef struct Point Point;",
        "typedef struct { int x, y; } Point;",
        "struct Point { int x, y; }; typedef struct Point Point;",
        "typedef struct {int x; int y;} Point;",
        "struct Point {int x; int y;}; typedef struct Point Point;",
        "typedef struct {int x, y;} Point;",
        "struct Point {int x, y;}; typedef struct Point Point;"]),
      Some("Use typedef on a struct."))];
  }

  method AddMemory6(list: seq<Question>) returns (r: seq<Question>)
    ensures Appended(list, r, Theme3, Radio)
  {
    r := list + [PlainQuestion(Theme3, "Enums are always 4 bytes?", Radio,
      Some(["True", "False"]),
      Some(["False"]),
      Some("Enums are int constants."))];
  }

  method AddMemory7(list: seq<Question>) returns (r: seq<Question>)
    ensures Appended(list, r, Theme3, Text)
  {
    r := list + [PlainQuestion(Theme3, "When to call free()?", Text,
      None,
      Some([
        "when you no longer need the allocated memory",
        "after memory use to avoid leaks",
        "when memory is no longer needed",
        "when allocated memory is no longer needed"]),
      None)];
  }

  method AddMemory8(list: seq<Question>) returns (r: seq<Question>)
    ensures Appended(list, r, Theme3, ImageClick)
  {
    r := list + [Question(Theme3, ClickTheBug, ImageClick, None, None, Some("Where is greet() declared?"),
      Some("images/missing_declaration.png"), [Rect(47, 64, 77, 19)])];
  }

  method AddMemory9(list: seq<Question>) returns (r: seq<Question>)
    ensures Appended(list, r, Theme3, ImageClick)
  {
    r := list + [Question(Theme3, ClickTheBug, ImageClick, None, None, Some("Address of a local."),
      Some("images/dangling_pointer.png"), [Rect(42, 102, 87, 17)])];
  }

  method AddMemory10(list: seq<Question>) returns (r: seq<Question>)
    ensures Appended(list, r, Theme3, Slider)
  {
    SmallLiterals();
    TwelveLiteral();
    var q := PlainQuestion(Theme3, "sizeof struct {c; i; d}?", Slider,
      Some(["6", "12", "8"]),
      Some(["12"]),
      Some("Padding to the widest."));
    SliderLiterals(q, 6, 12, 8, 12);
    r := list + [q];
  }

  method AddMemory11(list: seq<Question>) returns (r: seq<Question>)
    ensures Appended(list, r, Theme3, Slider)
  {
    SmallLiterals();
    var q := PlainQuestion(Theme3, "sizeof 3+5+8 bit fields?", Slider,
      Some(["0", "4", "2"]),
      Some(["4"]),
      Some("Packed into one int."));
    SliderLiterals(q, 0, 4, 2, 4);
    r := list + [q];
  }

  method AddMemory12(list: seq<Question>) returns (r: seq<Question>)
    ensures Appended(list, r, Theme3, Combobox)
  {
    r := list + [PlainQuestion(Theme3, "Pointer to int func(int)?", Combobox,
      Some(["int *f(int)", "(*int f)(int)", "int (*f)(int)", "int f(*int)"]),
      Some(["int (*f)(int)"]),
      Some("Read right to left."))];
  }

  /** The twelve `list.add` calls of the theme "ifs loops and operators". */
  method AddIfsQuestions(list: seq<Question>) returns (r: seq<Question>)
    ensures |r| == |list| + 12 && Extended(list, r, Theme1)
  {
    r := list;
    assert r[..|list|] == list;
    var next;
    next := AddIfs1(r);
    Grow(list, r, next, Theme1, Radio);
    r := next;
    next := AddIfs2(r);
    Grow(list, r, next, Theme1, Checkbox);
    r := next;
    next := AddIfs3(r);
    Grow(list, r, next, Theme1, Text);
    r := next;
    next := AddIfs4(r);
    Grow(list, r, next, Theme1, Radio);
    r := next;
    next := AddIfs5(r);
    Grow(list, r, next, Theme1, Radio);
    r := next;
    next := AddIfs6(r);
    Grow(list, r, next, Theme1, Text);
    r := next;
    next := AddIfs7(r);
    Grow(list, r, next, Theme1, Numeric);
    r := next;
    next := AddIfs8(r);
    Grow(list, r, next, Theme1, ImageClick);
    r := next;
    next := AddIfs9(r);
    Grow(list, r, next, Theme1, ImageClick);
    r := next;
    next := AddIfs10(r);
    Grow(list, r, next, Theme1, Slider);
    r := next;
    next := AddIfs11(r);
    Grow(list, r, next, Theme1, Slider);
    r := next;
    next := AddIfs12(r);
    Grow(list, r, next, Theme1, Combobox);
    r := next;
  }

  /** The twelve `list.add` calls of the theme "strings arrays and pointers". */
  method AddStringsQuestions(list: seq<Question>) returns (r: seq<Question>)
    ensures |r| == |list| + 12 && Extended(list, r, Theme2)
  {
    r := list;
    assert r[..|list|] == list;
    var next;
    next := AddStrings1(r);
    Grow(list, r, next, Theme2, Radio);
    r := next;
    next := AddStrings2(r);
    Grow(list, r, next, Theme2, Checkbox);
    r := next;
    next := AddStrings3(r);
    Grow(list, r, next, Theme2, Numeric);
    r := next;
    next := AddStrings4(r);
    Grow(list, r, next, Theme2, Numeric);
    r := next;
    next := AddStrings5(r);
    Grow(list, r, next, Theme2, Text);
    r := next;
    next := AddStrings6(r);
    Grow(list, r, next, Theme2, Radio);
    r := next;
    next := AddStrings7(r);
    Grow(list, r, next, Theme2, Radio);
    r := next;
    next := AddStrings8(r);
    Grow(list, r, next, Theme2, ImageClick);
    r := next;
    next := AddStrings9(r);
    Grow(list, r, next, Theme2, ImageClick);
    r := next;
    next := AddStrings10(r);
    Grow(list, r, next, Theme2, Slider);
    r := next;
    next := AddStrings11(r);
    Grow(list, r, next, Theme2, Slider);
    r := next;
    next := AddStrings12(r);
    Grow(list, r, next, Theme2, Combobox);
    r := next;
  }

  /** The twelve `list.add` calls of the theme "functions structs and memory". */
  method AddMemoryQuestions(list: seq<Question>) returns (r: seq<Question>)
    ensures |r| == |list| + 12 && Extended(list, r, Theme3)
  {
    r := list;
    assert r[..|list|] == list;
    var next;
    next := AddMemory1(r);
    Grow(list, r, next, Theme3, Radio);
    r := next;
    next := AddMemory2(r);
    Grow(list, r, next, Theme3, Text);
    r := next;
    next := AddMemory3(r);
    Grow(list, r, next, Theme3, Checkbox);
    r := next;
    next := AddMemory4(r);
    Grow(list, r, next, Theme3, Radio);
    r := next;
    next := AddMemory5(r);
    Grow(list, r, next, Theme3, Text);
    r := next;
    next := AddMemory6(r);
    Grow(list, r, next, Theme3, Radio);
    r := next;
    next := AddMemory7(r);
    Grow(list, r, next, Theme3, Text);
    r := next;
    next := AddMemory8(r);
    Grow(list, r, next, Theme3, ImageClick);
    r := next;
    next := AddMemory9(r);
    Grow(list, r, next, Theme3, ImageClick);
    r := next;
    next := AddMemory10(r);
    Grow(list, r, next, Theme3, Slider);
    r := next;
    next := AddMemory11(r);
    Grow(list, r, next, Theme3, Slider);
    r := next;
    next := AddMemory12(r);
    Grow(list, r, next, Theme3, Combobox);
    r := next;
  }

  /**
   * `getAllQuestions()`: 36 questions, twelve per theme, grouped by theme in the order
   * the start screen offers the themes, each of the shape its type asks for.
   */
  method GetAllQuestions() returns (list: seq<Question>)
    ensures Catalogue(list)
  {
    var first := AddIfsQuestions([]);
    var second := AddStringsQuestions(first);
    list := AddMemoryQuestions(second);
    forall i | 0 <= i < 36 ensures list[i].theme == Themes[i / 12] && WellFormed(list[i]) {
      if i < 24 {
        assert list[i] == list[..24][i] == second[i];
        if i < 12 {
          assert second[i] == second[..12][i] == first[i];
        }
      }
    }
  }

  // ---------------------------------------------------------------------------
  // Properties of the catalogue
  // ---------------------------------------------------------------------------

  /** Thirty-six well-formed questions in three blocks of twelve, one block per theme. */
  predicate Catalogue(list: seq<Question>) {
    |list| == 36 &&
    forall i :: 0 <= i < |list| ==> list[i].theme == Themes[i / 12] && WellFormed(list[i])
  }

  /** A well-formed question can be shown: building its panel throws nothing. */
  lemma {:induction false} WellFormedDisplayable(q: Question)
    requires WellFormed(q)
    ensures Displayable(q)
  {
  }

  /** Grading a well-formed question never dereferences a missing answer list. */
  lemma {:induction false} WellFormedGradable(q: Question, inputs: PanelInputs)
    requires WellFormed(q)
    ensures ReadsAnswers(q, inputs) ==> q.answers.Some?
  {
  }

  /** Choosing the accepted item of a well-formed combo box question grades as correct. */
  lemma {:induction false} ComboAnswerReachable(q: Question)
    requires WellFormed(q) && q.questionType == Combobox
    ensures exists i :: (0 <= i < |q.options.value| &&
      CheckAnswer(q, PanelInputs([], "", Some(q.options.value[i]), None, false, false)))
  {
    var a := q.answers.value[0];
    var i :| 0 <= i < |q.options.value| && q.options.value[i] == a;
    assert Normalize(Some(a)) in NormalizeEach(q.answers.value);
    assert CheckAnswer(q, PanelInputs([], "", Some(q.options.value[i]), None, false, false));
  }

  /** The slider of a well-formed slider question is built, and starts at its default. */
  lemma {:induction false} SliderBuilt(q: Question)
    requires SliderShape(q)
    ensures var o := q.options.value;
      SliderFor(o) == Built(SliderWidget(OptionInt(o[0]).value, OptionInt(o[1]).value, OptionInt(o[2]).value))
  {
  }

  /** Setting the slider to the accepted answer of a well-formed slider question grades as correct. */
  lemma {:induction false} SliderAnswerAccepted(q: Question, s: SliderWidget)
    requires SliderShape(q)
    requires Some(s.value) == ParseInt(Normalize(Some(q.answers.value[0])))
    ensures SliderCorrect(Some(s), q.answers.value)
  {
  }

  /**
   * When exactly the questions in `[lo, hi)` have the theme, the theme's indices are
   * that range.
   */
  lemma {:induction false} IndicesOfBlock(qs: seq<Question>, theme: string, lo: nat, hi: nat)
    requires lo <= hi <= |qs|
    requires forall i :: 0 <= i < |qs| ==> (qs[i].theme == theme <==> lo <= i < hi)
    ensures |ThemeIndices(qs, theme)| == hi - lo
    decreases |qs|
  {
    if qs != [] {
      var last := |qs| - 1;
      var init := qs[..last];
      if last < hi {
        IndicesOfBlock(init, theme, if lo <= last then lo else last, last);
      } else {
        IndicesOfBlock(init, theme, lo, hi);
      }
    }
  }

  /** Every theme of the catalogue holds twelve questions. */
  lemma {:induction false} ThemeSizes(list: seq<Question>, t: nat)
    requires Catalogue(list) && t < 3
    ensures |ThemeIndices(list, Themes[t])| == 12
  {
    assert Theme1 != Theme2 && Theme1 != Theme3 && Theme2 != Theme3;
    forall i | 0 <= i < |list| ensures list[i].theme == Themes[t] <==> 12 * t <= i < 12 * t + 12 {
      assert list[i].theme == Themes[i / 12];
    }
    IndicesOfBlock(list, Themes[t], 12 * t, 12 * t + 12);
  }

  /** The start screen's default request of twelve questions is never cut short. */
  lemma {:induction false} FullQuizOnEveryTheme(list: seq<Question>, t: nat, draws: seq<nat>)
    requires Catalogue(list) && t < 3 && ValidDraws(draws, |ThemeIndices(list, Themes[t])|)
    ensures |Selection(list, Themes[t], 12, draws)| == 12
  {
    ThemeSizes(list, t);
  }
}
