/**
 * The question record (`Question`) and the answer normaliser every text
 * comparison of the quiz goes through (`Question.normalize`).
 */
module QuestionModel {
  import opened Wrappers
  import opened JavaLang

  /** The seven answer modalities. */
  datatype QuestionType = Radio | Checkbox | Numeric | Text | Combobox | Slider | ImageClick

  /** An axis-aligned `java.awt.Rectangle`. */
  datatype Rect = Rect(x: int, y: int, width: int, height: int) {
    /** `Rectangle.contains(px, py)`: the left and top edges are inside, the right and bottom ones are not. */
    predicate Contains(px: int, py: int) {
      x <= px < x + width && y <= py < y + height
    }
  }

  /**
   * An immutable question. A Java `null` list or string is `None`; the image
   * path and the click areas only matter for `ImageClick` questions.
   */
  datatype Question = Question(
    theme: string,
    prompt: string,
    questionType: QuestionType,
    options: Option<seq<string>>,
    answers: Option<seq<string>>,
    hint: Option<string>,
    imagePath: Option<string>,
    correctAreas: seq<Rect>)

  /** The six-argument constructor for questions without an image. */
  function PlainQuestion(theme: string, prompt: string, questionType: QuestionType,
                         options: Option<seq<string>>, answers: Option<seq<string>>,
                         hint: Option<string>): (q: Question)
    ensures q.imagePath == None && q.correctAreas == []
    ensures q.theme == theme && q.prompt == prompt && q.questionType == questionType
    ensures q.options == options && q.answers == answers && q.hint == hint
  {
    Question(theme, prompt, questionType, options, answers, hint, None, [])
  }

  // ---------------------------------------------------------------------------
  // normalize: trim, collapse every run of \s into one space, lower-case
  // ---------------------------------------------------------------------------

  /** No whitespace char other than a single space, and never two in a row. */
  predicate SingleSpaced(s: string) {
    s == [] ||
    ((IsSpace(s[0]) ==> s[0] == ' ' && (|s| > 1 ==> !IsSpace(s[1]))) && SingleSpaced(s[1..]))
  }

  /** Drops the leading run of `\s` chars. */
  function DropSpaces(s: string): (r: string)
    ensures |r| <= |s| && r == s[|s| - |r|..]
    ensures r == [] || !IsSpace(r[0])
    ensures forall i :: 0 <= i < |s| - |r| ==> IsSpace(s[i])
    ensures s != [] && IsSpace(s[0]) ==> |r| < |s|
  {
    if s != [] && IsSpace(s[0]) then DropSpaces(s[1..]) else s
  }

  /**
   * `replaceAll("\\s+", " ")`: every maximal run of `\s` chars becomes one
   * space; every other char is kept, in order.
   */
  function CollapseSpaces(s: string): (r: string)
    ensures r == [] <==> s == []
    ensures s != [] ==> (IsSpace(r[0]) <==> IsSpace(s[0]))
    ensures s != [] && !IsSpace(s[0]) ==> r[0] == s[0]
    ensures s != [] && !IsSpace(s[|s| - 1]) ==> r[|r| - 1] == s[|s| - 1]
    decreases |s|
  {
    if s == [] then []
    else if IsSpace(s[0]) then
      var d := DropSpaces(s);
      assert d != [] ==> d[|d| - 1] == s[|s| - 1];
      " " + CollapseSpaces(d)
    else
      [s[0]] + CollapseSpaces(s[1..])
  }

  /** The collapse leaves no whitespace but single spaces. */
  lemma {:induction false} CollapseIsSingleSpaced(s: string)
    ensures SingleSpaced(CollapseSpaces(s))
    decreases |s|
  {
    if s != [] {
      var d := if IsSpace(s[0]) then DropSpaces(s) else s[1..];
      CollapseIsSingleSpaced(d);
      assert CollapseSpaces(s)[1..] == CollapseSpaces(d);
    }
  }

  /** Lower-casing keeps a string single-spaced. */
  lemma {:induction false} LowerSingleSpaced(s: string)
    requires SingleSpaced(s)
    ensures SingleSpaced(Lower(s))
    decreases |s|
  {
    if s != [] {
      LowerSingleSpaced(s[1..]);
      assert Lower(s)[1..] == Lower(s[1..]);
    }
  }

  /** `Question.normalize`: `null` becomes the empty string. */
  function Normalize(str: Option<string>): (r: string)
    ensures str.None? ==> r == ""
  {
    match str
    case None => ""
    case Some(s) => Lower(CollapseSpaces(Trim(s)))
  }

  /**
   * The normal form has no blank at either end, no whitespace but single spaces
   * and no upper-case letter.
   */
  lemma {:induction false} NormalizeForm(str: Option<string>)
    ensures var r := Normalize(str);
      (r == [] || (!IsBlank(r[0]) && !IsBlank(r[|r| - 1]))) &&
      SingleSpaced(r) &&
      forall i :: 0 <= i < |r| ==> !IsUpper(r[i])
  {
    if str.Some? {
      var t := Trim(str.value);
      var c := CollapseSpaces(t);
      var r := Lower(c);
      CollapseIsSingleSpaced(t);
      LowerSingleSpaced(c);
      if t != [] {
        assert !IsSpace(t[0]) && !IsSpace(t[|t| - 1]);
        assert c[0] == t[0] && c[|c| - 1] == t[|t| - 1];
        assert r[0] == LowerChar(c[0]) && r[|r| - 1] == LowerChar(c[|c| - 1]);
      }
    }
  }

  /** Lower-casing a string without upper-case letters changes nothing. */
  lemma {:induction false} LowerNoUpper(s: string)
    requires forall i :: 0 <= i < |s| ==> !IsUpper(s[i])
    ensures Lower(s) == s
  {
    forall i | 0 <= i < |s| ensures Lower(s)[i] == s[i] {
      assert !IsUpper(s[i]);
    }
  }

  /** A single-spaced string is left alone by the collapse. */
  lemma {:induction false} CollapseSingleSpaced(s: string)
    requires SingleSpaced(s)
    ensures CollapseSpaces(s) == s
    decreases |s|
  {
    if s != [] {
      CollapseSingleSpaced(s[1..]);
      if IsSpace(s[0]) {
        assert s[0] == ' ';
        assert s[1..] == [] || !IsSpace(s[1]);
        assert DropSpaces(s) == s[1..];
      }
    }
  }

  /** Normalising twice gives what normalising once gives. */
  lemma {:induction false} NormalizeIdempotent(str: Option<string>)
    ensures Normalize(Some(Normalize(str))) == Normalize(str)
  {
    var n := Normalize(str);
    NormalizeForm(str);
    assert Trim(n) == n;
    CollapseSingleSpaced(n);
    LowerNoUpper(n);
  }

  /** A string without whitespace is trivially single-spaced. */
  lemma {:induction false} NoSpaceSingleSpaced(s: string)
    requires forall i :: 0 <= i < |s| ==> !IsSpace(s[i])
    ensures SingleSpaced(s)
    decreases |s|
  {
    if s != [] {
      NoSpaceSingleSpaced(s[1..]);
    }
  }

  /** `s` without its `\s` chars: the words of `s`, run together. */
  function NonSpace(s: string): (r: string)
    ensures |r| <= |s|
  {
    if s == [] then [] else (if IsSpace(s[0]) then [] else [s[0]]) + NonSpace(s[1..])
  }

  /** Dropping leading whitespace drops no other char. */
  lemma {:induction false} DropSpacesNonSpace(s: string)
    ensures NonSpace(DropSpaces(s)) == NonSpace(s)
    decreases |s|
  {
    if s != [] && IsSpace(s[0]) {
      DropSpacesNonSpace(s[1..]);
    }
  }

  /** The collapse keeps every char that is not whitespace, in order. */
  lemma {:induction false} CollapseNonSpace(s: string)
    ensures NonSpace(CollapseSpaces(s)) == NonSpace(s)
    decreases |s|
  {
    if s != [] {
      var c := CollapseSpaces(s);
      if IsSpace(s[0]) {
        var d := DropSpaces(s);
        CollapseNonSpace(d);
        DropSpacesNonSpace(s);
        assert c[0] == ' ' && c[1..] == CollapseSpaces(d);
      } else {
        CollapseNonSpace(s[1..]);
        assert c[0] == s[0] && c[1..] == CollapseSpaces(s[1..]);
      }
    }
  }

  /** Lower-casing and dropping whitespace commute. */
  lemma {:induction false} LowerNonSpace(s: string)
    ensures NonSpace(Lower(s)) == Lower(NonSpace(s))
    decreases |s|
  {
    if s != [] {
      LowerNonSpace(s[1..]);
      var l := Lower(s);
      assert l[0] == LowerChar(s[0]) && l[1..] == Lower(s[1..]);
      var rest := NonSpace(s[1..]);
      if IsSpace(s[0]) {
        assert NonSpace(s) == rest;
      } else {
        assert NonSpace(s) == [s[0]] + rest;
        assert Lower([s[0]] + rest) == [LowerChar(s[0])] + Lower(rest);
      }
    }
  }

  /**
   * What `normalize` keeps: apart from whitespace, the normal form holds exactly the
   * chars of the trimmed text, lower-cased and in order.
   */
  lemma {:induction false} NormalizeWords(s: string)
    ensures NonSpace(Normalize(Some(s))) == Lower(NonSpace(Trim(s)))
  {
    var t := Trim(s);
    var c := CollapseSpaces(t);
    CollapseNonSpace(t);
    LowerNonSpace(c);
  }

  /** Leading whitespace stops inside `a` when `a` ends in a non-space. */
  lemma {:induction false} DropSpacesPrefix(a: string, t: string)
    requires a != [] && !IsSpace(a[|a| - 1])
    ensures DropSpaces(a + t) == DropSpaces(a) + t
    decreases |a|
  {
    if IsSpace(a[0]) {
      assert (a + t)[1..] == a[1..] + t;
      DropSpacesPrefix(a[1..], t);
    }
  }

  /** A run of whitespace in front of a non-space goes entirely. */
  lemma {:induction false} DropSpacesRun(w: string, b: string)
    requires AllSpace(w)
    requires b == [] || !IsSpace(b[0])
    ensures DropSpaces(w + b) == b
    decreases |w|
  {
    if w == [] {
      assert w + b == b;
    } else {
      assert (w + b)[1..] == w[1..] + b;
      DropSpacesRun(w[1..], b);
    }
  }

  /** Concatenation of strings is associative. */
  lemma Assoc(x: string, y: string, z: string)
    ensures x + (y + z) == x + y + z
  {
  }

  /** The collapse of `a + t` splits at the end of `a` when `a` ends in a non-space. */
  lemma {:induction false} CollapseAppend(a: string, t: string)
    requires a == [] || !IsSpace(a[|a| - 1])
    ensures CollapseSpaces(a + t) == CollapseSpaces(a) + CollapseSpaces(t)
    decreases |a|
  {
    if a == [] {
      assert a + t == t;
    } else if IsSpace(a[0]) {
      var d := DropSpaces(a);
      assert d != [] && d[|d| - 1] == a[|a| - 1];
      DropSpacesPrefix(a, t);
      CollapseAppend(d, t);
      assert CollapseSpaces(a + t) == " " + CollapseSpaces(d + t);
      Assoc(" ", CollapseSpaces(d), CollapseSpaces(t));
    } else {
      assert (a + t)[1..] == a[1..] + t;
      CollapseAppend(a[1..], t);
      Assoc([a[0]], CollapseSpaces(a[1..]), CollapseSpaces(t));
    }
  }

  /**
   * Each maximal run of whitespace becomes exactly one space: a run `w` between a part
   * ending in a non-space and a part starting with one collapses to `" "`, and the two
   * parts collapse on their own. With `CollapseSingleSpaced` this pins the collapse down.
   */
  lemma {:induction false} CollapseRun(a: string, w: string, b: string)
    requires w != [] && AllSpace(w)
    requires a == [] || !IsSpace(a[|a| - 1])
    requires b == [] || !IsSpace(b[0])
    ensures CollapseSpaces(a + w + b) == CollapseSpaces(a) + " " + CollapseSpaces(b)
  {
    assert a + w + b == a + (w + b);
    CollapseAppend(a, w + b);
    DropSpacesRun(w, b);
    assert CollapseSpaces(w + b) == " " + CollapseSpaces(b);
    Assoc(CollapseSpaces(a), " ", CollapseSpaces(b));
  }

  /** Lower-casing works char by char, so it distributes over concatenation. */
  lemma LowerAppend(x: string, y: string)
    ensures Lower(x + y) == Lower(x) + Lower(y)
  {
    assert forall i :: 0 <= i < |x + y| ==> Lower(x + y)[i] == (Lower(x) + Lower(y))[i];
  }

  /** Two words with a run of whitespace between them normalize to the lower-cased words and one space. */
  lemma {:induction false} NormalizeWordBreak(a: string, w: string, b: string)
    requires a != [] && forall i :: 0 <= i < |a| ==> !IsBlank(a[i])
    requires b != [] && forall i :: 0 <= i < |b| ==> !IsBlank(b[i])
    requires w != [] && AllSpace(w)
    ensures Normalize(Some(a + w + b)) == Lower(a) + " " + Lower(b)
  {
    var s := a + w + b;
    assert s[0] == a[0] && s[|s| - 1] == b[|b| - 1];
    assert Trim(s) == s;
    NoSpaceSingleSpaced(a);
    CollapseSingleSpaced(a);
    NoSpaceSingleSpaced(b);
    CollapseSingleSpaced(b);
    CollapseRun(a, w, b);
    LowerAppend(a + " ", b);
    LowerAppend(a, " ");
    assert Lower(" ") == " ";
  }

  /** A typed answer `"int  main"` matches the accepted answer `"int main"` once normalized. */
  lemma WordBreakExample()
    ensures Normalize(Some("int  main")) == "int main"
  {
    assert "int  main" == "int" + "  " + "main";
    assert "int main" == "int" + " " + "main";
    assert AllSpace("  ");
    NormalizeWordBreak("int", "  ", "main");
    LowerNoUpper("int");
    LowerNoUpper("main");
  }

  /** A string without blanks or upper-case letters is its own normal form. */
  lemma {:induction false} NormalizeClean(s: string)
    requires forall i :: 0 <= i < |s| ==> !IsBlank(s[i]) && !IsUpper(s[i])
    ensures Normalize(Some(s)) == s
  {
    assert Trim(s) == s;
    assert forall i :: 0 <= i < |s| ==> !IsSpace(s[i]);
    NoSpaceSingleSpaced(s);
    CollapseSingleSpaced(s);
    LowerNoUpper(s);
  }

  /** A step of `NormalizeExample` and `NormalizeTrailingBlank`: the trims. */
  lemma TrimExample()
    ensures Trim("  A   b\n") == "A   b"
    ensures Trim("No ") == "No"
  {
    assert "  A   b\n" == "  " + "A   b" + "\n";
    TrimAround("  ", "A   b", "\n");
    assert "No " == "" + "No" + " ";
    TrimAround("", "No", " ");
  }

  /** A step of `CollapseExample`: the leading run of spaces goes. */
  lemma DropSpacesExample()
    ensures DropSpaces("   b") == "b"
  {
    assert "   b"[1..] == "  b";
    assert "  b"[1..] == " b";
    assert " b"[1..] == "b";
  }

  /** A step of `NormalizeExample`: the inner run collapses. */
  lemma CollapseExample()
    ensures CollapseSpaces("A   b") == "A b"
  {
    assert "A   b"[1..] == "   b";
    DropSpacesExample();
    assert CollapseSpaces("b") == "b";
    assert CollapseSpaces("   b") == " b";
  }

  /** A step of `NormalizeExample` and `NormalizeTrailingBlank`: the lower-casings. */
  lemma LowerExample()
    ensures Lower("A b") == "a b"
    ensures Lower("No") == Lower("no") == "no"
  {
    var l := Lower("A b");
    assert l[0] == 'a' && l[1] == ' ' && l[2] == 'b';
    var m := Lower("No");
    assert m[0] == 'n' && m[1] == 'o';
    LowerNoUpper("no");
  }

  /** Surrounding blanks, inner runs of whitespace and upper case all vanish. */
  lemma NormalizeExample()
    ensures Normalize(Some("  A   b\n")) == "a b"
  {
    TrimExample();
    CollapseExample();
    LowerExample();
  }

  /** A typed answer "No " and a stored answer "no" compare equal. */
  lemma NormalizeTrailingBlank()
    ensures Normalize(Some("No ")) == Normalize(Some("no")) == "no"
  {
    TrimExample();
    CollapseSingleSpaced("No");
    CollapseSingleSpaced("no");
    LowerExample();
  }
}
