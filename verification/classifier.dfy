/**
 * The pure parts of `train_model.py`: the guard in front of the urgency
 * classifier in `predict_label`, and the label-cleaning pass over the
 * training rows. The classifier itself (TF-IDF features fed to an SVM) is an
 * uninterpreted function passed in as a parameter, and Python's Unicode
 * character classes are a record of predicates passed in as well.
 */
module Classifier {
  import opened Wrappers
  import opened Values

  /** Python's `str.isspace`, `str.isdigit` and `str.isalpha`, one character at a time. */
  datatype CharClasses = CharClasses(isSpace: char -> bool, isDigit: char -> bool, isAlpha: char -> bool)

  /** `(predicted_label, confidence, probabilities)` as `predict_label` returns it. */
  datatype Prediction = Prediction(urgency: string, confidence: real, probabilities: map<string, real>)

  /** The answer for degenerate input: `("Low", 1.0, {"Low": 1.0})`. */
  const LowDefault: Prediction := Prediction("Low", 1.0, map["Low" := 1.0])

  ghost predicate AllSpace(cc: CharClasses, s: string)
  {
    forall i :: 0 <= i < |s| ==> cc.isSpace(s[i])
  }

  /** `s.lstrip()` */
  function TrimLeft(cc: CharClasses, s: string): (r: string)
    ensures |r| <= |s| && r == s[|s| - |r|..]
    ensures AllSpace(cc, s[..|s| - |r|])
    ensures |r| > 0 ==> !cc.isSpace(r[0])
  {
    if |s| > 0 && cc.isSpace(s[0]) then TrimLeft(cc, s[1..]) else s
  }

  /** `s.rstrip()` */
  function TrimRight(cc: CharClasses, s: string): (r: string)
    ensures |r| <= |s| && r == s[..|r|]
    ensures AllSpace(cc, s[|r|..])
    ensures |r| > 0 ==> !cc.isSpace(r[|r| - 1])
  {
    if |s| > 0 && cc.isSpace(s[|s| - 1]) then TrimRight(cc, s[..|s| - 1]) else s
  }

  /** `s.strip()`: leading whitespace first, then trailing whitespace of what remains. */
  function Strip(cc: CharClasses, s: string): string
  {
    TrimRight(cc, TrimLeft(cc, s))
  }

  /** `s.isdigit()`: true only of a non-empty string of digits. */
  predicate IsDigits(cc: CharClasses, s: string)
  {
    |s| > 0 && forall i :: 0 <= i < |s| ==> cc.isDigit(s[i])
  }

  /** `any(c.isalpha() for c in s)` */
  predicate HasAlpha(cc: CharClasses, s: string)
  {
    exists i :: 0 <= i < |s| && cc.isAlpha(s[i])
  }

  /**
   * The guard of `predict_label`: the text handed to the model, or `None`
   * when the message short-circuits to `LowDefault`.
   */
  function Admit(cc: CharClasses, message: Value): (r: Option<string>)
    ensures r.Some? <==>
              && message.Str?
              && |Strip(cc, message.s)| >= 3
              && !IsDigits(cc, Strip(cc, message.s))
              && HasAlpha(cc, Strip(cc, message.s))
    ensures r.Some? ==> r.value == Strip(cc, message.s)
  {
    if !Truthy(message) || !message.Str? then None
    else
      var cleaned := Strip(cc, message.s);
      if cleaned == "" || |cleaned| < 3 then None
      else if IsDigits(cc, cleaned) then None
      else if !HasAlpha(cc, cleaned) then None
      else Some(cleaned)
  }

  /** `predict_label(message)` with the trained model abstracted as `classify`. */
  function PredictLabel(cc: CharClasses, classify: string -> Prediction, message: Value): (p: Prediction)
    ensures !message.Str? || message.s == "" ==> p == LowDefault
    ensures message.Str? && |Strip(cc, message.s)| < 3 ==> p == LowDefault
    ensures message.Str? && IsDigits(cc, Strip(cc, message.s)) ==> p == LowDefault
    ensures message.Str? && !HasAlpha(cc, Strip(cc, message.s)) ==> p == LowDefault
    ensures Admit(cc, message).Some? ==> p == classify(Strip(cc, message.s))
  {
    match Admit(cc, message)
    case None => LowDefault
    case Some(text) => classify(text)
  }

  /** Leading whitespace does not survive `lstrip`. */
  lemma {:induction false} TrimLeftSkipsSpace(cc: CharClasses, p: string, t: string)
    requires AllSpace(cc, p)
    ensures TrimLeft(cc, p + t) == TrimLeft(cc, t)
    decreases |p|
  {
    if |p| > 0 {
      assert (p + t)[1..] == p[1..] + t;
      TrimLeftSkipsSpace(cc, p[1..], t);
    } else {
      assert p + t == t;
    }
  }

  /** Trailing text is carried through `lstrip` once a non-space has been reached. */
  lemma {:induction false} TrimLeftAppend(cc: CharClasses, s: string, q: string)
    requires TrimLeft(cc, s) != ""
    ensures TrimLeft(cc, s + q) == TrimLeft(cc, s) + q
    decreases |s|
  {
    if cc.isSpace(s[0]) {
      assert (s + q)[1..] == s[1..] + q;
      TrimLeftAppend(cc, s[1..], q);
    }
  }

  /** Trailing whitespace does not survive `rstrip`. */
  lemma {:induction false} TrimRightSkipsSpace(cc: CharClasses, t: string, q: string)
    requires AllSpace(cc, q)
    ensures TrimRight(cc, t + q) == TrimRight(cc, t)
    decreases |q|
  {
    if |q| > 0 {
      assert (t + q)[..|t + q| - 1] == t + q[..|q| - 1];
      TrimRightSkipsSpace(cc, t, q[..|q| - 1]);
    } else {
      assert t + q == t;
    }
  }

  /** Surrounding whitespace does not change `strip`. */
  lemma StripIgnoresSurroundingSpace(cc: CharClasses, p: string, s: string, q: string)
    requires AllSpace(cc, p) && AllSpace(cc, q)
    ensures Strip(cc, p + s + q) == Strip(cc, s)
  {
    assert p + s + q == p + (s + q);
    TrimLeftSkipsSpace(cc, p, s + q);
    if TrimLeft(cc, s) == "" {
      var k := |s| - |TrimLeft(cc, s)|;
      assert s == s[..k];
      TrimLeftSkipsSpace(cc, s, q);
      TrimLeftSkipsSpace(cc, q, "");
      assert q + "" == q;
    } else {
      TrimLeftAppend(cc, s, q);
      TrimRightSkipsSpace(cc, TrimLeft(cc, s), q);
    }
  }

  /** The model's answer does not depend on whitespace around the message. */
  lemma PredictLabelIgnoresSurroundingSpace(cc: CharClasses, classify: string -> Prediction, p: string, s: string, q: string)
    requires AllSpace(cc, p) && AllSpace(cc, q)
    ensures Admit(cc, Str(p + s + q)) == Admit(cc, Str(s))
    ensures PredictLabel(cc, classify, Str(p + s + q)) == PredictLabel(cc, classify, Str(s))
  {
    StripIgnoresSurroundingSpace(cc, p, s, q);
  }

  /**
   * When no digit is a letter (true of Unicode), the all-digits test never
   * decides anything: a string of digits already fails the letter test.
   */
  lemma DigitTestIsSubsumed(cc: CharClasses, message: Value)
    requires forall c :: cc.isDigit(c) ==> !cc.isAlpha(c)
    ensures Admit(cc, message).Some? <==>
              message.Str? && |Strip(cc, message.s)| >= 3 && HasAlpha(cc, Strip(cc, message.s))
  {
  }

  /** The test message "123123123" of the training script gets the degenerate answer. */
  lemma DigitsMessageIsLow(cc: CharClasses, classify: string -> Prediction)
    requires cc.isDigit('1') && cc.isDigit('2') && cc.isDigit('3')
    requires !cc.isSpace('1') && !cc.isSpace('3')
    ensures PredictLabel(cc, classify, Str("123123123")) == LowDefault
  {
  }

  /** One row of the training CSV; a missing label is pandas' NaN. */
  datatype Row = Row(message: string, urgency: Option<string>)

  /** `.replace('Citical', 'Critical')`: whole-value replacement. */
  function FixLabel(name: string): (r: string)
    ensures r != "Citical"
    ensures name == "Citical" ==> r == "Critical"
    ensures name != "Citical" ==> r == name
  {
    if name == "Citical" then "Critical" else name
  }

  /** A label that survives `notna() & (str.strip() != '')`. */
  predicate HasLabel(cc: CharClasses, row: Row)
  {
    row.urgency.Some? && Strip(cc, row.urgency.value) != ""
  }

  /** Lines 18-22 of the training script: drop blank labels, strip the rest, fix the typo. */
  function CleanLabels(cc: CharClasses, rows: seq<Row>): (out: seq<Row>)
    ensures |out| <= |rows|
    ensures forall i :: 0 <= i < |out| ==> out[i].urgency.Some? && out[i].urgency.value != "Citical"
  {
    if |rows| == 0 then []
    else
      var rest := CleanLabels(cc, rows[1..]);
      if HasLabel(cc, rows[0]) then
        [rows[0].(urgency := Some(FixLabel(Strip(cc, rows[0].urgency.value))))] + rest
      else rest
  }

  /**
   * What cleaning does to a single row: a row whose label is present and
   * not blank is kept with its message and its stripped, corrected label;
   * any other row is dropped. With `CleanLabelsAppend` this fixes the
   * result on every input.
   */
  lemma CleanLabelsOneRow(cc: CharClasses, row: Row)
    ensures CleanLabels(cc, [row]) ==
              if HasLabel(cc, row) then [Row(row.message, Some(FixLabel(Strip(cc, row.urgency.value))))] else []
  {
    assert [row][1..] == [];
  }

  /** A label with no surrounding whitespace, non-blank and not the misspelling. */
  ghost predicate CleanLabel(cc: CharClasses, name: string)
  {
    name != "" && Strip(cc, name) == name && name != "Citical"
  }

  /** Stripping twice strips nothing more. */
  lemma StripIdempotent(cc: CharClasses, s: string)
    ensures Strip(cc, Strip(cc, s)) == Strip(cc, s)
  {
  }

  /** The label one kept row ends up with is clean. */
  lemma FixedLabelIsClean(cc: CharClasses, row: Row)
    requires !cc.isSpace('C') && !cc.isSpace('l')
    requires HasLabel(cc, row)
    ensures CleanLabel(cc, FixLabel(Strip(cc, row.urgency.value)))
  {
  }

  /** After cleaning, every label is non-blank, stripped and spelled correctly. */
  lemma {:induction false} CleanLabelsAreClean(cc: CharClasses, rows: seq<Row>)
    requires !cc.isSpace('C') && !cc.isSpace('l')
    ensures forall i :: 0 <= i < |CleanLabels(cc, rows)| ==> CleanLabel(cc, CleanLabels(cc, rows)[i].urgency.value)
  {
    if |rows| > 0 {
      var out := CleanLabels(cc, rows);
      var rest := CleanLabels(cc, rows[1..]);
      CleanLabelsAreClean(cc, rows[1..]);
      if HasLabel(cc, rows[0]) {
        FixedLabelIsClean(cc, rows[0]);
        forall i | 0 <= i < |out|
          ensures CleanLabel(cc, out[i].urgency.value)
        {
          if i > 0 {
            assert out[i] == rest[i - 1];
          }
        }
      }
    }
  }

  /** Cleaning works row by row: it distributes over concatenation, so the kept rows stay in order. */
  lemma {:induction false} CleanLabelsAppend(cc: CharClasses, a: seq<Row>, b: seq<Row>)
    ensures CleanLabels(cc, a + b) == CleanLabels(cc, a) + CleanLabels(cc, b)
    decreases |a|
  {
    if |a| == 0 {
      assert a + b == b;
    } else {
      assert (a + b)[1..] == a[1..] + b;
      CleanLabelsAppend(cc, a[1..], b);
    }
  }

  /** Cleaning already-clean rows changes nothing. */
  lemma {:induction false} CleanLabelsIdempotent(cc: CharClasses, rows: seq<Row>)
    requires !cc.isSpace('C') && !cc.isSpace('l')
    ensures CleanLabels(cc, CleanLabels(cc, rows)) == CleanLabels(cc, rows)
  {
    if |rows| > 0 {
      CleanLabelsIdempotent(cc, rows[1..]);
      if HasLabel(cc, rows[0]) {
        var out := CleanLabels(cc, rows);
        CleanLabelsAreClean(cc, rows);
        assert out[0].urgency.Some? && CleanLabel(cc, out[0].urgency.value);
        assert out[1..] == CleanLabels(cc, rows[1..]);
      }
    }
  }
}
