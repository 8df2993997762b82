/**
 * The page handler chosen for each survey page (survey-automation.js, lines 65-91):
 * a chain of `url.includes(...)` tests, the first that holds deciding what is
 * done to the page before Next is clicked.
 */
module QuestionDispatch {
  import opened JsStrings

  /** The handlers of the chain, named after the question they were written for. */
  datatype Question = Qid14 | Qid15 | Qid45 | Qid151 | Qid134 | Matrix | Unhandled

  /** What a handler does to the page before Next is clicked. */
  datatype Action =
    | ClickOne(selector: string)
    | TypeInto(selector: string, text: string)
    | ClickAllMatching(selector: string)
    | LeaveAlone

  const Qid14YesLabel := "#QID14-1-label"
  const Qid15SatisfiedLabel := "#QID15-4-label"
  const Qid45TextArea := "textarea[id^=\"QR~QID45\"]"
  const Qid45Comment := "The quality was excellent and the service was friendly."
  const Qid151NoChoice := "#QR~QID151~3"
  const Qid134NoChoice := "#QR~QID134~2"
  const MatrixFirstColumnLabels := "label[for$=\"~1\"]"

  /** The handlers in the order the chain tries them; `Unhandled` is the final `else`. */
  const RuleOrder: seq<Question> := [Qid14, Qid15, Qid45, Qid151, Qid134, Matrix]

  /** The `url.includes` test that guards handler `q` in the chain. */
  predicate Guard(q: Question, url: string)
  {
    match q
    case Qid14 => Includes(url, "QID14")
    case Qid15 => Includes(url, "QID15")
    case Qid45 => Includes(url, "QID45")
    case Qid151 => Includes(url, "QID151")
    case Qid134 => Includes(url, "QID134")
    case Matrix => Includes(url, "QID44") || Includes(url, "QID59")
    case Unhandled => false
  }

  /** The `if ... else if ... else` chain of the step body: the handler it picks has its test hold on the URL. */
  function Dispatch(url: string): (q: Question)
    ensures q != Unhandled ==> Guard(q, url)
  {
    if Includes(url, "QID14") then Qid14
    else if Includes(url, "QID15") then Qid15
    else if Includes(url, "QID45") then Qid45
    else if Includes(url, "QID151") then Qid151
    else if Includes(url, "QID134") then Qid134
    else if Includes(url, "QID44") || Includes(url, "QID59") then Matrix
    else Unhandled
  }

  /** The page interaction each handler performs. */
  function ActionOf(q: Question): (a: Action)
    ensures a.LeaveAlone? <==> q == Unhandled
  {
    match q
    case Qid14 => ClickOne(Qid14YesLabel)
    case Qid15 => ClickOne(Qid15SatisfiedLabel)
    case Qid45 => TypeInto(Qid45TextArea, Qid45Comment)
    case Qid151 => ClickOne(Qid151NoChoice)
    case Qid134 => ClickOne(Qid134NoChoice)
    case Matrix => ClickAllMatching(MatrixFirstColumnLabels)
    case Unhandled => LeaveAlone
  }

  /**
   * The text each handler logs after `[STEP n] `: "Automating" and the
   * question for a handler, "Unhandled" for the final `else`.
   */
  function Description(q: Question): (d: string)
    ensures q != Unhandled <==> "Automating " <= d
    ensures q == Unhandled <==> "Unhandled " <= d
  {
    assert "Automating "[0] == 'A' && "Unhandled "[0] == 'U';
    match q
    case Qid14 => "Automating " + "QID14 ('Yes')"
    case Qid15 => "Automating " + "QID15 ('Highly Satisfied')"
    case Qid45 => "Automating " + "QID45 (Textarea)"
    case Qid151 => "Automating " + "QID151 ('No')"
    case Qid134 => "Automating " + "QID134 ('No')"
    case Matrix => "Automating " + "Matrix (Highly Likely/Satisfied)"
    case Unhandled => "Unhandled " + "question ID. Attempting to click Next anyway."
  }

  /** Distinct handlers log distinct texts, so the log tells which handler ran. */
  lemma DescriptionNamesHandler(q1: Question, q2: Question)
    requires Description(q1) == Description(q2)
    ensures q1 == q2
  {
    // the handlers of the same length differ in the question number
    assert |Description(q1)| == |Description(q2)|;
    assert Description(q1)[15] == Description(q2)[15];
  }

  /**
   * The chain is a first-match rule table: handler `RuleOrder[i]` is chosen
   * exactly when its guard holds and no earlier guard does.
   */
  lemma DispatchIsFirstMatch(url: string, i: nat)
    requires i < |RuleOrder|
    ensures Dispatch(url) == RuleOrder[i]
        <==> Guard(RuleOrder[i], url) && forall j :: 0 <= j < i ==> !Guard(RuleOrder[j], url)
  {
    assert RuleOrder == [Qid14, Qid15, Qid45, Qid151, Qid134, Matrix];
    if Includes(url, "QID151") {
      IncludesPrefix(url, "QID151", "QID15");
    }
    if Dispatch(url) == RuleOrder[i] {
      forall j | 0 <= j < i ensures !Guard(RuleOrder[j], url) {
        assert j in {0, 1, 2, 3, 4};
      }
    } else if Guard(RuleOrder[i], url) {
      // the chain stopped at an earlier guard
      assert exists j :: 0 <= j < i && Guard(RuleOrder[j], url) by {
        assert i in {0, 1, 2, 3, 4, 5};
        if i > 0 && Guard(RuleOrder[0], url) {
        } else if i > 1 && Guard(RuleOrder[1], url) {
        } else if i > 2 && Guard(RuleOrder[2], url) {
        } else if i > 3 && Guard(RuleOrder[3], url) {
        } else {
          assert i > 4 && Guard(RuleOrder[4], url);
        }
      }
    }
  }

  /** The final `else` is taken exactly when no guard of the table holds. */
  lemma DispatchUnhandledIff(url: string)
    ensures Dispatch(url) == Unhandled <==> forall j :: 0 <= j < |RuleOrder| ==> !Guard(RuleOrder[j], url)
  {
    assert RuleOrder == [Qid14, Qid15, Qid45, Qid151, Qid134, Matrix];
    if Dispatch(url) == Unhandled {
      forall j | 0 <= j < |RuleOrder| ensures !Guard(RuleOrder[j], url) {
        assert j in {0, 1, 2, 3, 4, 5};
      }
    } else {
      assert Guard(RuleOrder[0], url) || Guard(RuleOrder[1], url) || Guard(RuleOrder[2], url)
        || Guard(RuleOrder[3], url) || Guard(RuleOrder[4], url) || Guard(RuleOrder[5], url);
    }
  }

  /** Whatever the URL, the chain picks one of the table's handlers or the final `else`. */
  lemma DispatchInTable(url: string)
    ensures Dispatch(url) in RuleOrder || Dispatch(url) == Unhandled
  {
  }

  /**
   * Every URL that contains "QID151" also contains "QID15", which is tested
   * first, so the QID151 branch (line 76) is never taken.
   */
  lemma Qid151NeverSelected(url: string)
    ensures Dispatch(url) != Qid151
  {
    if Includes(url, "QID151") {
      IncludesPrefix(url, "QID151", "QID15");
    }
  }

  /**
   * A QID151 page (one not also mentioning QID14) gets the QID15 handler:
   * the 'Highly Satisfied' label of QID15 is clicked, never the 'No' choice of QID151.
   */
  lemma Qid151PageGetsQid15Handler(url: string)
    requires Includes(url, "QID151") && !Includes(url, "QID14")
    ensures Dispatch(url) == Qid15
    ensures ActionOf(Dispatch(url)) == ClickOne(Qid15SatisfiedLabel)
  {
    IncludesPrefix(url, "QID151", "QID15");
  }
}
