/**
 * The function evaluated in the page once the end of the survey is reached
 * (survey-automation.js, lines 104-116): it scans the texts of the `<strong>`
 * elements of `#EndOfSurvey` and returns the trimmed part after the last ':'
 * of the first text that mentions "code", whatever its letter case.
 */
module PromoExtraction {
  import opened Wrappers
  import opened JsStrings

  /** What is returned when no strong text mentions a code. */
  const NotFound := "PROMO_CODE_NOT_FOUND_IN_ELEMENT"

  /** The sentinel itself has no colon and no surrounding whitespace. */
  lemma NotFoundShape()
    ensures ':' !in NotFound
    ensures NoOuterWhitespace(NotFound)
  {
    assert NotFound[0] == 'P' && NotFound[|NotFound| - 1] == 'T';
  }

  /**
   * `s.textContent.toLowerCase().includes('code')`: some four characters in a
   * row of the text spell "code" in any mix of letter cases.
   */
  predicate MentionsCode(text: string)
    ensures MentionsCode(text) <==> exists i | 0 <= i <= |text| - 4 :: LowersTo(text, "code", i)
  {
    IncludesLowered(text, "code");
    Includes(ToLower(text), "code")
  }

  /** `s.textContent.split(':').pop().trim()`: no colon and no surrounding whitespace is left. */
  function CodeIn(text: string): (r: string)
    ensures ':' !in r
    ensures NoOuterWhitespace(r)
  {
    var tail := AfterLast(text, ':');
    var r := Trim(tail);
    TrimKeepsChars(tail, ':');
    r
  }

  /**
   * The `for (let s of strongTags)` loop with its early `return`: the code cut
   * from the first text that mentions one, or `None` when the loop runs out.
   */
  function FirstCodeIn(strongTexts: seq<string>): (r: Option<string>)
    ensures r.None? <==> forall j :: 0 <= j < |strongTexts| ==> !MentionsCode(strongTexts[j])
    ensures r.Some? ==> ':' !in r.value
    ensures r.Some? ==> NoOuterWhitespace(r.value)
    decreases |strongTexts|
  {
    if strongTexts == [] then None
    else if MentionsCode(strongTexts[0]) then Some(CodeIn(strongTexts[0]))
    else
      var r := FirstCodeIn(strongTexts[1..]);
      assert forall j :: 1 <= j < |strongTexts| ==> strongTexts[j] == strongTexts[1..][j - 1];
      r
  }

  /**
   * The whole closure: `None` stands for `document.getElementById('EndOfSurvey')`
   * finding nothing, `Some(texts)` for the texts of the strong elements inside it;
   * when no code is found the sentinel `NotFound` is returned.
   */
  function ExtractPromoCode(endDiv: Option<seq<string>>): (r: string)
    ensures ':' !in r
    ensures NoOuterWhitespace(r)
    ensures endDiv.None? ==> r == NotFound
    ensures endDiv.Some? && FirstCodeIn(endDiv.value).None? ==> r == NotFound
    ensures endDiv.Some? && FirstCodeIn(endDiv.value).Some? ==> r == FirstCodeIn(endDiv.value).value
  {
    NotFoundShape();
    match endDiv
    case None => NotFound
    case Some(texts) =>
      match FirstCodeIn(texts)
      case None => NotFound
      case Some(code) => code
  }

  /** `strongTexts[k]` is the first of the texts that mentions a code. */
  predicate FirstMention(strongTexts: seq<string>, k: nat)
  {
    k < |strongTexts| && MentionsCode(strongTexts[k])
    && forall j :: 0 <= j < k ==> !MentionsCode(strongTexts[j])
  }

  /** The first text that mentions a code decides the result; later texts are never looked at. */
  lemma {:induction false} FirstMentionWins(strongTexts: seq<string>, k: nat)
    requires FirstMention(strongTexts, k)
    ensures FirstCodeIn(strongTexts) == Some(CodeIn(strongTexts[k]))
    decreases k
  {
    if k > 0 {
      assert !MentionsCode(strongTexts[0]);
      assert FirstMention(strongTexts[1..], k - 1) by {
        assert strongTexts[1..][k - 1] == strongTexts[k];
        forall j | 0 <= j < k - 1 ensures !MentionsCode(strongTexts[1..][j]) {
          assert strongTexts[1..][j] == strongTexts[j + 1];
        }
      }
      FirstMentionWins(strongTexts[1..], k - 1);
    }
  }

  /** A found code was cut from the first text that mentions one. */
  lemma {:induction false} FoundIsFirstMention(strongTexts: seq<string>)
    requires FirstCodeIn(strongTexts).Some?
    ensures exists k: nat :: FirstMention(strongTexts, k) && FirstCodeIn(strongTexts) == Some(CodeIn(strongTexts[k]))
    decreases |strongTexts|
  {
    if MentionsCode(strongTexts[0]) {
      assert FirstMention(strongTexts, 0);
    } else {
      FoundIsFirstMention(strongTexts[1..]);
      var k: nat :| FirstMention(strongTexts[1..], k) && FirstCodeIn(strongTexts[1..]) == Some(CodeIn(strongTexts[1..][k]));
      FirstMentionShift(strongTexts, k);
    }
  }

  /** Putting a text without a code in front moves the first mention one place on. */
  lemma FirstMentionShift(strongTexts: seq<string>, k: nat)
    requires |strongTexts| > 0 && !MentionsCode(strongTexts[0])
    requires FirstMention(strongTexts[1..], k)
    ensures FirstMention(strongTexts, k + 1) && strongTexts[k + 1] == strongTexts[1..][k]
  {
    forall j | 0 <= j < k + 1 ensures !MentionsCode(strongTexts[j]) {
      if j > 0 { assert strongTexts[j] == strongTexts[1..][j - 1]; }
    }
  }
}
