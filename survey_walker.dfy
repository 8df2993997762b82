/**
 * `runSurveyAutomation` (survey-automation.js, lines 11-137) with the browser
 * replaced by an oracle: the setup calls either all succeed or one of them
 * throws, and every page of the step loop says which of the calls made on it
 * throws, if any, and what a look for `#EndOfSurvey` then finds. The walk
 * records the calls it makes on the browser (`trace`) next to the log it keeps.
 */
module SurveyWalker {
  import opened Wrappers
  import opened JsStrings
  import opened QuestionDispatch
  import opened PromoExtraction
  import opened SeqFacts

  const SurveyUrl := "https://rbixm.qualtrics.com/jfe/form/SV_3lMYn8fpUtkEu7c?CountryCode=CAN&InviteType=Coupon&SC=21"
  const UserAgent := "Mozilla/5.0 (Windows NT 10.0; Win64; x64) AppleWebKit/537.36 (KHTML, like Gecko) Chrome/120.0.0.0 Safari/537.36"
  const QrInput := "input[id=\"QR~QID9\"]"
  const NextButton := "#NextButton"
  const EndOfSurvey := "#EndOfSurvey"

  /** The step counter starts at 2 (step 1 is the code entry) and the loop runs while it is below 25. */
  const FirstLoopStep := 2
  const MaxSteps := 25
  /** How many characters of the survey code the start-up log line shows. */
  const LoggedCodeLength := 5
  const NotApplicable := "N/A"

  /** A call made on the browser or the page. */
  datatype Interaction =
    | Launch
    | NewPage
    | SetUserAgent(agent: string)
    | Goto(url: string)
    | WaitFor(selector: string)
    | Type(selector: string, text: string)
    | Click(selector: string)
    | QueryAll(selector: string)
    | ClickMatch(selector: string, index: nat)
    | Query(selector: string)
    | EvaluateExtraction
    | CloseBrowser

  /** The seven calls from `puppeteer.launch` to the first Next click, numbered 0 to 6. */
  type SetupStage = k: nat | k < 7

  /** How the setup calls went: all well, or call number `stage` threw with `message`. */
  datatype Setup = SetupOk | SetupFails(stage: SetupStage, message: string)

  /**
   * What `page.$('#EndOfSurvey')` and the extraction give after a fault in
   * the step loop: the look itself throws; no marker; a marker, and the
   * texts of the `<strong>` elements that `page.evaluate` sees inside the
   * element with that id (`None`: `getElementById` finds none); or a marker,
   * and `page.evaluate` throws.
   */
  datatype EndProbe =
    | ProbeThrows(message: string)
    | NoEndMarker
    | EndMarker(strongTexts: Option<seq<string>>)
    | ExtractionThrows(message: string)

  /**
   * One page of the step loop: its URL, how many labels the matrix selector
   * matches on it, the position in `StepCalls` of the call that throws
   * (`None`: none does; position 0 is the wait for the Next button), the
   * message it throws, and what probing for the end of the survey finds.
   */
  datatype Page = Page(url: string, matrixLabels: nat, faultAt: Option<nat>, faultMessage: string, probe: EndProbe)

  /** `{ success, promoCode, logs }`; `promoCode` is `None` where the script returns `null`. */
  datatype RunResult = RunResult(success: bool, promoCode: Option<string>, logs: seq<LogLine>)

  /** A run: its result together with the calls it made on the browser, in order. */
  datatype Run = Run(result: RunResult, trace: seq<Interaction>)

  /** How a run ends. */
  datatype Exit =
    | NoCode
    | SetupCrash(stage: SetupStage)
    | EndReached(step: nat)
    | StepFailed(step: nat)
    | ProbeCrash(step: nat)
    | ExtractionCrash(step: nat)
    | Exhausted

  // ---------------------------------------------------------------- log lines

  /**
   * One entry of the `logs` array, by the `logs.push` that adds it; `LogText`
   * gives the exact text pushed. The `[INIT]` entry holds only the part of
   * the code that is shown.
   */
  datatype LogLine =
    | NoCodeLine
    | InitLine(shownCode: string)
    | NavLine
    | FirstStepLine
    | FirstStepDoneLine
    | StepLine(step: nat, question: Question)
    | StepDoneLine(step: nat)
    | FinalLine
    | ResultLine(promoCode: string)
    | StepErrorLine(step: nat)
    | ErrorDetailsLine(message: string)
    | CrashLine(message: string)

  const InitTag := "[INIT] Starting automation for code: "
  const StepTag := "[STEP "

  /** `[INIT] Starting automation for code: ${shown}...`: the shown code right after the tag. */
  function InitText(shown: string): (text: string)
    ensures OccursAt(text, shown, |InitTag|)
  {
    OccursInMiddle(InitTag, shown, "...");
    InitTag + shown + "..."
  }

  /** `[STEP ${step}` followed by `rest`: the step number right after the tag. */
  function StepText(step: nat, rest: string): (text: string)
    ensures OccursAt(text, NatToString(step), |StepTag|)
  {
    OccursInMiddle(StepTag, NatToString(step), rest);
    StepTag + NatToString(step) + rest
  }

  /** A line that reports `payload` after `tag`: the payload ends it. */
  function ReportText(tag: string, payload: string): (text: string)
    ensures EndsWith(text, payload)
  {
    tag + payload
  }

  /**
   * `text` shows what `line` holds of the run: the shown code right after the
   * `[INIT]` tag, the step number right after `[STEP `, and the promo code or
   * the error message at the end of the lines that report one.
   */
  predicate Carries(line: LogLine, text: string)
  {
    match line
    case InitLine(shown) => OccursAt(text, shown, |InitTag|)
    case StepLine(step, _) => OccursAt(text, NatToString(step), |StepTag|)
    case StepDoneLine(step) => OccursAt(text, NatToString(step), |StepTag|)
    case ResultLine(promo) => EndsWith(text, promo)
    case ErrorDetailsLine(message) => EndsWith(text, message)
    case CrashLine(message) => EndsWith(text, message)
    case _ => true
  }

  /**
   * The text `logs.push` adds for an entry: the shown code right after the
   * `[INIT]` tag, the step number right after `[STEP `, and the promo code
   * or the error message at the end of the lines that report one.
   */
  function LogText(line: LogLine): (text: string)
    ensures Carries(line, text)
  {
    match line
    case NoCodeLine => "[FATAL] No survey code provided."
    case InitLine(shown) => InitText(shown)
    case NavLine => "[NAV] Going to URL: " + SurveyUrl
    case FirstStepLine => "[STEP 1] Entering QR code (QID9)"
    case FirstStepDoneLine => "[STEP 1 Complete] Next button clicked."
    case StepLine(step, q) => StepText(step, "] " + Description(q))
    case StepDoneLine(step) => StepText(step, " Complete] Next button clicked.")
    case FinalLine => "[FINAL] End of survey reached."
    case ResultLine(promo) => ReportText("[RESULT] Final Promo Code Extracted: ", promo)
    case StepErrorLine(step) => "[ERROR] Automation failed on step " + NatToString(step) + ". Element not found or timed out."
    case ErrorDetailsLine(message) => ReportText("[ERROR DETAILS] ", message)
    case CrashLine(message) => ReportText("[FATAL ERROR] Puppeteer crash: ", message)
  }

  /** The `logs` array of strings a run returns. */
  function LogTexts(logs: seq<LogLine>): seq<string>
  {
    seq(|logs|, i requires 0 <= i < |logs| => LogText(logs[i]))
  }

  /** The `[INIT]` entry for `code`: `code.substring(0, 5)`. */
  function StartLine(code: string): (line: LogLine)
    ensures line.InitLine? && |line.shownCode| <= LoggedCodeLength && line.shownCode <= code
    ensures |line.shownCode| == if |code| < LoggedCodeLength then |code| else LoggedCodeLength
  {
    InitLine(Prefix(code, LoggedCodeLength))
  }

  // ------------------------------------------------------------ specification

  /** `!code`: the code is absent or empty; a code that passes shows at least one character in `[INIT]`. */
  predicate IsMissing(code: Option<string>)
    ensures !IsMissing(code) ==> code.Some? && 0 < |StartLine(code.value).shownCode|
  {
    code.None? || code.value == ""
  }

  /** The setup calls, in the order the script makes them. */
  function SetupCalls(code: string): seq<Interaction>
  {
    [Launch, NewPage, SetUserAgent(UserAgent), Goto(SurveyUrl), WaitFor(QrInput), Type(QrInput, code), Click(NextButton)]
  }

  /** The log lines pushed before setup call number `stage` is made. */
  function SetupLogsBefore(code: string, stage: nat): seq<LogLine>
  {
    [StartLine(code)] + (if stage >= 3 then [NavLine] else []) + (if stage >= 4 then [FirstStepLine] else [])
  }

  /** The log lines of a setup whose calls all succeed. */
  function SetupLogs(code: string): seq<LogLine>
  {
    [StartLine(code), NavLine, FirstStepLine, FirstStepDoneLine]
  }

  /** One click per label the matrix selector matched, in document order. */
  function MatchClicks(selector: string, n: nat): seq<Interaction>
  {
    seq(n, (i: int) requires 0 <= i < n => ClickMatch(selector, i))
  }

  /** The calls a handler makes on the page. */
  function ActionCalls(q: Question, matrixLabels: nat): seq<Interaction>
  {
    HandlerCalls(ActionOf(q), matrixLabels)
  }

  /** The calls an action makes on the page. */
  function HandlerCalls(a: Action, matrixLabels: nat): seq<Interaction>
  {
    match a
    case ClickOne(selector) => [Click(selector)]
    case TypeInto(selector, text) => [WaitFor(selector), Type(selector, text)]
    case ClickAllMatching(selector) => [QueryAll(selector)] + MatchClicks(selector, matrixLabels)
    case LeaveAlone => []
  }

  /** All the calls of a step that nothing interrupts: wait for Next, the handler's calls, click Next. */
  function StepCalls(p: Page): seq<Interaction>
  {
    [WaitFor(NextButton)] + ActionCalls(Dispatch(p.url), p.matrixLabels) + [Click(NextButton)]
  }

  /** One of the step's calls throws. */
  predicate Faults(p: Page)
  {
    p.faultAt.Some? && p.faultAt.value < |StepCalls(p)|
  }

  /** The calls a step makes: all of them, or those up to and including the one that throws. */
  function AttemptedCalls(p: Page): seq<Interaction>
  {
    if Faults(p) then StepCalls(p)[..p.faultAt.value + 1] else StepCalls(p)
  }

  /** The lines the step body pushes before it completes or throws. */
  function StepLogs(step: nat, p: Page): seq<LogLine>
  {
    if p.faultAt == Some(0) then []
    else [StepLine(step, Dispatch(p.url))] + (if Faults(p) then [] else [StepDoneLine(step)])
  }

  /** The step at which the loop first meets a fault, or `MaxSteps` if it meets none. */
  function FirstFault(pages: nat -> Page, lo: nat): (k: nat)
    requires lo <= MaxSteps
    ensures lo <= k <= MaxSteps
    ensures forall j :: lo <= j < k ==> !Faults(pages(j))
    ensures k < MaxSteps ==> Faults(pages(k))
    decreases MaxSteps - lo
  {
    if lo == MaxSteps then MaxSteps
    else if Faults(pages(lo)) then lo
    else FirstFault(pages, lo + 1)
  }

  /** The lines pushed by the steps `lo` to `hi - 1`. */
  function LoopLogs(pages: nat -> Page, lo: nat, hi: nat): seq<LogLine>
    requires lo <= hi
    decreases hi
  {
    if hi == lo then [] else LoopLogs(pages, lo, hi - 1) + StepLogs(hi - 1, pages(hi - 1))
  }

  /** The calls made by the steps `lo` to `hi - 1`. */
  function LoopTrace(pages: nat -> Page, lo: nat, hi: nat): seq<Interaction>
    requires lo <= hi
    decreases hi
  {
    if hi == lo then [] else LoopTrace(pages, lo, hi - 1) + AttemptedCalls(pages(hi - 1))
  }

  /** Which way a run leaves `runSurveyAutomation`. */
  function ExitOf(code: Option<string>, setup: Setup, pages: nat -> Page): (e: Exit)
    ensures e.NoCode? <==> IsMissing(code)
    ensures e.SetupCrash? <==> !IsMissing(code) && setup.SetupFails?
    ensures (e.EndReached? || e.StepFailed? || e.ProbeCrash? || e.ExtractionCrash?) ==> FirstLoopStep <= e.step < MaxSteps
  {
    if IsMissing(code) then NoCode
    else match setup
      case SetupFails(stage, _) => SetupCrash(stage)
      case SetupOk =>
        var k := FirstFault(pages, FirstLoopStep);
        if k == MaxSteps then Exhausted
        else match pages(k).probe
          case ProbeThrows(_) => ProbeCrash(k)
          case NoEndMarker => StepFailed(k)
          case EndMarker(_) => EndReached(k)
          case ExtractionThrows(_) => ExtractionCrash(k)
  }

  /**
   * The closed-form outcome of a run: its result and the calls it makes, by
   * way of exit. Only a missing code leaves the browser untouched and the
   * promo code `null`; only a run whose setup went through can succeed.
   */
  function Outcome(code: Option<string>, setup: Setup, pages: nat -> Page): (r: Run)
    ensures r.trace == [] <==> IsMissing(code)
    ensures r.result.promoCode.None? <==> IsMissing(code)
    ensures r.result.success ==> !IsMissing(code) && setup.SetupOk?
    ensures 0 < |r.result.logs|
  {
    if IsMissing(code) then Run(RunResult(false, None, [NoCodeLine]), [])
    else
      var c := code.value;
      match setup
      case SetupFails(stage, message) =>
        Run(RunResult(false, Some(NotApplicable), SetupLogsBefore(c, stage) + [CrashLine(message)]),
            SetupCalls(c)[..stage + 1] + (if stage > 0 then [CloseBrowser] else []))
      case SetupOk => LoopOutcome(SetupLogs(c), SetupCalls(c), pages)
  }

  /**
   * The outcome of the step loop entered with `logs` and `trace`: the steps
   * up to the first fault complete, and the fault (if any) ends the run.
   * The loop only adds to the log and the calls, closes the browser last,
   * and succeeds exactly when its first fault is on a page with `#EndOfSurvey`.
   */
  function LoopOutcome(logs: seq<LogLine>, trace: seq<Interaction>, pages: nat -> Page): (r: Run)
    ensures logs <= r.result.logs && trace < r.trace
    ensures r.trace[|r.trace| - 1] == CloseBrowser
    ensures var k := FirstFault(pages, FirstLoopStep);
            r.result.success <==> k < MaxSteps && pages(k).probe.EndMarker?
    ensures !r.result.success ==> r.result.promoCode == Some(NotApplicable)
  {
    var k := FirstFault(pages, FirstLoopStep);
    var logs := logs + LoopLogs(pages, FirstLoopStep, k);
    var trace := trace + LoopTrace(pages, FirstLoopStep, k);
    if k == MaxSteps then Run(RunResult(false, Some(NotApplicable), logs), trace + [CloseBrowser])
    else FaultOutcome(logs + StepLogs(k, pages(k)), trace + AttemptedCalls(pages(k)), k, pages(k))
  }

  /**
   * The inner `catch` of a fault on page `p` at step `step`, entered with the
   * log and calls up to the call that threw: the look for `#EndOfSurvey`
   * and the end of the run it leads to. It adds to the log, makes the look
   * first and closes the browser last, and succeeds exactly when the marker
   * is there, with the code extracted from the page.
   */
  function FaultOutcome(logs: seq<LogLine>, trace: seq<Interaction>, step: nat, p: Page): (r: Run)
    ensures logs < r.result.logs && |r.result.logs| <= |logs| + 2
    ensures trace + [Query(EndOfSurvey)] < r.trace
    ensures r.trace[|r.trace| - 1] == CloseBrowser
    ensures r.result.success <==> p.probe.EndMarker?
    ensures r.result.success ==> r.result.promoCode == Some(ExtractPromoCode(p.probe.strongTexts))
    ensures !r.result.success ==> r.result.promoCode == Some(NotApplicable)
  {
    var trace := trace + [Query(EndOfSurvey)];
    match p.probe
    case ProbeThrows(message) =>
      Run(RunResult(false, Some(NotApplicable), logs + [CrashLine(message)]), trace + [CloseBrowser])
    case NoEndMarker =>
      Run(RunResult(false, Some(NotApplicable), logs + [StepErrorLine(step), ErrorDetailsLine(p.faultMessage)]),
          trace + [CloseBrowser])
    case EndMarker(texts) =>
      var promo := ExtractPromoCode(texts);
      Run(RunResult(true, Some(promo), logs + [FinalLine, ResultLine(promo)]),
          trace + [EvaluateExtraction, CloseBrowser])
    case ExtractionThrows(message) =>
      Run(RunResult(false, Some(NotApplicable), logs + [FinalLine, CrashLine(message)]),
          trace + [EvaluateExtraction, CloseBrowser])
  }

  /**
   * A run succeeds exactly when it reaches the end of the survey; every
   * other run after the code check reports 'N/A' as its promo code, and a
   * missing code is rejected before any browser call.
   */
  lemma OutcomeVerdict(code: Option<string>, setup: Setup, pages: nat -> Page)
    ensures IsMissing(code) ==> Outcome(code, setup, pages) == Run(RunResult(false, None, [NoCodeLine]), [])
    ensures Outcome(code, setup, pages).result.success <==> ExitOf(code, setup, pages).EndReached?
    ensures !Outcome(code, setup, pages).result.success ==>
              Outcome(code, setup, pages).result.promoCode == if IsMissing(code) then None else Some(NotApplicable)
  {
  }

  // ------------------------------------------------------------ the script

  /**
   * The `try` block of one loop iteration (lines 58-96): wait for Next, read
   * the URL, run the chosen handler, click Next. It stops at the first call
   * that throws and says whether the step completed.
   */
  method TryStep(step: nat, p: Page) returns (completed: bool, lines: seq<LogLine>, calls: seq<Interaction>)
    ensures completed <==> !Faults(p)
    ensures lines == StepLogs(step, p)
    ensures calls == AttemptedCalls(p)
  {
    calls := [WaitFor(NextButton)];
    lines := [];
    if p.faultAt == Some(0) {
      return false, lines, calls;
    }
    var url := p.url;
    var q := Dispatch(url);
    lines := lines + [StepLine(step, q)];
    var handled, threw := Handle(ActionOf(q), p.matrixLabels, p.faultAt);
    ghost var all := StepCalls(p);
    assert all == [WaitFor(NextButton)] + ActionCalls(q, p.matrixLabels) + [Click(NextButton)];
    calls := calls + handled;
    if threw {
      StepPrefix(ActionCalls(q, p.matrixLabels), p.faultAt.value);
      return false, lines, calls;
    }
    calls := calls + [Click(NextButton)];
    if p.faultAt == Some(|calls| - 1) {
      return false, lines, calls;
    }
    lines := lines + [StepDoneLine(step)];
    completed := true;
  }

  /**
   * The handler chosen for the page (lines 65-91), as call number 1 onwards
   * of its step: it makes the action's calls in order and stops at the one
   * `faultAt` names, if that is one of them.
   */
  method Handle(a: Action, matrixLabels: nat, faultAt: Option<nat>) returns (calls: seq<Interaction>, threw: bool)
    ensures threw <==> faultAt.Some? && 1 <= faultAt.value <= |HandlerCalls(a, matrixLabels)|
    ensures threw ==> calls == HandlerCalls(a, matrixLabels)[..faultAt.value]
    ensures !threw ==> calls == HandlerCalls(a, matrixLabels)
  {
    calls := [];
    match a {
      case ClickOne(selector) =>
        calls := calls + [Click(selector)];
        if faultAt == Some(1) {
          return calls, true;
        }
      case TypeInto(selector, text) =>
        calls := calls + [WaitFor(selector)];
        if faultAt == Some(1) {
          return calls, true;
        }
        calls := calls + [Type(selector, text)];
        if faultAt == Some(2) {
          return calls, true;
        }
      case ClickAllMatching(selector) =>
        calls := calls + [QueryAll(selector)];
        if faultAt == Some(1) {
          return calls, true;
        }
        for r := 0 to matrixLabels
          invariant calls == [QueryAll(selector)] + MatchClicks(selector, r)
          invariant forall j :: 1 <= j < r + 2 ==> faultAt != Some(j)
        {
          MatchClicksPrefix(selector, matrixLabels, r + 1);
          calls := calls + [ClickMatch(selector, r)];
          if faultAt == Some(r + 2) {
            return calls, true;
          }
        }
      case LeaveAlone =>
    }
    threw := false;
  }

  /** Each matrix click made so far is a prefix of the handler's calls. */
  lemma MatchClicksPrefix(selector: string, n: nat, r: nat)
    requires 0 < r <= n
    ensures MatchClicks(selector, r) == MatchClicks(selector, r - 1) + [ClickMatch(selector, r - 1)]
    ensures ([QueryAll(selector)] + MatchClicks(selector, n))[..r + 1] == [QueryAll(selector)] + MatchClicks(selector, r)
  {
    assert MatchClicks(selector, r) == MatchClicks(selector, n)[..r];
    assert ([QueryAll(selector)] + MatchClicks(selector, n))[..r + 1] == [QueryAll(selector)] + MatchClicks(selector, n)[..r];
  }

  /** A step cut short inside its handler has made the wait and the handler's calls up to the fault. */
  lemma StepPrefix(handler: seq<Interaction>, f: nat)
    requires 1 <= f <= |handler|
    ensures ([WaitFor(NextButton)] + handler + [Click(NextButton)])[..f + 1] == [WaitFor(NextButton)] + handler[..f]
  {
  }

  /** The outer `catch` (lines 133-137): log the crash, close the browser if it was launched. */
  method Crash(logs: seq<LogLine>, trace: seq<Interaction>, launched: bool, message: string)
    returns (result: RunResult, trace': seq<Interaction>)
    ensures result == RunResult(false, Some(NotApplicable), logs + [CrashLine(message)])
    ensures trace' == trace + (if launched then [CloseBrowser] else [])
  {
    var logs' := logs + [CrashLine(message)];
    trace' := trace;
    if launched {
      trace' := trace' + [CloseBrowser];
    }
    result := RunResult(false, Some(NotApplicable), logs');
  }

  /** Setup call number `stage` throws. */
  predicate ThrowsAt(setup: Setup, stage: nat)
  {
    setup.SetupFails? && setup.stage == stage
  }

  /**
   * `runSurveyAutomation(code)`: the early rejection of a missing code, the
   * setup calls, the step loop with its two ways out, and the result.
   */
  method RunSurveyAutomation(code: Option<string>, setup: Setup, pages: nat -> Page)
    returns (result: RunResult, trace: seq<Interaction>)
    ensures Run(result, trace) == Outcome(code, setup, pages)
    ensures IsMissing(code) ==> result == RunResult(false, None, [NoCodeLine]) && trace == []
    ensures result.success <==> ExitOf(code, setup, pages).EndReached?
    ensures !result.success ==> result.promoCode == if IsMissing(code) then None else Some(NotApplicable)
  {
    OutcomeVerdict(code, setup, pages);
    var logs: seq<LogLine> := [];
    trace := [];
    if IsMissing(code) {
      logs := logs + [NoCodeLine];
      return RunResult(false, None, logs), trace;
    }
    var c := code.value;
    var thrown;
    logs, trace, thrown := OpenSurvey(c, setup);
    if thrown.Some? {
      // the browser exists from the first call on
      result, trace := Crash(logs, trace, setup.stage > 0, thrown.value);
      return;
    }
    result, trace := StepLoop(logs, trace, pages);
  }

  /**
   * The calls of the `try` block before the step loop (lines 22-50): launch,
   * open a page, set the user agent, go to the survey, enter the code and
   * click Next. The first call that throws ends the block; its message is
   * returned in `thrown`.
   */
  method OpenSurvey(c: string, setup: Setup) returns (logs: seq<LogLine>, trace: seq<Interaction>, thrown: Option<string>)
    ensures thrown == if setup.SetupFails? then Some(setup.message) else None
    ensures setup.SetupFails? ==> logs == SetupLogsBefore(c, setup.stage) && trace == SetupCalls(c)[..setup.stage + 1]
    ensures setup.SetupOk? ==> logs == SetupLogs(c) && trace == SetupCalls(c)
  {
    ghost var setupCalls := SetupCalls(c);
    logs := [StartLine(c)];
    trace := [];
    TakeOneMore(setupCalls, 0);
    trace := trace + [Launch];
    if ThrowsAt(setup, 0) {
      return logs, trace, Some(setup.message);
    }
    TakeOneMore(setupCalls, 1);
    trace := trace + [NewPage];
    if ThrowsAt(setup, 1) {
      return logs, trace, Some(setup.message);
    }
    TakeOneMore(setupCalls, 2);
    trace := trace + [SetUserAgent(UserAgent)];
    if ThrowsAt(setup, 2) {
      return logs, trace, Some(setup.message);
    }
    logs := logs + [NavLine];
    TakeOneMore(setupCalls, 3);
    trace := trace + [Goto(SurveyUrl)];
    if ThrowsAt(setup, 3) {
      return logs, trace, Some(setup.message);
    }
    logs := logs + [FirstStepLine];
    TakeOneMore(setupCalls, 4);
    trace := trace + [WaitFor(QrInput)];
    if ThrowsAt(setup, 4) {
      return logs, trace, Some(setup.message);
    }
    TakeOneMore(setupCalls, 5);
    trace := trace + [Type(QrInput, c)];
    if ThrowsAt(setup, 5) {
      return logs, trace, Some(setup.message);
    }
    TakeOneMore(setupCalls, 6);
    trace := trace + [Click(NextButton)];
    if ThrowsAt(setup, 6) {
      return logs, trace, Some(setup.message);
    }
    logs := logs + [FirstStepDoneLine];
    assert trace == setupCalls[..7];
    thrown := None;
  }

  /**
   * The step loop (lines 54-131), entered with the log and the calls of a
   * setup that went through: steps 2 to 24, each either completing or ending
   * the run by way of the inner `catch`.
   */
  method StepLoop(logs0: seq<LogLine>, trace0: seq<Interaction>, pages: nat -> Page)
    returns (result: RunResult, trace: seq<Interaction>)
    ensures Run(result, trace) == LoopOutcome(logs0, trace0, pages)
  {
    var logs := logs0;
    trace := trace0;
    AppendEmpty(logs0);
    AppendEmpty(trace0);
    assert LoopLogs(pages, FirstLoopStep, FirstLoopStep) == [];
    var step := FirstLoopStep;
    while step < MaxSteps
      invariant FirstLoopStep <= step <= MaxSteps
      invariant step <= FirstFault(pages, FirstLoopStep)
      invariant logs == logs0 + LoopLogs(pages, FirstLoopStep, step)
      invariant trace == trace0 + LoopTrace(pages, FirstLoopStep, step)
    {
      var p := pages(step);
      var completed, lines, stepCalls := TryStep(step, p);
      logs := logs + lines;
      trace := trace + stepCalls;
      if !completed {
        assert FirstFault(pages, FirstLoopStep) == step;
        result, trace := CatchFault(logs, trace, step, p);
        return;
      }
      AppendAssoc(logs0, LoopLogs(pages, FirstLoopStep, step), lines);
      AppendAssoc(trace0, LoopTrace(pages, FirstLoopStep, step), stepCalls);
      step := step + 1;
    }
    trace := trace + [CloseBrowser];
    result := RunResult(false, Some(NotApplicable), logs);
  }

  /**
   * The inner `catch` of the step loop (lines 98-127) after a fault at step
   * `step`: a page with `#EndOfSurvey` yields the promo code and the run
   * succeeds; without it the error is logged and the loop is left (`break`),
   * after which the browser is closed and 'N/A' returned; a throw while
   * probing or extracting goes on to the outer `catch`.
   */
  method CatchFault(logs: seq<LogLine>, trace: seq<Interaction>, step: nat, p: Page)
    returns (result: RunResult, trace': seq<Interaction>)
    ensures Run(result, trace') == FaultOutcome(logs, trace, step, p)
  {
    trace' := trace + [Query(EndOfSurvey)];
    match p.probe {
      case ProbeThrows(message) =>
        result, trace' := Crash(logs, trace', true, message);
      case EndMarker(texts) =>
        var logs' := logs + [FinalLine];
        trace' := trace' + [EvaluateExtraction];
        var promoCode := ExtractPromoCode(texts);
        logs' := logs' + [ResultLine(promoCode)];
        trace' := trace' + [CloseBrowser];
        AppendPair(logs, FinalLine, ResultLine(promoCode));
        AppendPair(trace + [Query(EndOfSurvey)], EvaluateExtraction, CloseBrowser);
        result := RunResult(true, Some(promoCode), logs');
      case ExtractionThrows(message) =>
        var logs' := logs + [FinalLine];
        trace' := trace' + [EvaluateExtraction];
        result, trace' := Crash(logs', trace', true, message);
        AppendPair(logs, FinalLine, CrashLine(message));
        AppendPair(trace + [Query(EndOfSurvey)], EvaluateExtraction, CloseBrowser);
      case NoEndMarker =>
        var logs' := logs + [StepErrorLine(step), ErrorDetailsLine(p.faultMessage)];
        trace' := trace' + [CloseBrowser];
        result := RunResult(false, Some(NotApplicable), logs');
    }
  }
}
