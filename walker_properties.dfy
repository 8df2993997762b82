/**
 * What the closed-form outcome of `runSurveyAutomation` promises: the loop's
 * log shape and bounds, that logs only grow, which exits succeed, that the
 * browser is closed exactly once when it was launched, and how little of the
 * code and of the page oracle the result depends on.
 */
module WalkerProperties {
  import opened Wrappers
  import opened JsStrings
  import opened QuestionDispatch
  import opened PromoExtraction
  import opened SurveyWalker
  import opened SeqFacts

  // ------------------------------------------------------------------ steps

  /** Every step makes at least the wait for Next and the click on it. */
  lemma StepCallsFrame(p: Page)
    ensures |StepCalls(p)| >= 2
    ensures StepCalls(p)[0] == WaitFor(NextButton)
    ensures StepCalls(p)[|StepCalls(p)| - 1] == Click(NextButton)
  {
  }

  /** The calls a step makes are a prefix of its calls; a fault stops right after the call that throws. */
  lemma AttemptedCallsPrefix(p: Page)
    ensures AttemptedCalls(p) <= StepCalls(p)
    ensures |AttemptedCalls(p)| >= 1 && AttemptedCalls(p)[0] == WaitFor(NextButton)
    ensures Faults(p) ==> |AttemptedCalls(p)| == p.faultAt.value + 1
    ensures !Faults(p) ==> AttemptedCalls(p) == StepCalls(p)
  {
    StepCallsFrame(p);
  }

  /** A step logs its `[STEP n]` line unless its first wait throws, and its completion line exactly when nothing throws. */
  lemma StepLogsShape(step: nat, p: Page)
    ensures !Faults(p) ==> StepLogs(step, p) == [StepLine(step, Dispatch(p.url)), StepDoneLine(step)]
    ensures Faults(p) ==> StepLogs(step, p) == if p.faultAt == Some(0) then [] else [StepLine(step, Dispatch(p.url))]
  {
    StepCallsFrame(p);
  }

  /** A page no handler claims gets no call but the wait for Next and the click on it. */
  lemma UnhandledPageLeftAlone(p: Page)
    requires Dispatch(p.url) == Unhandled
    ensures StepCalls(p) == [WaitFor(NextButton), Click(NextButton)]
  {
    DispatchUnhandledIff(p.url);
  }

  /** The matrix handler queries once, then clicks every matched label once, in document order. */
  lemma MatrixClicksEveryLabel(selector: string, n: nat)
    ensures |HandlerCalls(ClickAllMatching(selector), n)| == n + 1
    ensures HandlerCalls(ClickAllMatching(selector), n)[0] == QueryAll(selector)
    ensures forall i :: 0 <= i < n ==> HandlerCalls(ClickAllMatching(selector), n)[i + 1] == ClickMatch(selector, i)
  {
  }

  // ------------------------------------------------------------------- loop

  /** The lines of the steps `lo` to `hi - 1` when each of them completes. */
  function CompletedLogs(pages: nat -> Page, lo: nat, hi: nat): seq<LogLine>
    requires lo <= hi
    decreases hi
  {
    if hi == lo then []
    else CompletedLogs(pages, lo, hi - 1) + [StepLine(hi - 1, Dispatch(pages(hi - 1).url)), StepDoneLine(hi - 1)]
  }

  /** Steps on which nothing throws log exactly their two lines each. */
  lemma {:induction false} LoopLogsCompleted(pages: nat -> Page, lo: nat, hi: nat)
    requires lo <= hi
    requires forall j :: lo <= j < hi ==> !Faults(pages(j))
    ensures LoopLogs(pages, lo, hi) == CompletedLogs(pages, lo, hi)
    decreases hi
  {
    if hi > lo {
      LoopLogsCompleted(pages, lo, hi - 1);
      StepLogsShape(hi - 1, pages(hi - 1));
    }
  }

  /**
   * Completed steps log in pairs: for each step `n` the `[STEP n]` line and
   * then the `[STEP n Complete]` line, in step order.
   */
  lemma {:induction false} CompletedLogsShape(pages: nat -> Page, lo: nat, hi: nat)
    requires lo <= hi
    ensures |CompletedLogs(pages, lo, hi)| == 2 * (hi - lo)
    ensures forall n :: lo <= n < hi ==>
              CompletedLogs(pages, lo, hi)[2 * (n - lo)] == StepLine(n, Dispatch(pages(n).url))
              && CompletedLogs(pages, lo, hi)[2 * (n - lo) + 1] == StepDoneLine(n)
    decreases hi
  {
    if hi > lo {
      var m := hi - 1;
      CompletedLogsShape(pages, lo, m);
      var before := CompletedLogs(pages, lo, m);
      AppendPairIndex(before, StepLine(m, Dispatch(pages(m).url)), StepDoneLine(m));
      forall n | lo <= n < hi
        ensures CompletedLogs(pages, lo, hi)[2 * (n - lo)] == StepLine(n, Dispatch(pages(n).url))
        ensures CompletedLogs(pages, lo, hi)[2 * (n - lo) + 1] == StepDoneLine(n)
      {
        if n < m {
          assert CompletedLogs(pages, lo, hi)[2 * (n - lo)] == before[2 * (n - lo)];
          assert CompletedLogs(pages, lo, hi)[2 * (n - lo) + 1] == before[2 * (n - lo) + 1];
        }
      }
    }
  }

  /** The same for the loop's own log, while no step throws. */
  lemma LoopLogsShape(pages: nat -> Page, lo: nat, hi: nat)
    requires lo <= hi
    requires forall j :: lo <= j < hi ==> !Faults(pages(j))
    ensures |LoopLogs(pages, lo, hi)| == 2 * (hi - lo)
    ensures forall n :: lo <= n < hi ==>
              LoopLogs(pages, lo, hi)[2 * (n - lo)] == StepLine(n, Dispatch(pages(n).url))
              && LoopLogs(pages, lo, hi)[2 * (n - lo) + 1] == StepDoneLine(n)
  {
    LoopLogsCompleted(pages, lo, hi);
    CompletedLogsShape(pages, lo, hi);
  }

  /** The loop only appends: the log after fewer steps is a prefix of the log after more. */
  lemma {:induction false} LoopLogsGrow(pages: nat -> Page, lo: nat, mid: nat, hi: nat)
    requires lo <= mid <= hi
    ensures LoopLogs(pages, lo, mid) <= LoopLogs(pages, lo, hi)
    decreases hi
  {
    if hi > mid {
      LoopLogsGrow(pages, lo, mid, hi - 1);
      PrefixExtend(LoopLogs(pages, lo, mid), LoopLogs(pages, lo, hi - 1), StepLogs(hi - 1, pages(hi - 1)));
    }
  }

  /** The same, for the calls made on the browser. */
  lemma {:induction false} LoopTraceGrow(pages: nat -> Page, lo: nat, mid: nat, hi: nat)
    requires lo <= mid <= hi
    ensures LoopTrace(pages, lo, mid) <= LoopTrace(pages, lo, hi)
    decreases hi
  {
    if hi > mid {
      LoopTraceGrow(pages, lo, mid, hi - 1);
      PrefixExtend(LoopTrace(pages, lo, mid), LoopTrace(pages, lo, hi - 1), AttemptedCalls(pages(hi - 1)));
    }
  }

  /** Oracles that agree on the pages `lo` to 24 meet their first fault at the same step. */
  lemma {:induction false} FirstFaultAgrees(pages1: nat -> Page, pages2: nat -> Page, lo: nat)
    requires lo <= MaxSteps
    requires forall n :: lo <= n < MaxSteps ==> pages1(n) == pages2(n)
    ensures FirstFault(pages1, lo) == FirstFault(pages2, lo)
    decreases MaxSteps - lo
  {
    if lo < MaxSteps {
      FirstFaultAgrees(pages1, pages2, lo + 1);
    }
  }

  /** Oracles that agree on the pages `lo` to `hi - 1` give the loop the same log and calls there. */
  lemma {:induction false} LoopAgrees(pages1: nat -> Page, pages2: nat -> Page, lo: nat, hi: nat)
    requires lo <= hi
    requires forall n :: lo <= n < hi ==> pages1(n) == pages2(n)
    ensures LoopLogs(pages1, lo, hi) == LoopLogs(pages2, lo, hi)
    ensures LoopTrace(pages1, lo, hi) == LoopTrace(pages2, lo, hi)
    decreases hi
  {
    if hi > lo {
      LoopAgrees(pages1, pages2, lo, hi - 1);
    }
  }

  // ------------------------------------------------------------------- runs

  /** Only pages 2 to 24 are ever visited: oracles that agree on them give the same run. */
  lemma OnlyLoopPagesMatter(code: Option<string>, setup: Setup, pages1: nat -> Page, pages2: nat -> Page)
    requires forall n :: FirstLoopStep <= n < MaxSteps ==> pages1(n) == pages2(n)
    ensures Outcome(code, setup, pages1) == Outcome(code, setup, pages2)
  {
    if !IsMissing(code) && setup.SetupOk? {
      LoopOutcomeAgrees(SetupLogs(code.value), SetupCalls(code.value), pages1, pages2);
    }
  }

  /** The step loop itself looks at no page outside 2 to 24. */
  lemma LoopOutcomeAgrees(logs: seq<LogLine>, trace: seq<Interaction>, pages1: nat -> Page, pages2: nat -> Page)
    requires forall n :: FirstLoopStep <= n < MaxSteps ==> pages1(n) == pages2(n)
    ensures LoopOutcome(logs, trace, pages1) == LoopOutcome(logs, trace, pages2)
  {
    FirstFaultAgrees(pages1, pages2, FirstLoopStep);
    var k := FirstFault(pages1, FirstLoopStep);
    LoopAgrees(pages1, pages2, FirstLoopStep, k);
    if k < MaxSteps {
      assert pages1(k) == pages2(k);
    }
  }

  /** An empty or absent code is rejected with the one fatal line and no browser call. */
  lemma EmptyCodeRejected(code: Option<string>, setup: Setup, pages: nat -> Page)
    requires code == None || code == Some("")
    ensures Outcome(code, setup, pages) == Run(RunResult(false, None, [NoCodeLine]), [])
    ensures LogTexts(Outcome(code, setup, pages).result.logs) == ["[FATAL] No survey code provided."]
  {
  }

  /** A run with a code starts its log with the `[INIT]` line, and a setup that goes through logs all four setup lines first. */
  lemma RunLogsStart(code: Option<string>, setup: Setup, pages: nat -> Page)
    requires !IsMissing(code)
    ensures |Outcome(code, setup, pages).result.logs| >= 2
    ensures Outcome(code, setup, pages).result.logs[0] == StartLine(code.value)
    ensures setup.SetupOk? ==> SetupLogs(code.value) <= Outcome(code, setup, pages).result.logs
  {
  }

  /**
   * A setup call that throws leaves a proper prefix of the setup's own log
   * lines (`[STEP 1 Complete]` is never among them), followed by the crash line.
   */
  lemma SetupCrashLogs(c: string, stage: SetupStage, message: string, pages: nat -> Page)
    requires c != ""
    ensures SetupLogsBefore(c, stage) < SetupLogs(c)
    ensures Outcome(Some(c), SetupFails(stage, message), pages).result.logs == SetupLogsBefore(c, stage) + [CrashLine(message)]
  {
  }

  /**
   * The log never holds more than 51 lines: the four setup lines, the two
   * lines of each of the 22 steps that can complete before the last, the
   * `[STEP n]` line of the step that throws, and the two lines of the
   * inner `catch`.
   */
  lemma RunLogsBounded(code: Option<string>, setup: Setup, pages: nat -> Page)
    ensures |Outcome(code, setup, pages).result.logs| <= 4 + 2 * (MaxSteps - FirstLoopStep) + 1
  {
    if !IsMissing(code) && setup.SetupOk? {
      var k := FirstFault(pages, FirstLoopStep);
      LoopLogsLength(pages, FirstLoopStep, k);
      if k < MaxSteps {
        StepLogsShape(k, pages(k));
      }
    }
  }

  /** Steps that complete log two lines each. */
  lemma LoopLogsLength(pages: nat -> Page, lo: nat, hi: nat)
    requires lo <= hi
    requires forall j :: lo <= j < hi ==> !Faults(pages(j))
    ensures |LoopLogs(pages, lo, hi)| == 2 * (hi - lo)
  {
    LoopLogsCompleted(pages, lo, hi);
    CompletedLogsShape(pages, lo, hi);
  }

  /**
   * The survey code reaches the log only through its first five characters:
   * codes that agree on those give the same result (while the full code is
   * still what is typed into the QR field).
   */
  lemma OnlyCodePrefixLogged(c1: string, c2: string, setup: Setup, pages: nat -> Page)
    requires c1 != "" && c2 != ""
    requires Prefix(c1, LoggedCodeLength) == Prefix(c2, LoggedCodeLength)
    ensures Outcome(Some(c1), setup, pages).result == Outcome(Some(c2), setup, pages).result
    ensures setup.SetupOk? ==> Type(QrInput, c1) in Outcome(Some(c1), setup, pages).trace
  {
    assert StartLine(c1) == StartLine(c2);
    match setup
    case SetupFails(stage, message) =>
      assert SetupLogsBefore(c1, stage) == SetupLogsBefore(c2, stage);
    case SetupOk =>
      assert SetupLogs(c1) == SetupLogs(c2);
      LoopResultIgnoresTrace(SetupLogs(c1), SetupCalls(c1), SetupCalls(c2), pages);
      TypedCodeKept(c1, pages);
  }

  /** The code typed during setup stays among the calls of the step loop. */
  lemma TypedCodeKept(c: string, pages: nat -> Page)
    ensures Type(QrInput, c) in LoopOutcome(SetupLogs(c), SetupCalls(c), pages).trace
  {
    var t := LoopOutcome(SetupLogs(c), SetupCalls(c), pages).trace;
    LoopKeepsTrace(SetupLogs(c), SetupCalls(c), pages);
    assert SetupCalls(c)[5] == Type(QrInput, c);
    assert t[5] == SetupCalls(c)[5];
  }

  /** What the step loop returns does not depend on the calls made before it. */
  lemma LoopResultIgnoresTrace(logs: seq<LogLine>, trace1: seq<Interaction>, trace2: seq<Interaction>, pages: nat -> Page)
    ensures LoopOutcome(logs, trace1, pages).result == LoopOutcome(logs, trace2, pages).result
  {
  }

  /** The step loop only adds calls after those made before it. */
  lemma LoopKeepsTrace(logs: seq<LogLine>, trace: seq<Interaction>, pages: nat -> Page)
    ensures trace <= LoopOutcome(logs, trace, pages).trace
  {
  }

  /**
   * A run that succeeds has reached the end of the survey on a page with
   * `#EndOfSurvey`; its promo code is what the extraction finds there (so it
   * holds no ':' and no outer whitespace), and the last log line reports it.
   */
  lemma SuccessCarriesExtractedCode(code: Option<string>, setup: Setup, pages: nat -> Page)
    requires Outcome(code, setup, pages).result.success
    ensures ExitOf(code, setup, pages).EndReached?
    ensures var p := pages(ExitOf(code, setup, pages).step);
            var r := Outcome(code, setup, pages).result;
            p.probe.EndMarker?
            && r.promoCode == Some(ExtractPromoCode(p.probe.strongTexts))
            && |r.logs| > 0 && r.logs[|r.logs| - 1] == ResultLine(ExtractPromoCode(p.probe.strongTexts))
  {
    OutcomeVerdict(code, setup, pages);
  }

  /**
   * Twenty-three pages in a row on which nothing throws use up the loop:
   * the run ends with 'N/A' after logging every step, and the browser closes.
   */
  lemma QuietPagesExhaustLoop(c: string, pages: nat -> Page)
    requires c != ""
    requires forall n :: FirstLoopStep <= n < MaxSteps ==> pages(n).faultAt.None?
    ensures ExitOf(Some(c), SetupOk, pages) == Exhausted
    ensures Outcome(Some(c), SetupOk, pages).result == RunResult(false, Some(NotApplicable), SetupLogs(c) + LoopLogs(pages, FirstLoopStep, MaxSteps))
    ensures |Outcome(Some(c), SetupOk, pages).result.logs| == 4 + 2 * (MaxSteps - FirstLoopStep)
  {
    assert Outcome(Some(c), SetupOk, pages) == LoopOutcome(SetupLogs(c), SetupCalls(c), pages);
    LoopRunsOut(SetupLogs(c), SetupCalls(c), pages);
  }

  /** The step loop entered with any log and calls runs out when no page throws. */
  lemma LoopRunsOut(logs: seq<LogLine>, trace: seq<Interaction>, pages: nat -> Page)
    requires forall n :: FirstLoopStep <= n < MaxSteps ==> pages(n).faultAt.None?
    ensures FirstFault(pages, FirstLoopStep) == MaxSteps
    ensures LoopOutcome(logs, trace, pages).result
            == RunResult(false, Some(NotApplicable), logs + LoopLogs(pages, FirstLoopStep, MaxSteps))
    ensures |LoopLogs(pages, FirstLoopStep, MaxSteps)| == 2 * (MaxSteps - FirstLoopStep)
  {
    var k := FirstFault(pages, FirstLoopStep);
    if k < MaxSteps {
      assert false;
    }
    LoopLogsShape(pages, FirstLoopStep, MaxSteps);
  }

  // ---------------------------------------------------------------- browser

  /** The browser exists once `puppeteer.launch` has returned. */
  predicate Launched(code: Option<string>, setup: Setup)
  {
    !IsMissing(code) && !(setup.SetupFails? && setup.stage == 0)
  }

  /** The calls `t` close the browser once, with the last of them. */
  predicate ClosedOnceAtEnd(t: seq<Interaction>)
  {
    |t| > 0 && t[|t| - 1] == CloseBrowser && CloseBrowser !in t[..|t| - 1]
  }

  /** No call of the setup or of a step closes the browser. */
  lemma NoCloseBeforeEnd(c: string, pages: nat -> Page, lo: nat, hi: nat)
    requires lo <= hi
    ensures CloseBrowser !in SetupCalls(c)
    ensures CloseBrowser !in LoopTrace(pages, lo, hi)
    decreases hi
  {
    if hi > lo {
      NoCloseBeforeEnd(c, pages, lo, hi - 1);
      NoCloseInStep(pages(hi - 1));
    }
  }

  /** A step never closes the browser. */
  lemma NoCloseInStep(p: Page)
    ensures CloseBrowser !in AttemptedCalls(p)
  {
    forall i | 0 <= i < |StepCalls(p)| ensures StepCalls(p)[i] != CloseBrowser {
    }
    AttemptedCallsPrefix(p);
  }

  /** The browser is closed exactly when it was launched, once, as the very last call. */
  lemma BrowserClosedOnceIfLaunched(code: Option<string>, setup: Setup, pages: nat -> Page)
    ensures CloseBrowser in Outcome(code, setup, pages).trace <==> Launched(code, setup)
    ensures Launched(code, setup) ==> ClosedOnceAtEnd(Outcome(code, setup, pages).trace)
  {
    if !IsMissing(code) {
      var c := code.value;
      NoCloseBeforeEnd(c, pages, FirstLoopStep, FirstLoopStep);
      match setup
      case SetupFails(stage, message) =>
        SetupCrashClosesOnce(c, stage, message, pages);
      case SetupOk =>
        LoopClosesOnce(SetupLogs(c), SetupCalls(c), pages);
    }
  }

  /** A setup call that throws closes the browser once, last, unless it was the launch itself. */
  lemma SetupCrashClosesOnce(c: string, stage: SetupStage, message: string, pages: nat -> Page)
    requires c != ""
    ensures var t := Outcome(Some(c), SetupFails(stage, message), pages).trace;
            && (stage == 0 ==> CloseBrowser !in t)
            && (stage > 0 ==> ClosedOnceAtEnd(t))
  {
    var made := SetupCalls(c)[..stage + 1];
    NoCloseBeforeEnd(c, pages, FirstLoopStep, FirstLoopStep);
    TakeKeeps(SetupCalls(c), stage + 1, CloseBrowser);
    if stage > 0 {
      DropLast(made, CloseBrowser);
    } else {
      AppendEmpty(made);
    }
  }

  /** The step loop entered with calls that do not close the browser closes it once, at the end. */
  lemma LoopClosesOnce(logs: seq<LogLine>, trace: seq<Interaction>, pages: nat -> Page)
    requires CloseBrowser !in trace
    ensures ClosedOnceAtEnd(LoopOutcome(logs, trace, pages).trace)
  {
    var k := FirstFault(pages, FirstLoopStep);
    NoCloseBeforeEnd([], pages, FirstLoopStep, k);
    var before := trace + LoopTrace(pages, FirstLoopStep, k);
    assert CloseBrowser !in before;
    if k < MaxSteps {
      NoCloseInStep(pages(k));
      assert CloseBrowser !in before + AttemptedCalls(pages(k));
      FaultClosesOnce(logs + LoopLogs(pages, FirstLoopStep, k) + StepLogs(k, pages(k)), before + AttemptedCalls(pages(k)), k, pages(k));
    } else {
      var t := before + [CloseBrowser];
      assert t[..|t| - 1] == before;
    }
  }

  /** The inner `catch` entered with calls that do not close the browser closes it once, at the end. */
  lemma FaultClosesOnce(logs: seq<LogLine>, trace: seq<Interaction>, step: nat, p: Page)
    requires CloseBrowser !in trace
    ensures ClosedOnceAtEnd(FaultOutcome(logs, trace, step, p).trace)
  {
    var before := trace + [Query(EndOfSurvey)];
    var t := FaultOutcome(logs, trace, step, p).trace;
    var evaluated := before + [EvaluateExtraction];
    match p.probe
    case ProbeThrows(_) =>
      assert t == before + [CloseBrowser];
      DropLast(before, CloseBrowser);
    case NoEndMarker =>
      assert t == before + [CloseBrowser];
      DropLast(before, CloseBrowser);
    case EndMarker(_) =>
      AppendPair(before, EvaluateExtraction, CloseBrowser);
      assert t == evaluated + [CloseBrowser];
      DropLast(evaluated, CloseBrowser);
    case ExtractionThrows(_) =>
      AppendPair(before, EvaluateExtraction, CloseBrowser);
      assert t == evaluated + [CloseBrowser];
      DropLast(evaluated, CloseBrowser);
  }
}
