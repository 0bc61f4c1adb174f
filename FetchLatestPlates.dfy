/** The bookkeeping of src/fetchLatestPlates.ts around the browser: the shared browser
    and its usage counter, the navigation and CAPTCHA retry loops, the extraction of the
    last plate, the plate log kept in `latest_plates.json`, the distance to the target
    plate, and the `runOnce` wrapper. What the browser and the page do is an input: a
    sequence of outcomes per retry loop and the table cells of the last result page. */
module FetchLatestPlates {
  import opened Wrappers
  import opened Text
  import FormatDate
  import Scheduler

  const MaxBrowserUsage := 50
  const MaxCaptchaRetry := 3
  const NavigationAttempts := 3
  const BackoffStepMs := 2000
  const LogLimit := 20
  const Target: string := "CAT-2533"
  const RetryMs := 15000
  const CaptchaGiveUp: string := "驗證碼辨識失敗: 已重試 3 次"

  /** A value thrown by the page or by the code: an `Error` with its `name` and
      `message`, or some other value. */
  datatype Thrown = ErrorValue(name: string, message: string) | OtherValue

  /** The outcome of one `page.goto` or `page.reload`. */
  datatype NavOutcome = Loaded | Failed(error: Thrown)

  /** `1 * 15 * 1000`: the interval `fetchLatestPlates` is scheduled with, in the window
      07:00-22:00, both ends included. */
  function FetchSchedule(): (c: Scheduler.Config)
    ensures c.startHour == 7 && c.endHour == 22 && c.intervalMs == 15000
    ensures c.immediate && !c.alignToTop
  {
    Scheduler.WithDefaults(7, 22, 1 * 15 * 1000, None, None)
  }

  /** The waits after failed attempts 0, 1, ..., n - 1: 2000 ms, 4000 ms, ... */
  function Backoff(n: nat): (w: seq<int>)
    ensures |w| == n && forall j :: 0 <= j < n ==> w[j] == BackoffStepMs * (j + 1)
  {
    seq(n, j requires 0 <= j < n => BackoffStepMs * (j + 1))
  }

  /** `safeGoto` and `safeReload`: up to `attempts` navigations, stopping at the first
      that loads; after a failure that is not the last the loop waits 2000 (i + 1) ms,
      and the last failure is rethrown. With no attempts at all nothing is tried and
      the call returns normally. */
  method Retry(attempts: nat, outcomes: seq<NavOutcome>) returns (r: Result<(), Thrown>, calls: nat, waits: seq<int>)
    requires |outcomes| >= attempts
    ensures calls <= attempts && (attempts > 0 ==> calls >= 1)
    ensures forall j :: 0 <= j < calls - 1 ==> outcomes[j].Failed?
    ensures r.Success? <==> attempts == 0 || outcomes[calls - 1].Loaded?
    ensures r.Failure? ==> calls == attempts && r.error == outcomes[attempts - 1].error
    ensures waits == Backoff(if calls == 0 then 0 else calls - 1)
  {
    calls := 0;
    waits := [];
    var i := 0;
    while i < attempts
      invariant 0 <= i <= attempts && (attempts == 0 || i < attempts)
      invariant calls == i
      invariant forall j :: 0 <= j < i ==> outcomes[j].Failed?
      invariant waits == Backoff(i)
    {
      calls := calls + 1;
      if outcomes[i].Loaded? {
        return Success(()), calls, waits;
      }
      if i == attempts - 1 {
        return Failure(outcomes[i].error), calls, waits;
      }
      waits := waits + [BackoffStepMs * (i + 1)];
      i := i + 1;
    }
    r := Success(());
  }

  /** What the CAPTCHA loop does, in order. */
  datatype CaptchaStep = Recognise(attempt: nat) | Refresh

  /** The steps of `n` attempts: each attempt after the first is preceded by a refresh. */
  function CaptchaSteps(n: nat): (s: seq<CaptchaStep>)
    ensures |s| == if n == 0 then 0 else 2 * n - 1
    ensures forall k :: 0 <= k < |s| ==> s[k] == if k % 2 == 0 then Recognise(k / 2) else Refresh
  {
    if n == 0 then [] else if n == 1 then [Recognise(0)] else CaptchaSteps(n - 1) + [Refresh, Recognise(n - 1)]
  }

  /** The CAPTCHA loop: up to three recognition attempts, `outcomes[i]` being what
      attempt `i` produced (the recognised text, or the message of the error). A
      failure that is not the last clicks "refresh"; the third failure gives up. */
  method SolveCaptcha(outcomes: seq<Result<string, string>>) returns (r: Result<string, string>, steps: seq<CaptchaStep>)
    requires |outcomes| >= MaxCaptchaRetry
    ensures var n := (|steps| + 1) / 2;
      && 1 <= n <= MaxCaptchaRetry && steps == CaptchaSteps(n)
      && (forall j :: 0 <= j < n - 1 ==> outcomes[j].Failure?)
      && (r.Success? ==> outcomes[n - 1].Success? && r.value == outcomes[n - 1].value)
      && (r.Failure? ==> n == MaxCaptchaRetry && outcomes[n - 1].Failure? && r.error == CaptchaGiveUp)
  {
    steps := [];
    var retryCount := 0;
    while retryCount < MaxCaptchaRetry
      invariant retryCount < MaxCaptchaRetry
      invariant steps == CaptchaSteps(retryCount) + (if retryCount > 0 then [Refresh] else [])
      invariant forall j :: 0 <= j < retryCount ==> outcomes[j].Failure?
      decreases MaxCaptchaRetry - retryCount
    {
      steps := steps + [Recognise(retryCount)];
      assert steps == CaptchaSteps(retryCount + 1);
      if outcomes[retryCount].Success? {
        return Success(outcomes[retryCount].value), steps;
      }
      if retryCount < MaxCaptchaRetry - 1 {
        steps := steps + [Refresh];
      } else {
        return Failure(CaptchaGiveUp), steps;
      }
      retryCount := retryCount + 1;
    }
    assert false;
    r := Failure(CaptchaGiveUp);
  }

  /** Success on attempt `k` (counted from 1) means exactly `k - 1` refreshes. */
  lemma {:induction false} RefreshesBeforeAttempt(n: nat)
    requires n >= 1
    ensures multiset(CaptchaSteps(n))[Refresh] == n - 1
  {
    if n > 1 {
      RefreshesBeforeAttempt(n - 1);
      assert CaptchaSteps(n) == CaptchaSteps(n - 1) + [Refresh, Recognise(n - 1)];
    }
  }

  /** A `.number_cell`: the text of its `a.number` anchor, if it has one. */
  datatype Cell = Cell(anchorText: Option<string>)

  /** The last cell's anchor text, trimmed; `None` when there are no cells or the last
      one has no anchor. */
  function LastPlate(cells: seq<Cell>): (p: Option<string>)
    ensures p.Some? <==> cells != [] && cells[|cells| - 1].anchorText.Some?
    ensures p.Some? ==> p.value == Trim(cells[|cells| - 1].anchorText.value)
  {
    if cells == [] then None
    else if cells[|cells| - 1].anchorText.None? then None
    else Some(Trim(cells[|cells| - 1].anchorText.value))
  }

  /** `if (lastPlate)`: present and not the empty string. */
  predicate Truthy(p: Option<string>) {
    p.Some? && p.value != ""
  }

  /** One entry of `latest_plates.json`. */
  datatype PlateRecord = PlateRecord(latest: string, timestamp: string)

  /** What reading `latest_plates.json` can give. */
  datatype LogFile = Missing | Unparseable | NotArray | Records(records: seq<PlateRecord>)

  /** A missing file, a parse error and a value that is not an array all read as the
      empty log. */
  function LoadLog(f: LogFile): (log: seq<PlateRecord>)
    ensures f.Records? ==> log == f.records
    ensures !f.Records? ==> log == []
  {
    if f.Records? then f.records else []
  }

  /** The newest `LogLimit` entries of a log, in their order. */
  function Newest(log: seq<PlateRecord>): (r: seq<PlateRecord>)
    ensures |r| == if |log| > LogLimit then LogLimit else |log|
    ensures r == log[|log| - |r|..]
  {
    if |log| > LogLimit then log[|log| - LogLimit..] else log
  }

  /** Whether a new record is appended: the log is empty or its last plate differs. */
  predicate IsNew(log: seq<PlateRecord>, plate: string) {
    log == [] || log[|log| - 1].latest != plate
  }

  /** The plate-log update: append `{latest, timestamp}` when the plate is new, then keep
      the newest twenty; otherwise leave the list as it is. */
  method UpdatePlateLog(log: seq<PlateRecord>, plate: string, timestamp: string)
    returns (plateList: seq<PlateRecord>, appended: bool)
    ensures appended <==> IsNew(log, plate)
    ensures !appended ==> plateList == log
    ensures appended ==> plateList == Newest(log + [PlateRecord(plate, timestamp)])
    ensures appended ==> |plateList| == if |log| + 1 > LogLimit then LogLimit else |log| + 1
    ensures appended ==> plateList[|plateList| - 1] == PlateRecord(plate, timestamp)
  {
    plateList := log;
    var lastRecord := if |plateList| > 0 then Some(plateList[|plateList| - 1]) else None;
    appended := false;
    if lastRecord.None? || lastRecord.value.latest != plate {
      plateList := plateList + [PlateRecord(plate, timestamp)];
      if |plateList| > LogLimit {
        plateList := plateList[|plateList| - LogLimit..];
      }
      appended := true;
    }
  }

  /** No two consecutive records name the same plate. */
  predicate NoRepeatedTail(log: seq<PlateRecord>) {
    forall k :: 0 <= k < |log| - 1 ==> log[k].latest != log[k + 1].latest
  }

  /** The update keeps the log within twenty entries and free of consecutive repeats,
      and afterwards its last record names the plate just seen. */
  lemma UpdateKeepsLogInvariant(log: seq<PlateRecord>, plate: string, timestamp: string)
    requires |log| <= LogLimit && NoRepeatedTail(log)
    ensures var r := if IsNew(log, plate) then Newest(log + [PlateRecord(plate, timestamp)]) else log;
      |r| <= LogLimit && NoRepeatedTail(r) && r != [] && r[|r| - 1].latest == plate
  {
    if IsNew(log, plate) {
      var full := log + [PlateRecord(plate, timestamp)];
      assert NoRepeatedTail(full) by {
        forall k | 0 <= k < |full| - 1
          ensures full[k].latest != full[k + 1].latest
        {
          if k < |log| - 1 {
            assert full[k] == log[k] && full[k + 1] == log[k + 1];
          }
        }
      }
      var r := Newest(full);
      forall k | 0 <= k < |r| - 1
        ensures r[k].latest != r[k + 1].latest
      {
        assert r[k] == full[|full| - |r| + k] && r[k + 1] == full[|full| - |r| + k + 1];
      }
    }
  }

  /** Seeing the same plate twice in a row appends only once. */
  lemma SecondSightingIsNoOp(log: seq<PlateRecord>, plate: string, t1: string, t2: string)
    requires IsNew(log, plate)
    ensures !IsNew(Newest(log + [PlateRecord(plate, t1)]), plate)
  {
  }

  /** The position shown and the plates left before the target. */
  datatype Gap = Gap(position: int, remaining: int)

  /** The distance report: both `indexOf` results must be found. `reference` is the
      parsed `notfound/notfound-all.json`, or `None` when reading or parsing it failed. */
  function Distance(reference: Option<seq<string>>, plate: string): (g: Option<Gap>)
    ensures g.Some? <==> reference.Some? && plate in reference.value && Target in reference.value
    ensures g.Some? ==>
      var ref := reference.value;
      var lastIndex := g.value.position - 1;
      var targetIdx := lastIndex + g.value.remaining;
      && 0 <= lastIndex < |ref| && ref[lastIndex] == plate && plate !in ref[..lastIndex]
      && 0 <= targetIdx < |ref| && ref[targetIdx] == Target && Target !in ref[..targetIdx]
  {
    if reference.None? then None
    else
      var lastIndex := IndexOf(reference.value, plate);
      var targetIdx := IndexOf(reference.value, Target);
      if lastIndex != -1 && targetIdx != -1 then Some(Gap(lastIndex + 1, targetIdx - lastIndex)) else None
  }

  /** `isTimeout`: an `Error` named `TimeoutError`, or one whose message matches
      /Navigation timeout/i. */
  predicate IsTimeout(e: Thrown) {
    e.ErrorValue? && (e.name == "TimeoutError" || ContainsIgnoreCase(e.message, "Navigation timeout"))
  }

  /** Puppeteer's navigation message is recognised whatever its case. */
  lemma NavigationMessageIsTimeout(prefix: string, suffix: string)
    ensures IsTimeout(ErrorValue("Error", prefix + "Navigation Timeout" + suffix))
  {
    var msg := prefix + "Navigation Timeout" + suffix;
    var low := ToLower(msg);
    assert low[|prefix|..|prefix| + 18] == ToLower("Navigation timeout");
    assert OccursAt(low, ToLower("Navigation timeout"), |prefix|);
  }

  /** The browser handle: its identity and whether it is still connected. */
  datatype Browser = Browser(id: nat, connected: bool)

  /** Everything one visit of the result pages produces, attempt by attempt. */
  datatype Visit = Visit(
    launchError: Option<Thrown>,         // `puppeteer.launch`, when a new browser is needed
    gotoOutcomes: seq<NavOutcome>,       // the first `safeGoto`
    formError: Option<Thrown>,           // the select cascade and waits before the CAPTCHA
    captcha: seq<Result<string, string>>,
    submitError: Option<Thrown>,         // typing, submitting and reading the last-page link
    lastPageOutcomes: seq<NavOutcome>,   // the `safeGoto` to the last page
    tableError: Option<Thrown>,          // the waits for the table and the read of its cells
    cells: seq<Cell>,
    now: FormatDate.DateTime)

  predicate WellFormedVisit(v: Visit) {
    |v.gotoOutcomes| >= NavigationAttempts && |v.lastPageOutcomes| >= NavigationAttempts
    && |v.captcha| >= MaxCaptchaRetry
  }

  /** One of the first `attempts` navigations loads. */
  predicate Loads(outcomes: seq<NavOutcome>, attempts: nat)
    requires |outcomes| >= attempts
  {
    exists j :: 0 <= j < attempts && outcomes[j].Loaded?
  }

  /** One of the three recognition attempts gives a text. */
  predicate Solves(captcha: seq<Result<string, string>>)
    requires |captcha| >= MaxCaptchaRetry
  {
    exists j :: 0 <= j < MaxCaptchaRetry && captcha[j].Success?
  }

  /** Every step on the pages goes through, up to the read of the last cells. */
  predicate PagesLoad(v: Visit)
    requires WellFormedVisit(v)
  {
    && Loads(v.gotoOutcomes, NavigationAttempts) && v.formError.None?
    && Solves(v.captcha) && v.submitError.None?
    && Loads(v.lastPageOutcomes, NavigationAttempts) && v.tableError.None?
  }

  /** The error a visit that does not go through ends with: that of the first step
      that fails, in page order. A navigation rethrows its third failure, and the
      CAPTCHA loop gives up with its own `Error`. */
  function FirstError(v: Visit): Thrown
    requires WellFormedVisit(v) && !PagesLoad(v)
  {
    if !Loads(v.gotoOutcomes, NavigationAttempts) then v.gotoOutcomes[NavigationAttempts - 1].error
    else if v.formError.Some? then v.formError.value
    else if !Solves(v.captcha) then ErrorValue("Error", CaptchaGiveUp)
    else if v.submitError.Some? then v.submitError.value
    else if !Loads(v.lastPageOutcomes, NavigationAttempts) then v.lastPageOutcomes[NavigationAttempts - 1].error
    else v.tableError.value
  }

  /** What a completed run reports. */
  datatype RunReport = RunReport(plate: Option<string>, appended: bool, gap: Option<Gap>)

  /** The module-level state as a value: `sharedBrowser`, `browserRestartCount`, the
      number of browsers launched so far and the contents of `latest_plates.json`. */
  datatype Session = Session(browser: Option<Browser>, restartCount: int, launches: nat, logFile: LogFile)

  /** A handle `ensureBrowser` reuses: present and still connected. */
  predicate Live(b: Option<Browser>) {
    b.Some? && b.value.connected
  }

  /** The log after a completed run: the record is appended exactly when the last plate
      is present, non-empty and new, and the distance is reported only then. */
  predicate Recorded(f: LogFile, v: Visit, reference: Option<seq<string>>, rep: RunReport, f': LogFile) {
    var log := LoadLog(f);
    && rep.plate == LastPlate(v.cells)
    && (rep.appended <==> Truthy(rep.plate) && IsNew(log, rep.plate.value))
    && (rep.appended ==>
          && f' == Records(Newest(log + [PlateRecord(rep.plate.value, FormatDate.FormatDate(v.now))]))
          && rep.gap == Distance(reference, rep.plate.value))
    && (!rep.appended ==> f' == f && rep.gap == None)
  }

  /** What one call of `fetchLatestPlates` leaves, from session `s` to session `s'`.
      Without a live browser and with a failing launch, it fails and nothing changes.
      Otherwise the browser `b` in use is the live one or a new one (and the counter
      `count` is its counter, or 0 for a new one); the run completes exactly when every
      page step goes through. A failed run carries the error of the first failing step,
      keeps `b` and `count` and leaves the log alone; a completed run records the plate, advances the counter and closes `b`
      once the counter reaches fifty. */
  predicate RunLeaves(v: Visit, reference: Option<seq<string>>, r: Result<RunReport, Thrown>, s: Session, s': Session)
    requires WellFormedVisit(v)
  {
    if !Live(s.browser) && v.launchError.Some? then
      r == Failure(v.launchError.value) && s' == s
    else
      var b := if Live(s.browser) then s.browser.value else Browser(s.launches, true);
      var count := if Live(s.browser) then s.restartCount else 0;
      && s'.launches == s.launches + (if Live(s.browser) then 0 else 1)
      && (r.Success? <==> PagesLoad(v))
      && (r.Failure? ==> r.error == FirstError(v))
      && (r.Failure? ==> s'.browser == Some(b) && s'.restartCount == count && s'.logFile == s.logFile)
      && (r.Success? ==>
            && s'.restartCount == count + 1
            && s'.browser == (if count + 1 >= MaxBrowserUsage then None else Some(b))
            && Recorded(s.logFile, v, reference, r.value, s'.logFile))
  }

  /** The steps on the pages, from the first navigation to the read of the table: the
      first failure propagates, and nothing after it runs. */
  method VisitPages(v: Visit) returns (r: Result<(), Thrown>)
    requires WellFormedVisit(v)
    ensures r.Success? <==> PagesLoad(v)
    ensures r.Failure? ==> r.error == FirstError(v)
  {
    var nav, calls, waits := Retry(NavigationAttempts, v.gotoOutcomes);
    if nav.Failure? {
      return Failure(nav.error);
    }
    if v.formError.Some? {
      return Failure(v.formError.value);
    }
    var captchaText, steps := SolveCaptcha(v.captcha);
    if captchaText.Failure? {
      return Failure(ErrorValue("Error", captchaText.error));
    }
    if v.submitError.Some? {
      return Failure(v.submitError.value);
    }
    nav, calls, waits := Retry(NavigationAttempts, v.lastPageOutcomes);
    if nav.Failure? {
      return Failure(nav.error);
    }
    if v.tableError.Some? {
      return Failure(v.tableError.value);
    }
    r := Success(());
  }

  /** The module-level state of src/fetchLatestPlates.ts. */
  class PlateScraper {
    var browser: Option<Browser>
    var restartCount: int
    var launches: nat
    var logFile: LogFile

    constructor (f: LogFile)
      ensures browser == None && restartCount == 0 && launches == 0 && logFile == f
    {
      browser := None;
      restartCount := 0;
      launches := 0;
      logFile := f;
    }

    function Snapshot(): Session
      reads this
    {
      Session(browser, restartCount, launches, logFile)
    }

    /** The browser dropped its connection (a crash, or closed from outside). */
    method Disconnect()
      requires browser.Some?
      modifies this
      ensures browser == Some(Browser(old(browser).value.id, false))
      ensures restartCount == old(restartCount) && launches == old(launches) && logFile == old(logFile)
    {
      browser := Some(Browser(browser.value.id, false));
    }

    /** `ensureBrowser`: a connected browser is reused; otherwise a new one is launched
        and the counter starts again from zero. A failing launch propagates and leaves
        the handle and the counter as they were. */
    method EnsureBrowser(launchError: Option<Thrown>) returns (b: Result<Browser, Thrown>)
      modifies this
      ensures old(Live(browser)) ==> b == Success(old(browser).value) && Snapshot() == old(Snapshot())
      ensures !old(Live(browser)) && launchError.Some? ==>
        b == Failure(launchError.value) && Snapshot() == old(Snapshot())
      ensures !old(Live(browser)) && launchError.None? ==>
        && b == Success(Browser(old(launches), true)) && browser == Some(b.value)
        && restartCount == 0 && launches == old(launches) + 1 && logFile == old(logFile)
    {
      if browser.None? || !browser.value.connected {
        if launchError.Some? {
          return Failure(launchError.value);
        }
        browser := Some(Browser(launches, true));
        launches := launches + 1;
        restartCount := 0;
      }
      b := Success(browser.value);
    }

    /** `closeBrowser`: nothing to do without a browser; otherwise it is closed, and the
        handle is dropped even when closing fails (that error is logged and swallowed).
        The counter is left alone. */
    method CloseBrowser()
      modifies this
      ensures browser == None
      ensures restartCount == old(restartCount) && launches == old(launches) && logFile == old(logFile)
    {
      if browser.Some? {
        browser := None;
      }
    }

    /** The end of a run that got this far: the counter goes up by one and the browser
        is closed once it has served fifty runs. */
    method FinishRun()
      modifies this
      ensures restartCount == old(restartCount) + 1
      ensures browser == if restartCount >= MaxBrowserUsage then None else old(browser)
      ensures launches == old(launches) && logFile == old(logFile)
    {
      restartCount := restartCount + 1;
      if restartCount >= MaxBrowserUsage {
        CloseBrowser();
      }
    }

    /** The handling of the last plate: the log update, and the distance after an
        append. */
    method RecordPlate(v: Visit, reference: Option<seq<string>>) returns (rep: RunReport)
      modifies this
      ensures Recorded(old(logFile), v, reference, rep, logFile)
      ensures browser == old(browser) && restartCount == old(restartCount) && launches == old(launches)
    {
      var lastPlate := LastPlate(v.cells);
      var appended := false;
      var gap := None;
      if lastPlate.Some? && lastPlate.value != "" {
        var now := FormatDate.FormatDate(v.now);
        var plateList := LoadLog(logFile);
        plateList, appended := UpdatePlateLog(plateList, lastPlate.value, now);
        if appended {
          logFile := Records(plateList);
          gap := Distance(reference, lastPlate.value);
        }
      }
      rep := RunReport(lastPlate, appended, gap);
    }

    /** `fetchLatestPlates`. */
    method FetchLatestPlates(v: Visit, reference: Option<seq<string>>) returns (r: Result<RunReport, Thrown>)
      requires WellFormedVisit(v)
      modifies this
      ensures RunLeaves(v, reference, r, old(Snapshot()), Snapshot())
    {
      var b := EnsureBrowser(v.launchError);
      if b.Failure? {
        return Failure(b.error);
      }
      var pages := VisitPages(v);
      if pages.Failure? {
        return Failure(pages.error);
      }
      var rep := RecordPlate(v, reference);
      FinishRun();
      r := Success(rep);
    }

    /** `runOnce`: errors never escape. The run leaves what `fetchLatestPlates` leaves;
        a timeout schedules exactly one more run after 15000 ms, and any other failure,
        and a completed run, schedule nothing. */
    method RunOnce(v: Visit, reference: Option<seq<string>>)
      returns (outcome: Result<RunReport, Thrown>, retryAfter: Option<int>)
      requires WellFormedVisit(v)
      modifies this
      ensures RunLeaves(v, reference, outcome, old(Snapshot()), Snapshot())
      ensures retryAfter.Some? <==> outcome.Failure? && IsTimeout(outcome.error)
      ensures retryAfter.Some? ==> retryAfter.value == RetryMs
    {
      outcome := FetchLatestPlates(v, reference);
      retryAfter := None;
      if outcome.Failure? && IsTimeout(outcome.error) {
        retryAfter := Some(1 * 15 * 1000);
      }
    }

    /** The delayed retry: one more run, whose error, if any, is only logged; it
        schedules nothing. */
    method RetryRun(v: Visit, reference: Option<seq<string>>) returns (outcome: Result<RunReport, Thrown>)
      requires WellFormedVisit(v)
      modifies this
      ensures RunLeaves(v, reference, outcome, old(Snapshot()), Snapshot())
    {
      outcome := FetchLatestPlates(v, reference);
    }
  }

  /** A live browser has served fewer than fifty completed runs. */
  predicate UsageBounded(s: Session) {
    Live(s.browser) ==> 0 <= s.restartCount < MaxBrowserUsage
  }

  /** Every run keeps the usage bound: the browser is closed on its fiftieth run. */
  lemma RunKeepsUsageBounded(v: Visit, reference: Option<seq<string>>, r: Result<RunReport, Thrown>, s: Session, s': Session)
    requires WellFormedVisit(v) && RunLeaves(v, reference, r, s, s') && UsageBounded(s)
    ensures UsageBounded(s')
  {
  }

  /** A completed run on a live browser below the limit leaves that same browser live
      for the next run, and launches nothing. */
  lemma CompletedRunKeepsBrowser(v: Visit, reference: Option<seq<string>>, r: Result<RunReport, Thrown>, s: Session, s': Session)
    requires WellFormedVisit(v) && RunLeaves(v, reference, r, s, s')
    requires Live(s.browser) && r.Success? && s.restartCount + 1 < MaxBrowserUsage
    ensures s'.browser == s.browser && Live(s'.browser)
    ensures s'.launches == s.launches && s'.restartCount == s.restartCount + 1
  {
  }

  /** Giving up on the CAPTCHA is not a timeout, so `runOnce` schedules no retry for a
      visit that fails there. */
  lemma CaptchaFailureIsNotRetried(v: Visit, reference: Option<seq<string>>, r: Result<RunReport, Thrown>, s: Session, s': Session)
    requires WellFormedVisit(v) && RunLeaves(v, reference, r, s, s')
    requires Live(s.browser) || v.launchError.None?
    requires Loads(v.gotoOutcomes, NavigationAttempts) && v.formError.None? && !Solves(v.captcha)
    ensures r.Failure? && r.error == ErrorValue("Error", CaptchaGiveUp) && !IsTimeout(r.error)
  {
    assert |ToLower(CaptchaGiveUp)| < |ToLower("Navigation timeout")|;
  }

  /** Three navigations to the query page that all fail, the last with a timeout, fail
      the run with that timeout, so `runOnce` schedules its retry. */
  lemma NavigationTimeoutIsRetried(v: Visit, reference: Option<seq<string>>, r: Result<RunReport, Thrown>, s: Session, s': Session)
    requires WellFormedVisit(v) && RunLeaves(v, reference, r, s, s')
    requires Live(s.browser) || v.launchError.None?
    requires forall j :: 0 <= j < NavigationAttempts ==> v.gotoOutcomes[j].Failed?
    requires IsTimeout(v.gotoOutcomes[NavigationAttempts - 1].error)
    ensures r.Failure? && r.error == v.gotoOutcomes[NavigationAttempts - 1].error && IsTimeout(r.error)
  {
  }

  /** The example the target computation is built for: in the list
      [CAT-2531, CAT-2532, CAT-2533] the plate CAT-2531 is shown at position 1 with 2
      plates left. */
  lemma DistanceExample()
    ensures Distance(Some(["CAT-2531", "CAT-2532", "CAT-2533"]), "CAT-2531") == Some(Gap(1, 2))
  {
    var ref := ["CAT-2531", "CAT-2532", "CAT-2533"];
    assert ref[0] == "CAT-2531";
    assert ref[1] != Target by { assert ref[1][7] != Target[7]; }
    assert ref[0] != Target by { assert ref[0][7] != Target[7]; }
    assert IndexOf(ref, Target) == 2;
  }
}
