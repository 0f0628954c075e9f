/** The API review controller, the receipt ledger its dispatches go through, and the validator that re-derives the same
    chain from what they leave on disk. */
module Review {
  datatype Option<+T> = None | Some(value: T)

  datatype Verdict = Pass | NeedsChanges | Fail

  datatype Decision = Decision(verdict: Verdict, reason: string, feedback: seq<string>)

  datatype Dispatch = Dispatch(exit: int, filesChanged: seq<string>, session: string)

  datatype Bundle = Bundle(runDir: string, result: Dispatch)

  datatype Config = Config(maxIter: nat, noResume: bool)

  /** What a review request is bound to; the rest of its variables are fixed for the whole chain. */
  datatype Request = Request(bundle: Bundle, previous: Option<Bundle>)

  /** One iteration's archive directory; no decision when the judgment failed. */
  datatype Folder = Folder(request: Request, decision: Option<Decision>)

  datatype RowState = Running | Complete | Broken

  /** `feedback` is the JSON text handed to the repair, as the decision it encodes; None is the empty string. */
  datatype Row = Row(iteration: nat, state: RowState, resume: string, feedback: Option<Decision>, runDir: string, session: string)

  datatype Report = Report(verdict: Verdict, reason: string, feedback: seq<string>, iterations: nat)

  /** What a chain leaves on disk. */
  datatype History = History(ledger: seq<Row>, evidence: map<string, Bundle>, archive: map<nat, Folder>)

  const NO_CHANGES := "no-changes"
  const CODEX_ERROR := "codex-error"
  const REVIEWER_ERROR := "reviewer-error"
  const WRONG_APPROACH := "approach-fundamentally-wrong"
  const EXHAUSTED := "exhausted-iterations"
  const NOT_CONVERGING := "not-converging"

  /** decision(). */
  predicate Valid(d: Decision) {
    && |d.reason| <= 100 && |d.feedback| <= 8 && (forall k :: 0 <= k < |d.feedback| ==> |d.feedback[k]| <= 1000)
    && (d.verdict.Pass? ==> d.reason == "" && d.feedback == [])
    && (!d.verdict.Pass? ==> d.reason != "")
  }

  predicate Terminal(d: Decision) {
    d.verdict.Pass? || d.reason == NO_CHANGES || d.reason == CODEX_ERROR || d.reason == REVIEWER_ERROR
  }

  predicate Failed(b: Bundle) { b.result.exit != 0 || b.result.filesChanged == [] }

  function FailReason(b: Bundle): string {
    if b.result.filesChanged == [] || b.result.exit == 4 then NO_CHANGES else CODEX_ERROR
  }

  // ---- Reading a history ----

  function BundleAt(h: History, i: nat): Option<Bundle> {
    if 1 <= i <= |h.ledger| && h.ledger[i - 1].runDir in h.evidence then Some(h.evidence[h.ledger[i - 1].runDir]) else None
  }

  function DecisionAt(h: History, i: nat): Option<Decision> {
    if i in h.archive then h.archive[i].decision else None
  }

  /** The decision and bundle an iteration repairs. */
  function PreviousDecision(h: History, i: nat): Option<Decision> { if i <= 1 then None else DecisionAt(h, i - 1) }

  function PreviousBundle(h: History, i: nat): Option<Bundle> { if i <= 1 then None else BundleAt(h, i - 1) }

  function ResumeFor(cfg: Config, previous: Option<Decision>, bundle: Option<Bundle>): string {
    if previous.None? || bundle.None? || cfg.noResume || previous.value.reason == WRONG_APPROACH then ""
    else bundle.value.result.session
  }

  predicate SameFingerprint(a: Option<Decision>, d: Decision) {
    a.Some? && a.value.reason == d.reason && a.value.feedback == d.feedback
  }

  // ---- The controller, replayed over recorded bundles and decisions ----

  /** control()'s loop from iteration i; None when it would need a bundle or decision that is not recorded. */
  function Replay(cfg: Config, h: History, i: nat): Option<Report>
    decreases cfg.maxIter + 1 - i
  {
    if i < 1 || i > cfg.maxIter || BundleAt(h, i).None? then None
    else if Failed(BundleAt(h, i).value) then Some(Report(Fail, FailReason(BundleAt(h, i).value), [], i))
    else if DecisionAt(h, i).None? then None
    else
      var d := DecisionAt(h, i).value;
      if Terminal(d) then Some(Report(d.verdict, d.reason, d.feedback, i))
      else if i == cfg.maxIter then Some(Report(d.verdict, EXHAUSTED, d.feedback, i))
      else if SameFingerprint(PreviousDecision(h, i), d) then Some(Report(d.verdict, NOT_CONVERGING, d.feedback, i))
      else Replay(cfg, h, i + 1)
  }

  // ---- The validator ----

  /** Row i is complete, in sequence, and repairs what came before it. */
  predicate LinkOk(cfg: Config, h: History, i: nat) {
    && 1 <= i <= |h.ledger|
    && var row := h.ledger[i - 1];
       && row.state.Complete? && row.iteration == i && row.runDir in h.evidence
       && row.resume == ResumeFor(cfg, PreviousDecision(h, i), PreviousBundle(h, i))
       && row.feedback == PreviousDecision(h, i)
  }

  /** Iteration i was judged, on the evidence of that iteration. */
  predicate JudgedOk(h: History, i: nat) {
    && i in h.archive && BundleAt(h, i).Some?
    && h.archive[i].request == Request(BundleAt(h, i).value, PreviousBundle(h, i))
    && h.archive[i].decision.Some? && Valid(h.archive[i].decision.value)
  }

  predicate Stops(cfg: Config, h: History, i: nat, d: Decision) {
    Terminal(d) || i == cfg.maxIter || SameFingerprint(PreviousDecision(h, i), d)
  }

  function StopReason(cfg: Config, i: nat, d: Decision): string {
    if Terminal(d) then d.reason else if i == cfg.maxIter then EXHAUSTED else NOT_CONVERGING
  }

  predicate RowOk(cfg: Config, h: History, report: Report, i: nat) {
    && LinkOk(cfg, h, i)
    && var b := BundleAt(h, i).value;
       if Failed(b) then i == |h.ledger| && report.verdict.Fail? && report.reason == FailReason(b) && report.feedback == []
       else
         && JudgedOk(h, i)
         && var d := h.archive[i].decision.value;
            if i < |h.ledger| then !Stops(cfg, h, i, d)
            else Stops(cfg, h, i, d) && report.verdict == d.verdict && report.feedback == d.feedback
                 && report.reason == StopReason(cfg, i, d)
  }

  function JudgedRows(h: History, n: nat): set<nat> {
    set i: nat | 1 <= i <= n && BundleAt(h, i).Some? && !Failed(BundleAt(h, i).value)
  }

  /** What validate_history accepts. */
  predicate Accepts(cfg: Config, h: History, report: Report) {
    && 1 <= |h.ledger| <= cfg.maxIter
    && (forall i: nat :: 1 <= i <= |h.ledger| ==> RowOk(cfg, h, report, i))
    && h.archive.Keys == JudgedRows(h, |h.ledger|)
  }

  /** validate_history: one pass over the attempts, carrying the previous decision, bundle and fingerprint. */
  method ValidateHistory(cfg: Config, h: History, report: Report) returns (ok: bool)
    ensures ok == Accepts(cfg, h, report)
  {
    var n := |h.ledger|;
    if n < 1 || n > cfg.maxIter { return false; }
    var previous: Option<Decision>, previousBundle: Option<Bundle> := None, None;
    var fingerprint: Option<(string, seq<string>)> := None;
    var expected: set<nat> := {};
    var index := 1;
    while index <= n
      invariant 1 <= index <= n + 1
      invariant forall i: nat :: 1 <= i < index ==> RowOk(cfg, h, report, i)
      invariant index <= n ==> previous == PreviousDecision(h, index) && previousBundle == PreviousBundle(h, index)
      invariant index <= n ==> fingerprint == if previous.None? then None else Some((previous.value.reason, previous.value.feedback))
      invariant expected == JudgedRows(h, index - 1)
    {
      var row := h.ledger[index - 1];
      if !row.state.Complete? || row.iteration != index { assert !RowOk(cfg, h, report, index); return false; }
      var resume := "";
      if previous.Some? && previousBundle.Some? && !cfg.noResume && previous.value.reason != WRONG_APPROACH {
        resume := previousBundle.value.result.session;
      }
      if row.resume != resume || row.feedback != previous || row.runDir !in h.evidence {
        assert !RowOk(cfg, h, report, index);
        return false;
      }
      var bundle := h.evidence[row.runDir];
      if bundle.result.exit != 0 || bundle.result.filesChanged == [] {
        if index != n || !report.verdict.Fail? || report.reason != FailReason(bundle) || report.feedback != [] {
          assert !RowOk(cfg, h, report, index);
          return false;
        }
        assert JudgedRows(h, index) == expected;
        index := index + 1;
        continue;
      }
      expected := expected + {index};
      assert JudgedRows(h, index) == expected;
      if index !in h.archive || h.archive[index].request != Request(bundle, previousBundle) 
         || h.archive[index].decision.None? || !Valid(h.archive[index].decision.value) {
        assert !RowOk(cfg, h, report, index);
        return false;
      }
      var verdict := h.archive[index].decision.value;
      var stop, reason := Terminal(verdict), verdict.reason;
      if !stop && index == cfg.maxIter { stop, reason := true, EXHAUSTED; }
      if !stop && fingerprint == Some((verdict.reason, verdict.feedback)) { stop, reason := true, NOT_CONVERGING; }
      if index < n && stop { assert !RowOk(cfg, h, report, index); return false; }
      if index == n && (!stop || report.verdict != verdict.verdict || report.feedback != verdict.feedback || report.reason != reason) {
        assert !RowOk(cfg, h, report, index);
        return false;
      }
      previous, previousBundle, fingerprint := Some(verdict), Some(bundle), Some((verdict.reason, verdict.feedback));
      index := index + 1;
    }
    ok := h.archive.Keys == expected;
  }

  // ---- The ledger and the controller ----

  /** The row an attempt leaves in the ledger. */
  function RowOf(iteration: nat, session: string, feedback: Option<Decision>, dispatched: Option<Bundle>): Row {
    match dispatched
    case None => Row(iteration, Broken, session, feedback, "", "")
    case Some(b) => Row(iteration, Complete, session, feedback, b.runDir, b.result.session)
  }

  /** The receipt's state, changed by collect_with_receipt and judge. */
  class Receipt {
    const cfg: Config
    var ledger: seq<Row>
    var evidence: map<string, Bundle>
    var archive: map<nat, Folder>

    constructor (cfg: Config)
      ensures this.cfg == cfg && ledger == [] && evidence == map[] && archive == map[]
    {
      this.cfg := cfg;
      ledger, evidence, archive := [], map[], map[];
    }

    function Saved(): History
      reads this
    {
      History(ledger, evidence, archive)
    }

    /** collect_with_receipt around one dispatch whose outcome is `dispatched`, None when it raises. */
    method Collect(session: string, feedback: Option<Decision>, dispatched: Option<Bundle>) returns (bundle: Option<Bundle>)
      modifies this
      ensures archive == old(archive)
      ensures var admitted := && (forall k :: 0 <= k < |old(ledger)| ==> old(ledger)[k].state.Complete?)
                              && |old(ledger)| < cfg.maxIter
                              && (session == "" || (|old(ledger)| > 0 && !cfg.noResume && session == old(ledger)[|old(ledger)| - 1].session));
              if !admitted then (bundle == None && ledger == old(ledger) && evidence == old(evidence))
              else
                && bundle == dispatched
                && ledger == old(ledger) + [RowOf(|old(ledger)| + 1, session, feedback, dispatched)]
                && evidence == if dispatched.Some? then old(evidence)[dispatched.value.runDir := dispatched.value] else old(evidence)
    {
      var i := 0;
      while i < |ledger|
        invariant 0 <= i <= |ledger|
        invariant forall k :: 0 <= k < i ==> ledger[k].state.Complete?
      {
        if !ledger[i].state.Complete? { return None; }
        i := i + 1;
      }
      if |ledger| >= cfg.maxIter { return None; }
      var permitted := if ledger == [] || cfg.noResume then {""} else {"", ledger[|ledger| - 1].session};
      if session !in permitted { return None; }
      var row := Row(|ledger| + 1, Running, session, feedback, "", "");
      ledger := ledger + [row];
      bundle := dispatched;
      if bundle.Some? {
        evidence := evidence[bundle.value.runDir := bundle.value];
        row := row.(state := Complete, runDir := bundle.value.runDir, session := bundle.value.result.session);
      } else {
        row := row.(state := Broken);
      }
      ledger := ledger[|ledger| - 1 := row];
    }

    /** judge: the request is archived before the model is asked, and only a valid decision comes back. */
    method Judge(request: Request, iteration: nat, answer: Option<Decision>) returns (d: Option<Decision>)
      modifies this`archive
      ensures iteration in old(archive) ==> d == None && archive == old(archive)
      ensures iteration !in old(archive) ==>
                && d == (if answer.Some? && Valid(answer.value) then answer else None)
                && archive == old(archive)[iteration := Folder(request, d)]
    {
      if iteration in archive { return None; }
      archive := archive[iteration := Folder(request, None)];
      if answer.None? || !Valid(answer.value) { return None; }
      archive := archive[iteration := Folder(request, answer)];
      d := answer;
    }

    /** The last row of the ledger is complete and archived as asked about, and the model gave no valid decision. */
    ghost predicate Unjudged(judge: (nat, Request) -> Option<Decision>)
      reads this
    {
      && |ledger| > 0 && ledger[|ledger| - 1].state.Complete? && |ledger| in archive
      && archive[|ledger|].decision.None? && NoDecision(judge(|ledger|, archive[|ledger|].request))
    }

    /** The last dispatch raised, and is recorded as broken. */
    ghost predicate Undelivered(dispatch: nat -> Option<Bundle>)
      reads this
    {
      |ledger| > 0 && ledger[|ledger| - 1].state.Broken? && dispatch(|ledger|).None?
    }

    /** The verdict on one bundle: a failed dispatch is not judged. */
    method Assess(bundle: Bundle, previousBundle: Option<Bundle>, iteration: nat, judge: (nat, Request) -> Option<Decision>)
      returns (verdict: Option<Decision>)
      requires Chain(cfg, Saved()) && iteration == |ledger| && BundleAt(Saved(), iteration) == Some(bundle)
      requires previousBundle == PreviousBundle(Saved(), iteration)
      modifies this`archive
      ensures verdict.Some? ==> Assessed(cfg, Saved(), verdict.value)
      ensures verdict.None? ==> !Failed(bundle) && Unjudged(judge)
    {
      if bundle.result.filesChanged == [] || bundle.result.exit == 4 {
        verdict := Some(Decision(Fail, NO_CHANGES, []));
      } else if bundle.result.exit != 0 {
        verdict := Some(Decision(Fail, CODEX_ERROR, []));
      } else {
        ghost var before := Saved();
        var request := Request(bundle, previousBundle);
        verdict := Judge(request, iteration, judge(iteration, request));
        if verdict.Some? { JudgmentExtends(cfg, before, verdict.value); }
      }
    }

    /** The repair dispatch after a verdict that does not end the review. */
    method Repair(verdict: Decision, bundle: Bundle, dispatched: Option<Bundle>) returns (next: Option<Bundle>)
      requires Assessed(cfg, Saved(), verdict) && !Stops(cfg, Saved(), |ledger|, verdict) && BundleAt(Saved(), |ledger|) == Some(bundle)
      requires ledger[|ledger| - 1].session == bundle.result.session
      requires dispatched.Some? ==> forall k :: 0 <= k < |ledger| ==> ledger[k].runDir != dispatched.value.runDir
      modifies this
      ensures next == dispatched
      ensures next.None? ==> |ledger| == |old(ledger)| + 1 && ledger[|old(ledger)|].state.Broken?
      ensures next.Some? ==>
        && Chain(cfg, Saved()) && |ledger| == |old(ledger)| + 1 && archive == old(archive)
        && ledger[..|old(ledger)|] == old(ledger)
        && ledger[|old(ledger)|].runDir == next.value.runDir && ledger[|old(ledger)|].session == next.value.result.session
        && BundleAt(Saved(), |ledger|) == next && BundleAt(Saved(), |ledger| - 1) == Some(bundle)
        && DecisionAt(Saved(), |ledger| - 1) == Some(verdict)
    {
      ghost var before := Saved();
      AssessedIsJudged(cfg, before, verdict);
      ChainIsComplete(cfg, before);
      var resume := if cfg.noResume || verdict.reason == WRONG_APPROACH then "" else bundle.result.session;
      next := Collect(resume, Some(verdict), dispatched);
      if next.Some? { RepairExtends(cfg, before, next.value, resume); }
    }

    /** What control's loop holds at the start of an iteration. */
    ghost predicate InLoop(iteration: nat, bundle: Bundle, previous: Option<Decision>, previousBundle: Option<Bundle>,
                           dispatch: nat -> Option<Bundle>)
      reads this
    {
      && iteration == |ledger| && Chain(cfg, Saved()) && BundleAt(Saved(), iteration) == Some(bundle)
      && previous == PreviousDecision(Saved(), iteration) && previousBundle == PreviousBundle(Saved(), iteration)
      && FromDispatch(ledger, dispatch) && ledger[iteration - 1].session == bundle.result.session
    }

    /** One pass of the loop: a report, the next bundle, or an exception. */
    method Iterate(iteration: nat, bundle: Bundle, previous: Option<Decision>, previousBundle: Option<Bundle>,
                   dispatch: nat -> Option<Bundle>, judge: (nat, Request) -> Option<Decision>)
      returns (r: Option<Report>, verdict: Option<Decision>, next: Option<Bundle>)
      requires InLoop(iteration, bundle, previous, previousBundle, dispatch) && DistinctRuns(dispatch)
      modifies this
      ensures r.Some? ==> Accepts(cfg, Saved(), r.value) && r.value.iterations == |ledger|
      ensures r.None? && next.None? ==> Unjudged(judge) || Undelivered(dispatch)
      ensures next.Some? ==> r.None? && InLoop(iteration + 1, next.value, verdict, Some(bundle), dispatch)
    {
      r, next := None, None;
      verdict := Assess(bundle, previousBundle, iteration, judge);
      if verdict.None? { return; }
      r := Conclusion(cfg, iteration, verdict.value, previous);
      if r.Some? {
        ConclusionIsAccepted(cfg, Saved(), verdict.value);
        return;
      }
      FreshRun(ledger, dispatch);
      ghost var rows := ledger;
      AssessedIsJudged(cfg, Saved(), verdict.value);
      next := Repair(verdict.value, bundle, dispatch(iteration + 1));
      if next.Some? { NextRow(rows, ledger, dispatch); }
    }

    /** One review: the first dispatch, then control's loop. `dispatch(i)` is what the i-th dispatch returns and `judge`
        what the model answers; None is an exception, which leaves the review without a report. The receipt then shows
        where: its last row is that of the dispatch or of the judgment that raised. */
    method Control(dispatch: nat -> Option<Bundle>, judge: (nat, Request) -> Option<Decision>)
      returns (r: Option<Report>)
      requires ledger == [] && evidence == map[] && archive == map[]
      requires DistinctRuns(dispatch)
      modifies this
      ensures r.Some? ==> Accepts(cfg, Saved(), r.value) && r.value.iterations == |ledger|
      ensures r.None? ==> (cfg.maxIter == 0 && ledger == []) || Unjudged(judge) || Undelivered(dispatch)
    {
      r := None;
      var bundle := Collect("", None, dispatch(1));
      if bundle.None? { return; }
      var previous: Option<Decision>, previousBundle: Option<Bundle> := None, None;
      var iteration := 1;
      while iteration <= cfg.maxIter
        invariant r == None && bundle.Some? && iteration <= cfg.maxIter
        invariant InLoop(iteration, bundle.value, previous, previousBundle, dispatch)
        decreases cfg.maxIter - iteration
      {
        var verdict, next;
        r, verdict, next := Iterate(iteration, bundle.value, previous, previousBundle, dispatch, judge);
        if r.Some? || next.None? { return; }
        previous, previousBundle, bundle := verdict, bundle, next;
        iteration := iteration + 1;
      }
    }
  }

  /** Every dispatch has a run directory of its own. */
  ghost predicate DistinctRuns(dispatch: nat -> Option<Bundle>) {
    forall i: nat, j: nat :: i < j && dispatch(i).Some? && dispatch(j).Some? ==> dispatch(i).value.runDir != dispatch(j).value.runDir
  }

  predicate RowFrom(row: Row, dispatched: Option<Bundle>) {
    dispatched.Some? && row.runDir == dispatched.value.runDir
  }

  predicate FromDispatch(ledger: seq<Row>, dispatch: nat -> Option<Bundle>) {
    forall k :: 0 <= k < |ledger| ==> RowFrom(ledger[k], dispatch(k + 1))
  }

  lemma FreshRun(ledger: seq<Row>, dispatch: nat -> Option<Bundle>)
    requires FromDispatch(ledger, dispatch) && DistinctRuns(dispatch)
    ensures dispatch(|ledger| + 1).Some? ==> forall k :: 0 <= k < |ledger| ==> ledger[k].runDir != dispatch(|ledger| + 1).value.runDir
  {
    forall k | 0 <= k < |ledger| && dispatch(|ledger| + 1).Some?
      ensures ledger[k].runDir != dispatch(|ledger| + 1).value.runDir
    {
      assert RowFrom(ledger[k], dispatch(k + 1));
    }
  }

  lemma NextRow(rows: seq<Row>, ledger: seq<Row>, dispatch: nat -> Option<Bundle>)
    requires FromDispatch(rows, dispatch) && |ledger| == |rows| + 1 && ledger[..|rows|] == rows
    requires RowFrom(ledger[|rows|], dispatch(|rows| + 1))
    ensures FromDispatch(ledger, dispatch)
  {
    forall k | 0 <= k < |ledger| ensures RowFrom(ledger[k], dispatch(k + 1)) {
      if k < |rows| { assert ledger[..|rows|][k] == rows[k]; }
    }
  }

  predicate NoDecision(d: Option<Decision>) { d.None? || !Valid(d.value) }

  /** The report that ends the review at this verdict, if any: control's three returns, in its order. */
  function Conclusion(cfg: Config, iteration: nat, d: Decision, previous: Option<Decision>): Option<Report> {
    if Terminal(d) then Some(Report(d.verdict, d.reason, d.feedback, iteration))
    else if iteration == cfg.maxIter then Some(Report(d.verdict, EXHAUSTED, d.feedback, iteration))
    else if SameFingerprint(previous, d) then Some(Report(d.verdict, NOT_CONVERGING, d.feedback, iteration))
    else None
  }

  // ---- The chain the controller builds ----

  predicate Settled(cfg: Config, h: History, j: nat) {
    LinkOk(cfg, h, j) && !Failed(BundleAt(h, j).value) && JudgedOk(h, j)
  }

  predicate Continued(cfg: Config, h: History, j: nat) {
    Settled(cfg, h, j) && !Stops(cfg, h, j, h.archive[j].decision.value)
  }

  /** The last row is not judged yet; all before it were, and did not stop the review. */
  ghost predicate Chain(cfg: Config, h: History) {
    var n := |h.ledger|;
    && 1 <= n <= cfg.maxIter && LinkOk(cfg, h, n)
    && (forall j: nat :: 1 <= j < n ==> Continued(cfg, h, j))
    && forall i :: i in h.archive <==> 1 <= i < n
  }

  ghost predicate JudgedChain(cfg: Config, h: History) {
    var n := |h.ledger|;
    && 1 <= n <= cfg.maxIter && Settled(cfg, h, n)
    && (forall j: nat :: 1 <= j < n ==> Continued(cfg, h, j))
    && forall i :: i in h.archive <==> 1 <= i <= n
  }

  /** The verdict on the last row: given by its failed dispatch, or judged and archived. */
  ghost predicate Assessed(cfg: Config, h: History, d: Decision) {
    var n := |h.ledger|;
    if BundleAt(h, n).Some? && Failed(BundleAt(h, n).value)
    then Chain(cfg, h) && d == Decision(Fail, FailReason(BundleAt(h, n).value), [])
    else JudgedChain(cfg, h) && h.archive[n].decision == Some(d)
  }

  lemma AssessedIsJudged(cfg: Config, h: History, d: Decision)
    requires Assessed(cfg, h, d) && !Stops(cfg, h, |h.ledger|, d)
    ensures JudgedChain(cfg, h) && h.archive[|h.ledger|].decision == Some(d) && |h.ledger| < cfg.maxIter
  {
  }

  lemma ConclusionIsAccepted(cfg: Config, h: History, d: Decision)
    requires Assessed(cfg, h, d) && Conclusion(cfg, |h.ledger|, d, PreviousDecision(h, |h.ledger|)).Some?
    ensures Accepts(cfg, h, Conclusion(cfg, |h.ledger|, d, PreviousDecision(h, |h.ledger|)).value)
  {
    var report := Conclusion(cfg, |h.ledger|, d, PreviousDecision(h, |h.ledger|)).value;
    if BundleAt(h, |h.ledger|).Some? && Failed(BundleAt(h, |h.ledger|).value) {
      DispatchEnds(cfg, h, report);
    } else {
      JudgmentEnds(cfg, h, report);
    }
  }

  lemma ChainIsComplete(cfg: Config, h: History)
    requires JudgedChain(cfg, h)
    ensures forall k :: 0 <= k < |h.ledger| ==> h.ledger[k].state.Complete?
  {
    forall k | 0 <= k < |h.ledger| ensures h.ledger[k].state.Complete? {
      if k + 1 < |h.ledger| { assert Continued(cfg, h, k + 1); }
    }
  }

  lemma DispatchEnds(cfg: Config, h: History, report: Report)
    requires Chain(cfg, h) && Failed(BundleAt(h, |h.ledger|).value)
    requires report.verdict.Fail? && report.reason == FailReason(BundleAt(h, |h.ledger|).value) && report.feedback == []
    ensures Accepts(cfg, h, report)
  {
    forall i: nat | 1 <= i <= |h.ledger| ensures RowOk(cfg, h, report, i) {
      if i < |h.ledger| { assert Continued(cfg, h, i); }
    }
    forall i: nat | 1 <= i < |h.ledger| ensures i in JudgedRows(h, |h.ledger|) { assert Continued(cfg, h, i); }
  }

  lemma JudgmentEnds(cfg: Config, h: History, report: Report)
    requires JudgedChain(cfg, h)
    requires var d := h.archive[|h.ledger|].decision.value;
             && Stops(cfg, h, |h.ledger|, d)
             && report.verdict == d.verdict && report.feedback == d.feedback && report.reason == StopReason(cfg, |h.ledger|, d)
    ensures Accepts(cfg, h, report)
  {
    forall i: nat | 1 <= i <= |h.ledger| ensures RowOk(cfg, h, report, i) {
      if i < |h.ledger| { assert Continued(cfg, h, i); }
    }
    forall i: nat | 1 <= i <= |h.ledger| ensures i in JudgedRows(h, |h.ledger|) {
      if i < |h.ledger| { assert Continued(cfg, h, i); }
    }
  }

  lemma JudgmentExtends(cfg: Config, h: History, d: Decision)
    requires Chain(cfg, h) && !Failed(BundleAt(h, |h.ledger|).value) && Valid(d)
    ensures var n := |h.ledger|;
            JudgedChain(cfg, h.(archive := h.archive[n := Folder(Request(BundleAt(h, n).value, PreviousBundle(h, n)), Some(d))]))
  {
    var n := |h.ledger|;
    var k := h.(archive := h.archive[n := Folder(Request(BundleAt(h, n).value, PreviousBundle(h, n)), Some(d))]);
    forall j: nat | 1 <= j < n ensures Continued(cfg, k, j) { assert Continued(cfg, h, j); }
    assert Settled(cfg, k, n);
  }

  lemma RepairExtends(cfg: Config, h: History, b: Bundle, resume: string)
    requires JudgedChain(cfg, h) && |h.ledger| < cfg.maxIter
    requires forall k :: 0 <= k < |h.ledger| ==> h.ledger[k].runDir != b.runDir
    requires var n := |h.ledger|; var d := h.archive[n].decision.value;
             !Stops(cfg, h, n, d) && resume == ResumeFor(cfg, Some(d), BundleAt(h, n))
    ensures var n := |h.ledger|;
            Chain(cfg, History(h.ledger + [RowOf(n + 1, resume, h.archive[n].decision, Some(b))], h.evidence[b.runDir := b], h.archive))
  {
    var n := |h.ledger|;
    var k := History(h.ledger + [RowOf(n + 1, resume, h.archive[n].decision, Some(b))], h.evidence[b.runDir := b], h.archive);
    assert k.ledger[..n] == h.ledger;
    RowsStay(cfg, h, k, b);
    NewRowLinks(cfg, h, k, b, resume);
  }

  lemma NewRowLinks(cfg: Config, h: History, k: History, b: Bundle, resume: string)
    requires |h.ledger| > 0 && |k.ledger| == |h.ledger| + 1 && k.archive == h.archive && |h.ledger| in h.archive
    requires k.evidence == h.evidence[b.runDir := b] && BundleAt(k, |h.ledger|) == BundleAt(h, |h.ledger|)
    requires k.ledger[|h.ledger|] == RowOf(|h.ledger| + 1, resume, h.archive[|h.ledger|].decision, Some(b))
    requires resume == ResumeFor(cfg, h.archive[|h.ledger|].decision, BundleAt(h, |h.ledger|))
    ensures LinkOk(cfg, k, |h.ledger| + 1)
  {
  }

  lemma RowsStay(cfg: Config, h: History, k: History, b: Bundle)
    requires JudgedChain(cfg, h) && !Stops(cfg, h, |h.ledger|, h.archive[|h.ledger|].decision.value)
    requires |h.ledger| <= |k.ledger| && k.ledger[..|h.ledger|] == h.ledger
    requires k.evidence == h.evidence[b.runDir := b] && k.archive == h.archive
    requires forall i :: 0 <= i < |h.ledger| ==> h.ledger[i].runDir != b.runDir
    ensures forall j: nat :: 1 <= j <= |h.ledger| ==> Continued(cfg, k, j)
    ensures BundleAt(k, |h.ledger|) == BundleAt(h, |h.ledger|)
  {
    forall j: nat | 1 <= j <= |h.ledger| ensures Continued(cfg, k, j) {
      assert Continued(cfg, h, j);
      RowStays(cfg, h, k, b, j);
    }
    RowStays(cfg, h, k, b, |h.ledger|);
  }

  lemma RowStays(cfg: Config, h: History, k: History, b: Bundle, j: nat)
    requires Continued(cfg, h, j) && |h.ledger| <= |k.ledger| && k.ledger[..|h.ledger|] == h.ledger
    requires k.evidence == h.evidence[b.runDir := b] && k.archive == h.archive
    requires forall i :: 0 <= i < |h.ledger| ==> h.ledger[i].runDir != b.runDir
    ensures BundleAt(k, j) == BundleAt(h, j) && Continued(cfg, k, j)
  {
    assert k.ledger[j - 1] == h.ledger[j - 1];
    if j > 1 { assert k.ledger[j - 2] == h.ledger[j - 2]; }
  }

  // ---- Main results ----

  /** For anything the validator accepts, replaying the controller on the recorded bundles and decisions stops at the same
      iteration with the same verdict, reason and feedback. */
  lemma {:induction false} AcceptedHistoryReplays(cfg: Config, h: History, report: Report, i: nat)
    requires Accepts(cfg, h, report) && 1 <= i <= |h.ledger|
    ensures Replay(cfg, h, i) == Some(Report(report.verdict, report.reason, report.feedback, |h.ledger|))
    decreases |h.ledger| - i
  {
    assert RowOk(cfg, h, report, i);
    if i < |h.ledger| { AcceptedHistoryReplays(cfg, h, report, i + 1); }
  }

  /** So the ledger and the archive admit only one report. */
  lemma AcceptedReportIsUnique(cfg: Config, h: History, a: Report, b: Report)
    requires Accepts(cfg, h, a) && Accepts(cfg, h, b)
    ensures a.verdict == b.verdict && a.reason == b.reason && a.feedback == b.feedback
  {
    AcceptedHistoryReplays(cfg, h, a, 1);
    AcceptedHistoryReplays(cfg, h, b, 1);
  }

  predicate RowsOk(cfg: Config, h: History, report: Report, i: nat) {
    forall j: nat :: i <= j <= |h.ledger| ==> RowOk(cfg, h, report, j)
  }

  predicate LinksOk(cfg: Config, h: History) {
    && 1 <= |h.ledger| <= cfg.maxIter
    && (forall j: nat :: 1 <= j <= |h.ledger| ==> LinkOk(cfg, h, j))
    && (forall j: nat :: 1 <= j <= |h.ledger| && LinkOk(cfg, h, j) && !Failed(BundleAt(h, j).value) ==> JudgedOk(h, j))
  }

  lemma {:induction false} ReplayDecides(cfg: Config, h: History, report: Report, i: nat)
    requires LinksOk(cfg, h) && 1 <= i <= |h.ledger|
    ensures Replay(cfg, h, i) == Some(Report(report.verdict, report.reason, report.feedback, |h.ledger|)) <==> RowsOk(cfg, h, report, i)
    decreases |h.ledger| - i
  {
    var n := |h.ledger|;
    assert LinkOk(cfg, h, i);
    if i < n {
      ReplayDecides(cfg, h, report, i + 1);
      if Failed(BundleAt(h, i).value) || Stops(cfg, h, i, h.archive[i].decision.value) {
        assert Replay(cfg, h, i).value.iterations == i;
        assert !RowOk(cfg, h, report, i);
      } else {
        assert Replay(cfg, h, i) == Replay(cfg, h, i + 1);
        assert RowOk(cfg, h, report, i);
        assert RowsOk(cfg, h, report, i) <==> RowsOk(cfg, h, report, i + 1);
      }
    } else {
      assert Replay(cfg, h, n + 1) == None;
      assert RowsOk(cfg, h, report, n) <==> RowOk(cfg, h, report, n);
    }
  }

  /** A history whose links, judgments and inventory are in order is accepted with a report exactly when the controller,
      replayed on it, stops at its last row with that report: not earlier, not later, not for another reason. */
  lemma AcceptsIffReplayEndsThere(cfg: Config, h: History, report: Report)
    requires LinksOk(cfg, h) && h.archive.Keys == JudgedRows(h, |h.ledger|)
    ensures Accepts(cfg, h, report)
      <==> Replay(cfg, h, 1) == Some(Report(report.verdict, report.reason, report.feedback, |h.ledger|))
  {
    ReplayDecides(cfg, h, report, 1);
    assert Accepts(cfg, h, report) <==> RowsOk(cfg, h, report, 1);
  }
}
