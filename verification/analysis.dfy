/**
 * The business dashboard's simulated code analysis: a record of status,
 * progress and findings, reset by the start action and then advanced by a
 * periodic tick until the progress reaches 100.
 */
module Analysis {

  datatype Status = Idle | Analyzing | Complete

  /** One detected personal-data field. */
  datatype Finding = Finding(kind: string, field: string, location: string, severity: string)

  /** The `codeAnalysis` record. */
  datatype CodeAnalysis = CodeAnalysis(status: Status, progress: int, findings: seq<Finding>)

  /** The state before any analysis was started. */
  const IdleState := CodeAnalysis(Idle, 0, [])

  /** The state the start action resets to. */
  const StartState := CodeAnalysis(Analyzing, 0, [])

  /** How much one tick advances the progress. */
  const Step := 10

  /** The fixed findings every completed analysis reports. */
  function DetectedFindings(): (fs: seq<Finding>)
    ensures |fs| == 5
  {
    [
      Finding("email", "user_email", "components/auth/LoginForm.tsx:45", "high"),
      Finding("phone", "phone_number", "components/profile/UserProfile.tsx:23", "high"),
      Finding("location", "gps_coordinates", "utils/location.js:12", "medium"),
      Finding("analytics", "user_behavior", "services/analytics.ts:8", "medium"),
      Finding("cookies", "session_data", "middleware/session.js:5", "low")
    ]
  }

  /** The state a finished analysis ends in. */
  function CompleteState(): CodeAnalysis {
    CodeAnalysis(Complete, 100, DetectedFindings())
  }

  /** Whether the tick from `prev` also stops the timer: the new progress
      reaches 100. */
  predicate StopsTimer(prev: CodeAnalysis) {
    prev.progress + Step >= 100
  }

  /**
   * The updater the timer applies on every tick: progress grows by 10; once
   * the new progress reaches 100 the result is the completed state, with
   * progress clamped to exactly 100.
   */
  function Tick(prev: CodeAnalysis): (next: CodeAnalysis)
    ensures StopsTimer(prev) ==> next == CompleteState()
    ensures !StopsTimer(prev) ==>
      next.status == prev.status && next.findings == prev.findings && next.progress == prev.progress + 10
    ensures next.progress <= 100
  {
    var newProgress := prev.progress + Step;
    if newProgress >= 100 then CompleteState() else prev.(progress := newProgress)
  }

  /** The state after `n` ticks. */
  function Ticks(s: CodeAnalysis, n: nat): (t: CodeAnalysis)
    ensures s.status != Idle ==> t.status != Idle
    ensures s.progress <= 100 ==> t.progress <= 100
    decreases n
  {
    if n == 0 then s else Ticks(Tick(s), n - 1)
  }

  /** The states reachable from the start state: still analyzing at a
      multiple of 10 below 100 with no findings, or complete. */
  predicate Reachable(s: CodeAnalysis) {
    (s.status == Analyzing && s.progress % 10 == 0 && 0 <= s.progress < 100 && s.findings == [])
    || s == CompleteState()
  }

  /** The badge variant of a finding's severity. */
  datatype BadgeVariant = Destructive | Default | Secondary

  /** High findings are destructive, medium ones default, all others secondary. */
  function SeverityVariant(severity: string): (v: BadgeVariant)
    ensures v == Destructive <==> severity == "high"
    ensures v == Default <==> severity == "medium"
  {
    if severity == "high" then Destructive
    else if severity == "medium" then Default
    else Secondary
  }

  /** The start button is offered only while no analysis has started. */
  predicate StartOffered(s: CodeAnalysis) {
    s.status == Idle
  }

  /**
   * The dashboard's analysis panel. `AnalyzeCode` performs the start action
   * and then the timer's ticks, in order, until the tick that clears the
   * timer; it reports how many ticks ran.
   */
  class AnalysisPanel {
    var codeAnalysis: CodeAnalysis

    constructor ()
      ensures codeAnalysis == IdleState
    {
      codeAnalysis := IdleState;
    }

    method AnalyzeCode() returns (ticks: nat)
      modifies this
      ensures codeAnalysis == CompleteState()
      ensures ticks == 10
    {
      codeAnalysis := StartState;
      ticks := 0;
      var cleared := false;
      while !cleared
        invariant ticks <= 10
        invariant !cleared ==> codeAnalysis == StartState.(progress := Step * ticks) && ticks < 10
        invariant cleared ==> codeAnalysis == CompleteState() && ticks == 10
        decreases 10 - ticks
      {
        cleared := StopsTimer(codeAnalysis);
        codeAnalysis := Tick(codeAnalysis);
        ticks := ticks + 1;
      }
    }
  }

  // ---------------------------------------------------------------------------
  // Properties of the progress simulation

  /** Before the tenth tick the analysis is still running at 10 points per
      tick; the tenth tick completes it. */
  lemma {:induction false} TicksFromStart(n: nat)
    requires n <= 10
    ensures n < 10 ==> Ticks(StartState, n) == StartState.(progress := 10 * n)
    ensures n == 10 ==> Ticks(StartState, n) == CompleteState()
  {
    if n > 0 {
      TicksFromStart(n - 1);
      TicksAppend(StartState, n - 1);
    }
  }

  /** One more tick after `n` ticks is `n + 1` ticks. */
  lemma {:induction false} TicksAppend(s: CodeAnalysis, n: nat)
    ensures Ticks(s, n + 1) == Tick(Ticks(s, n))
    decreases n
  {
    if n > 0 {
      TicksAppend(Tick(s), n - 1);
    }
  }

  /** A tick keeps a reachable state reachable. */
  lemma TickPreservesReachable(s: CodeAnalysis)
    requires Reachable(s)
    ensures Reachable(Tick(s))
  {
  }

  /** Every state reachable from the start keeps progress a multiple of 10 in
      [0, 100] and is never idle; the start button never comes back. */
  lemma {:induction false} TicksStayReachable(n: nat)
    ensures Reachable(Ticks(StartState, n))
    ensures var s := Ticks(StartState, n);
      0 <= s.progress <= 100 && s.progress % 10 == 0 && s.status != Idle && !StartOffered(s)
  {
    if n > 0 {
      TicksStayReachable(n - 1);
      TicksAppend(StartState, n - 1);
      TickPreservesReachable(Ticks(StartState, n - 1));
    }
  }

  /** Completion is a fixed point of the tick. */
  lemma {:induction false} CompleteIsFixedPoint(n: nat)
    ensures Ticks(CompleteState(), n) == CompleteState()
    decreases n
  {
    if n > 0 {
      CompleteIsFixedPoint(n - 1);
    }
  }

  /** A tick never produces the idle status from a non-idle one. */
  lemma TickNeverIdles(s: CodeAnalysis)
    requires s.status != Idle
    ensures Tick(s).status != Idle
  {
  }
}
