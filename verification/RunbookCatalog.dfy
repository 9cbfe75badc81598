/**
 The fixed catalog of runbook actions and the executor that runs a plan step
 by step. Command texts are not modelled. A seal is an ideal digest of a step,
 and the runner may do anything at every step.
 */
module RunbookCatalog {
  import opened Common

  const CATALOG_VERSION := "2026-08-29.1"

  const CAPABILITIES := "system_capabilities_v1"
  const UPDATE_CHECK := "package_update_check_v1"
  const SERVICE_STATUS := "service_status_v1"
  const SERVICE_RESTART := "service_restart_v1"
  const TIMEZONE_SET := "timezone_set_v1"
  const PROCESS_SIGTERM := "process_sigterm_v1"
  const HOST_REBOOT := "host_reboot_plan_v1"

  const ACTIONS: seq<string> :=
    [CAPABILITIES, UPDATE_CHECK, SERVICE_STATUS, SERVICE_RESTART, TIMEZONE_SET, PROCESS_SIGTERM, HOST_REBOOT]

  const SERVICES: seq<string> := ["nginx", "ssh", "docker", "cron"]

  const TIMEZONES: seq<string> := ["UTC", "Asia/Shanghai", "America/New_York", "Europe/London"]

  datatype Parameters = Parameters(service: string, timezone: string, pid: int, ticks: nat)

  const NO_PARAMETERS := Parameters("", "", 0, 0)

  datatype Definition = Definition(id: string, version: int, mutating: bool, emergency: bool)

  function Define(action: string): Option<Definition> {
    if action !in ACTIONS then None
    else
      var mutating := action in [SERVICE_RESTART, TIMEZONE_SET, PROCESS_SIGTERM, HOST_REBOOT];
      Some(Definition(action, 1, mutating, mutating))
  }

  datatype Phase = Preflight | Evidence | Apply | Verify

  datatype Content = Content(id: string, phase: Phase, seconds: nat)

  datatype Step = Step(content: Content, seal: Option<Content>)

  predicate Reviewed(s: Step) {
    s.seal == Some(s.content)
  }

  datatype Plan = Plan(definition: Definition, parameters: Parameters, steps: seq<Step>)

  function ReadOnlySteps(prefix: string): seq<Content> {
    [Content(prefix + "-preflight", Preflight, 10), Content(prefix + "-evidence", Evidence, 60)]
  }

  function MutatingSteps(prefix: string, applySeconds: nat, verifySeconds: nat): seq<Content> {
    [Content(prefix + "-preflight", Preflight, 10), Content(prefix + "-evidence", Evidence, 10),
     Content(prefix + "-apply", Apply, applySeconds), Content(prefix + "-verify", Verify, verifySeconds)]
  }

  /** The steps of an action, or None when its parameters are not exactly those it takes. */
  function BuildSteps(action: string, p: Parameters): Option<seq<Content>> {
    if action == CAPABILITIES then
      if p != NO_PARAMETERS then None else Some(ReadOnlySteps("capabilities"))
    else if action == UPDATE_CHECK then
      if p != NO_PARAMETERS then None else Some(ReadOnlySteps("updates"))
    else if action == SERVICE_STATUS then
      if p.service !in SERVICES || p.timezone != "" || p.pid != 0 || p.ticks != 0 then None
      else Some(ReadOnlySteps("service-status"))
    else if action == SERVICE_RESTART then
      if p.service !in SERVICES || p.timezone != "" || p.pid != 0 || p.ticks != 0 then None
      else Some(MutatingSteps("service-restart", 20, 15))
    else if action == TIMEZONE_SET then
      if p.timezone !in TIMEZONES || p.service != "" || p.pid != 0 || p.ticks != 0 then None
      else Some(MutatingSteps("timezone", 15, 10))
    else if action == PROCESS_SIGTERM then
      if p.service != "" || p.timezone != "" || p.pid < 100 || p.ticks == 0 then None
      else Some(MutatingSteps("process", 10, 15))
    else if action == HOST_REBOOT then
      if p != NO_PARAMETERS then None else Some(MutatingSteps("reboot", 10, 10))
    else None
  }

  function Sealed(contents: seq<Content>): seq<Step> {
    seq(|contents|, i requires 0 <= i < |contents| => Step(contents[i], Some(contents[i])))
  }

  function PlanFor(action: string, version: int, p: Parameters): Option<Plan> {
    var definition := Define(action);
    if definition.None? || version != definition.value.version then None
    else
      var contents := BuildSteps(action, p);
      if contents.None? then None else Some(Plan(definition.value, p, Sealed(contents.value)))
  }

  /** Builds the steps unsealed and then seals them one by one. */
  method Build(action: string, version: int, p: Parameters) returns (plan: Option<Plan>)
    ensures plan == PlanFor(action, version, p)
    ensures plan.Some? ==> forall i :: 0 <= i < |plan.value.steps| ==> Reviewed(plan.value.steps[i])
  {
    var definition := Define(action);
    if definition.None? || version != definition.value.version {
      return None;
    }
    var contents := BuildSteps(action, p);
    if contents.None? {
      return None;
    }
    var steps := seq(|contents.value|, i requires 0 <= i < |contents.value| => Step(contents.value[i], None));
    for index := 0 to |steps|
      invariant |steps| == |contents.value|
      invariant forall i :: 0 <= i < |steps| ==> steps[i].content == contents.value[i]
      invariant forall i :: 0 <= i < index ==> Reviewed(steps[i])
    {
      steps := steps[index := steps[index].(seal := Some(steps[index].content))];
    }
    assert steps == Sealed(contents.value);
    return Some(Plan(definition.value, p, steps));
  }

  function Phases(steps: seq<Step>): seq<Phase> {
    seq(|steps|, i requires 0 <= i < |steps| => steps[i].content.phase)
  }

  /** Every plan of the catalog checks and records first; it applies and verifies exactly when the action mutates. */
  lemma PlanShape(action: string, version: int, p: Parameters)
    requires PlanFor(action, version, p).Some?
    ensures var plan := PlanFor(action, version, p).value;
      && Phases(plan.steps) ==
         (if plan.definition.mutating then [Preflight, Evidence, Apply, Verify] else [Preflight, Evidence])
      && (forall i :: 0 <= i < |plan.steps| ==> Reviewed(plan.steps[i]))
      && (Apply in Phases(plan.steps) <==> plan.definition.mutating)
  {
    var plan := PlanFor(action, version, p).value;
    if plan.definition.mutating {
      assert Phases(plan.steps) == [Preflight, Evidence, Apply, Verify];
    } else {
      assert Phases(plan.steps) == [Preflight, Evidence];
    }
  }

  /** Every action of the catalog has parameters it accepts, and only at its version. */
  lemma EveryActionHasAPlan(i: nat, version: int) returns (p: Parameters)
    requires i < |ACTIONS|
    ensures PlanFor(ACTIONS[i], version, p).Some? <==> version == 1
  {
    assert SERVICES[0] in SERVICES && TIMEZONES[0] in TIMEZONES;
    p := if ACTIONS[i] == SERVICE_STATUS || ACTIONS[i] == SERVICE_RESTART then Parameters(SERVICES[0], "", 0, 0)
         else if ACTIONS[i] == TIMEZONE_SET then Parameters("", TIMEZONES[0], 0, 0)
         else if ACTIONS[i] == PROCESS_SIGTERM then Parameters("", "", 100, 1)
         else NO_PARAMETERS;
  }

  // ---- Execution ----

  datatype RunError = DeadlineExceeded | Canceled | OutputLimit | OtherError

  /** What the runner did at one step, and whether the caller had gone away by then. */
  datatype Attempt = Attempt(exitCode: int, err: Option<RunError>, callerGone: bool)

  predicate Good(a: Attempt) {
    a.err.None? && a.exitCode == 0
  }

  datatype StepState = StepSucceeded | StepFailed | StepCanceled

  datatype StepResult = StepResult(id: string, phase: Phase, state: StepState, exitCode: int, errorCode: string)

  datatype Execution = Execution(succeeded: bool, stopped: bool, steps: seq<StepResult>)

  function ClassifyError(a: Attempt): string
    requires !Good(a)
  {
    match a.err
    case Some(DeadlineExceeded) => "step_timeout"
    case Some(Canceled) => "step_canceled"
    case Some(OutputLimit) => "output_limit"
    case _ => if a.exitCode != 0 then "nonzero_exit" else "execution_error"
  }

  function ResultOf(s: Step, a: Attempt): StepResult {
    if Good(a) then StepResult(s.content.id, s.content.phase, StepSucceeded, a.exitCode, "")
    else
      var gone := a.err == Some(DeadlineExceeded) || a.err == Some(Canceled) || a.callerGone;
      StepResult(s.content.id, s.content.phase, if gone then StepCanceled else StepFailed, a.exitCode, ClassifyError(a))
  }

  /** The first step that does not go well, or the number of steps. */
  function Stop(steps: seq<Step>, runner: nat -> Attempt, from: nat): (n: nat)
    requires from <= |steps|
    ensures from <= n <= |steps|
    ensures forall i :: from <= i < n ==> Good(runner(i))
    ensures n < |steps| ==> !Good(runner(n))
    decreases |steps| - from
  {
    if from == |steps| || !Good(runner(from)) then from else Stop(steps, runner, from + 1)
  }

  /** The results of running a reviewed plan: those of its steps up to and including the first bad one. */
  ghost predicate Executed(steps: seq<Step>, runner: nat -> Attempt, e: Execution) {
    var n := Stop(steps, runner, 0);
    && e.succeeded == (n == |steps|) && e.stopped == (n < |steps|)
    && |e.steps| == (if n == |steps| then n else n + 1)
    && forall i :: 0 <= i < |e.steps| ==> e.steps[i] == ResultOf(steps[i], runner(i))
  }

  /** Runs the steps in order and stops at the first that does not go well; None for a plan it will not run. */
  method Execute(steps: seq<Step>, hasRunner: bool, runner: nat -> Attempt) returns (result: Option<Execution>)
    ensures result.None? <==> !hasRunner || steps == [] || exists i :: 0 <= i < |steps| && !Reviewed(steps[i])
    ensures result.Some? ==> Executed(steps, runner, result.value)
  {
    if !hasRunner || steps == [] {
      return None;
    }
    for i := 0 to |steps|
      invariant forall j :: 0 <= j < i ==> Reviewed(steps[j])
    {
      if !Reviewed(steps[i]) {
        return None;
      }
    }
    var execution := Execution(true, false, []);
    for i := 0 to |steps|
      invariant execution.succeeded && !execution.stopped && |execution.steps| == i
      invariant forall j :: 0 <= j < i ==> Good(runner(j)) && execution.steps[j] == ResultOf(steps[j], runner(j))
    {
      var attempt := runner(i);
      var stepResult := ResultOf(steps[i], attempt);
      if attempt.err.Some? || attempt.exitCode != 0 {
        execution := Execution(false, true, execution.steps);
      }
      execution := execution.(steps := execution.steps + [stepResult]);
      if execution.stopped {
        return Some(execution);
      }
    }
    return Some(execution);
  }

  lemma ResultIsOfItsStep(steps: seq<Step>, runner: nat -> Attempt, e: Execution, i: nat)
    requires Executed(steps, runner, e) && i < |e.steps|
    ensures i < |steps| && e.steps[i].phase == Phases(steps)[i]
    ensures e.steps[i].state.StepSucceeded? <==> Good(runner(i))
  {
    assert e.steps[i] == ResultOf(steps[i], runner(i));
  }

  /**
   For every catalog action, accepted parameters and runner behaviour: all
   results but the last succeeded; the execution succeeded exactly when every
   step ran and went well; a change is applied at most once, only by a
   mutating action, and only after its preflight and evidence succeeded; and
   it is verified next unless applying it failed.
   */
  lemma ApplyIsGated(action: string, version: int, p: Parameters, runner: nat -> Attempt, e: Execution)
    requires PlanFor(action, version, p).Some? && Executed(PlanFor(action, version, p).value.steps, runner, e)
    ensures var plan := PlanFor(action, version, p).value;
      && |e.steps| <= |plan.steps|
      && (forall i :: 0 <= i < |e.steps| - 1 ==> e.steps[i].state.StepSucceeded?)
      && (e.succeeded <==>
            |e.steps| == |plan.steps| && forall i :: 0 <= i < |e.steps| ==> e.steps[i].state.StepSucceeded?)
      && (forall i :: 0 <= i < |e.steps| && e.steps[i].phase.Apply? ==>
            && plan.definition.mutating && i == 2
            && e.steps[0].phase.Preflight? && e.steps[0].state.StepSucceeded?
            && e.steps[1].phase.Evidence? && e.steps[1].state.StepSucceeded?
            && (e.steps[2].state.StepSucceeded? <==> |e.steps| == 4 && e.steps[3].phase.Verify?))
  {
    PlanShape(action, version, p);
    var steps := PlanFor(action, version, p).value.steps;
    forall i | 0 <= i < |e.steps|
      ensures e.steps[i].phase == Phases(steps)[i] && (e.steps[i].state.StepSucceeded? <==> Good(runner(i)))
    {
      ResultIsOfItsStep(steps, runner, e, i);
    }
  }

  // ---- What the catalog accepts and reports ----

  /** Each parameter is given exactly to the actions that take it, and then has a listed value. */
  predicate Takes(action: string, p: Parameters) {
    && (if action in [SERVICE_STATUS, SERVICE_RESTART] then p.service in SERVICES else p.service == "")
    && (if action == TIMEZONE_SET then p.timezone in TIMEZONES else p.timezone == "")
    && (if action == PROCESS_SIGTERM then p.pid >= 100 && p.ticks > 0 else p.pid == p.ticks == 0)
  }

  /** There is a plan exactly for a catalog action at its version, with the parameters it takes and no others. */
  lemma AcceptedExactly(action: string, version: int, p: Parameters)
    ensures PlanFor(action, version, p).Some? <==> action in ACTIONS && version == 1 && Takes(action, p)
  {
    assert ACTIONS[0] == CAPABILITIES && ACTIONS[1] == UPDATE_CHECK && ACTIONS[2] == SERVICE_STATUS;
    assert ACTIONS[3] == SERVICE_RESTART && ACTIONS[4] == TIMEZONE_SET && ACTIONS[5] == PROCESS_SIGTERM;
    assert ACTIONS[6] == HOST_REBOOT;
  }

  /**
   Every result says which step it is of and how it went: without error code
   exactly on success, canceled exactly when the step ran out of time, was
   canceled or lost its caller, and a nonzero exit is reported only as such.
   */
  lemma ResultsTellWhy(steps: seq<Step>, runner: nat -> Attempt, e: Execution, i: nat)
    requires Executed(steps, runner, e) && i < |e.steps|
    ensures var r, a := e.steps[i], runner(i);
      && r.id == steps[i].content.id && r.phase == steps[i].content.phase && r.exitCode == a.exitCode
      && (r.errorCode == "" <==> r.state.StepSucceeded?)
      && (r.state.StepSucceeded? <==> a.err.None? && a.exitCode == 0)
      && (r.state.StepCanceled? <==>
            r.errorCode in ["step_timeout", "step_canceled"] || (a.callerGone && !r.state.StepSucceeded?))
      && (r.errorCode == "step_timeout" <==> a.err == Some(DeadlineExceeded))
      && (r.errorCode == "step_canceled" <==> a.err == Some(Canceled))
      && (r.errorCode == "output_limit" <==> a.err == Some(OutputLimit))
      && (r.errorCode == "nonzero_exit" <==> a.exitCode != 0 && (a.err.None? || a.err == Some(OtherError)))
  {
    assert e.steps[i] == ResultOf(steps[i], runner(i));
  }
}
