/** The operator converges from any state, whatever calls failed before, and keeps pipelines apart. */
module OperatorTheorems {
  import opened Wrappers
  import opened Decimal
  import opened Operator
  import Config

  // ------------------------------------------------------------- convergence

  /** Nothing else controls the children's names. */
  predicate Controllable(s: Slice)
  {
    s.pipeline.Some? ==>
      && (s.deployment.Some? ==> FreeFor(s.deployment.value.controller, s.pipeline.value))
      && (s.service.Some? ==> FreeFor(s.service.value.controller, s.pipeline.value))
  }

  /** The fields the operator does not control survive, in every object that was there. */
  predicate Preserved(s: Slice, s': Slice)
  {
    && (s.pipeline.Some? <==> s'.pipeline.Some?)
    && (s.pipeline.Some? ==> s'.pipeline.value.(status := s.pipeline.value.status) == s.pipeline.value
                             && s'.pipeline.value.status.conditions == s.pipeline.value.status.conditions)
    && (s.deployment.Some? ==> s'.deployment.Some?
                               && s'.deployment.value.ready == s.deployment.value.ready
                               && s'.deployment.value.rest == s.deployment.value.rest)
    && (s.service.Some? ==> s'.service.Some?
                            && s'.service.value.clusterIP == s.service.value.clusterIP
                            && s'.service.value.rest == s.service.value.rest)
  }

  /** Where an error-free pass ends. */
  function Goal(s: Slice, address: string): Slice
    requires s.pipeline.Some?
  {
    var p := s.pipeline.value;
    var d := MutatedDeployment(s.deployment.GetOr(NEW_DEPLOYMENT), p);
    var v := MutatedService(s.service.GetOr(NewService(address)), p);
    Slice(Some(Reported(p, d.ready)), Some(d), Some(v))
  }

  /** A pass that returned no error has reached the goal, and nothing else controlled the children. */
  lemma SuccessReachesGoal(s: Slice, pass: Pass)
    requires s.pipeline.Some? && Reconciled(s, pass).1
    ensures Controllable(s) && Reconciled(s, pass).0 == Goal(s, pass.address)
  {
    var p := s.pipeline.value;
    var s1 := DeploymentStep(s, p, pass).0;
    StepsReachGoal(s, p, pass);
    StepsReachGoal(s1, p, pass);
  }

  lemma StepsReachGoal(s: Slice, p: Pipeline, pass: Pass)
    ensures DeploymentStep(s, p, pass).1 ==>
              && (s.deployment.Some? ==> !Foreign(s.deployment.value.controller, p))
              && DeploymentStep(s, p, pass).0 ==
                 s.(deployment := Some(MutatedDeployment(s.deployment.GetOr(NEW_DEPLOYMENT), p)))
    ensures ServiceStep(s, p, pass).1 ==>
              && (s.service.Some? ==> !Foreign(s.service.value.controller, p))
              && ServiceStep(s, p, pass).0 ==
                 s.(service := Some(MutatedService(s.service.GetOr(NewService(pass.address)), p)))
  {
  }

  /** An error-free pass succeeds exactly when the pipeline is gone or nothing else controls its children. */
  lemma CleanPassSucceedsIff(s: Slice, pass: Pass)
    requires Clean(pass)
    ensures Reconciled(s, pass).1 <==> s.pipeline.None? || Controllable(s)
  {
  }

  /** The calls a pass makes on a slice that already is as it should be. */
  predicate ReadsAndReports(pass: Pass)
  {
    && pass.getPipeline.Success? && pass.getDeployment.Success? && pass.getService.Success?
    && pass.regetDeployment.Success? && pass.putStatus.Success?
  }

  /**
   A pass that returned no error has converged and preserved what the operator does not control.  Then no
   further pass changes anything, whatever its calls answer; it returns no error exactly if its reads and
   its status update succeed, whatever writing a child would answer.
   */
  lemma SuccessConverges(s: Slice, pass: Pass, again: Pass)
    requires s.pipeline.Some? && Reconciled(s, pass).1
    ensures Converged(Reconciled(s, pass).0) && Preserved(s, Reconciled(s, pass).0)
    ensures Reconciled(Reconciled(s, pass).0, again) == (Reconciled(s, pass).0, ReadsAndReports(again))
  {
    SuccessReachesGoal(s, pass);
    GoalConverged(s, pass.address);
    GoalIsFixed(s, pass.address, again);
  }

  lemma GoalConverged(s: Slice, address: string)
    requires s.pipeline.Some?
    ensures Converged(Goal(s, address)) && Preserved(s, Goal(s, address))
  {
    BuiltAsksFor(s.pipeline.value);
  }

  lemma GoalIsFixed(s: Slice, address: string, again: Pass)
    requires s.pipeline.Some?
    ensures Reconciled(Goal(s, address), again) == (Goal(s, address), ReadsAndReports(again))
  {
    var g, p := Goal(s, address), s.pipeline.value;
    var d, v := g.deployment.value, g.service.value;
    var q := g.pipeline.value;
    assert BuiltDeployment(q) == BuiltDeployment(p);
    assert MutatedDeployment(d, q) == d && MutatedService(v, q) == v && Reported(q, d.ready) == q;
  }

  /** The Deployment is as it was, or as built. */
  predicate DeploymentWhole(s: Slice, s': Slice, p: Pipeline)
  {
    || s'.deployment == s.deployment
    || s'.deployment == Some(MutatedDeployment(s.deployment.GetOr(NEW_DEPLOYMENT), p))
  }

  predicate ServiceWhole(s: Slice, s': Slice, p: Pipeline, address: string)
  {
    || s'.service == s.service
    || s'.service == Some(MutatedService(s.service.GetOr(NewService(address)), p))
  }

  lemma StepsWhole(s: Slice, p: Pipeline, pass: Pass)
    ensures DeploymentWhole(s, DeploymentStep(s, p, pass).0, p)
    ensures DeploymentStep(s, p, pass).0 == s.(deployment := DeploymentStep(s, p, pass).0.deployment)
    ensures ServiceWhole(s, ServiceStep(s, p, pass).0, p, pass.address)
    ensures ServiceStep(s, p, pass).0 == s.(service := ServiceStep(s, p, pass).0.service)
  {
  }

  lemma StatusWhole(s: Slice, p: Pipeline, pass: Pass)
    ensures var s' := StatusStep(s, p, pass).0;
            && s' == s.(pipeline := s'.pipeline)
            && (s'.pipeline == s.pipeline
                || (s.deployment.Some? && s'.pipeline == Some(Reported(p, s.deployment.value.ready))))
  {
  }

  /** A pass, however it fails, leaves each object as it was or as the built one, never in between. */
  lemma NeverHalfWritten(s: Slice, pass: Pass)
    requires s.pipeline.Some?
    ensures var s', p := Reconciled(s, pass).0, s.pipeline.value;
            && DeploymentWhole(s, s', p) && ServiceWhole(s, s', p, pass.address)
            && (s'.pipeline == s.pipeline
                || (s'.deployment.Some? && s'.pipeline == Some(Reported(p, s'.deployment.value.ready))))
  {
    var p := s.pipeline.value;
    var s1 := DeploymentStep(s, p, pass).0;
    var s2 := ServiceStep(s1, p, pass).0;
    StepsWhole(s, p, pass);
    StepsWhole(s1, p, pass);
    StatusWhole(s2, p, pass);
  }

  /** Nor does it touch what the operator does not control, nor who controls the children if that is someone else. */
  lemma PassPreserves(s: Slice, pass: Pass)
    requires s.pipeline.Some?
    ensures Preserved(s, Reconciled(s, pass).0)
    ensures Controllable(s) <==> Controllable(Reconciled(s, pass).0)
  {
    NeverHalfWritten(s, pass);
    ForeignStays(s, pass);
  }

  /** An object that something else controls is left alone. */
  lemma ForeignStays(s: Slice, pass: Pass)
    requires s.pipeline.Some?
    ensures var s', p := Reconciled(s, pass).0, s.pipeline.value;
            && (s.deployment.Some? && Foreign(s.deployment.value.controller, p) ==> s'.deployment == s.deployment)
            && (s.service.Some? && Foreign(s.service.value.controller, p) ==> s'.service == s.service)
  {
    var p := s.pipeline.value;
    var s1 := DeploymentStep(s, p, pass).0;
    StepsWhole(s, p, pass);
    StepsWhole(s1, p, pass);
    StatusWhole(ServiceStep(s1, p, pass).0, p, pass);
  }

  /** The calls of a pass up to the one that writes the Deployment (the Service) let it be written. */
  predicate WritesDeployment(s: Slice, p: Pipeline, pass: Pass)
  {
    && pass.getPipeline.Success? && pass.getDeployment.Success? && !pass.putDeployment.Refused?
    && (s.deployment.Some? ==> FreeFor(s.deployment.value.controller, p))
  }

  predicate WritesService(s: Slice, p: Pipeline, pass: Pass)
  {
    && WritesDeployment(s, p, pass) && pass.putDeployment.Success?
    && pass.getService.Success? && !pass.putService.Refused?
    && (s.service.Some? ==> FreeFor(s.service.value.controller, p))
  }

  predicate WritesStatus(s: Slice, p: Pipeline, pass: Pass)
  {
    WritesService(s, p, pass) && pass.putService.Success? && pass.regetDeployment.Success? && !pass.putStatus.Refused?
  }

  /**
   How far a pass gets.  A write that takes effect, its reply lost or not, leaves the child as asked for; the operator
   goes on to the Service only after it saw the Deployment succeed, and to the status only after it saw both.
   */
  lemma PassGetsAsFar(s: Slice, pass: Pass)
    requires s.pipeline.Some?
    ensures WritesDeployment(s, s.pipeline.value, pass) ==> DeploymentFits(Reconciled(s, pass).0, s.pipeline.value)
    ensures WritesService(s, s.pipeline.value, pass) ==> ServiceFits(Reconciled(s, pass).0, s.pipeline.value)
    ensures WritesStatus(s, s.pipeline.value, pass) ==> Converged(Reconciled(s, pass).0)
    ensures !pass.getPipeline.Success? || !pass.getDeployment.Success? ==> Reconciled(s, pass) == (s, false)
    ensures pass.putDeployment.Refused? ==> Reconciled(s, pass).0.deployment == s.deployment
    ensures pass.putService.Refused? || !pass.getService.Success? ==> Reconciled(s, pass).0.service == s.service
    ensures pass.putStatus.Refused? || !pass.regetDeployment.Success? ==> Reconciled(s, pass).0.pipeline == s.pipeline
  {
    var p := s.pipeline.value;
    var s1 := DeploymentStep(s, p, pass).0;
    var s2 := ServiceStep(s1, p, pass).0;
    BuiltAsksFor(p);
    StepsWritten(s, p, pass);
    StepsWritten(s1, p, pass);
    StepsWhole(s, p, pass);
    StepsWhole(s1, p, pass);
    StatusWhole(s2, p, pass);
    StepsRefused(s, p, pass);
    StepsRefused(s1, p, pass);
    StepsRefused(s2, p, pass);
  }

  /** A call that is refused, and a read that fails, leave everything to do with them as it was. */
  lemma StepsRefused(s: Slice, p: Pipeline, pass: Pass)
    ensures pass.putDeployment.Refused? ==> DeploymentStep(s, p, pass).0 == s
    ensures pass.putService.Refused? || !pass.getService.Success? ==> ServiceStep(s, p, pass).0 == s
    ensures pass.putStatus.Refused? || !pass.regetDeployment.Success? ==> StatusStep(s, p, pass).0 == s
  {
  }

  lemma StepsWritten(s: Slice, p: Pipeline, pass: Pass)
    ensures pass.getDeployment.Success? && !pass.putDeployment.Refused?
            && (s.deployment.Some? ==> FreeFor(s.deployment.value.controller, p)) ==>
              && DeploymentStep(s, p, pass).0 ==
                 s.(deployment := Some(MutatedDeployment(s.deployment.GetOr(NEW_DEPLOYMENT), p)))
              && (pass.putDeployment.Success? ==> DeploymentStep(s, p, pass).1)
    ensures pass.getService.Success? && !pass.putService.Refused?
            && (s.service.Some? ==> FreeFor(s.service.value.controller, p)) ==>
              && ServiceStep(s, p, pass).0 ==
                 s.(service := Some(MutatedService(s.service.GetOr(NewService(pass.address)), p)))
              && (pass.putService.Success? ==> ServiceStep(s, p, pass).1)
  {
  }

  /** The slice apart from the address a Service was given when it was created. */
  function WithoutAddress(s: Slice): Slice
  {
    if s.service.Some? then s.(service := Some(s.service.value.(clusterIP := ""))) else s
  }

  /** Passes one after the other, each cut short where its answers say. */
  function RunPasses(s: Slice, passes: seq<Pass>): Slice
  {
    if passes == [] then s else Reconciled(RunPasses(s, passes[..|passes| - 1]), passes[|passes| - 1]).0
  }

  /** After any pass the goal is still the same, but for the address of a Service created on the way. */
  lemma GoalStays(s: Slice, pass: Pass, address: string)
    requires s.pipeline.Some?
    ensures var s' := Reconciled(s, pass).0;
            && s'.pipeline.Some?
            && WithoutAddress(Goal(s', address)) == WithoutAddress(Goal(s, address))
            && (s.service.Some? ==> Goal(s', address) == Goal(s, address))
  {
    NeverHalfWritten(s, pass);
    PassPreserves(s, pass);
    var s' := Reconciled(s, pass).0;
    assert s'.deployment.GetOr(NEW_DEPLOYMENT).ready == s.deployment.GetOr(NEW_DEPLOYMENT).ready;
  }

  lemma {:induction false} PassesKeepGoal(s: Slice, passes: seq<Pass>, address: string)
    requires s.pipeline.Some?
    ensures var s' := RunPasses(s, passes);
            && s'.pipeline.Some? && (Controllable(s) <==> Controllable(s')) && Preserved(s, s')
            && WithoutAddress(Goal(s', address)) == WithoutAddress(Goal(s, address))
            && (s.service.Some? ==> Goal(s', address) == Goal(s, address))
  {
    if passes != [] {
      var m, pass := RunPasses(s, passes[..|passes| - 1]), passes[|passes| - 1];
      PassesKeepGoal(s, passes[..|passes| - 1], address);
      PassPreserves(m, pass);
      GoalStays(m, pass, address);
    }
  }

  /**
   Convergence despite failures.  After any sequence of passes cut short at any calls, a pass that returns no error
   ends at the goal of the state before all of them: exactly if the Service existed, and up to its assigned address
   otherwise.  That state matches the built objects and preserves what the operator does not control.
   */
  lemma ConvergesDespiteFailures(s: Slice, passes: seq<Pass>, last: Pass)
    requires s.pipeline.Some? && Reconciled(RunPasses(s, passes), last).1
    ensures var end := Reconciled(RunPasses(s, passes), last).0;
            && WithoutAddress(end) == WithoutAddress(Goal(s, last.address))
            && (s.service.Some? ==> end == Goal(s, last.address))
            && Converged(end) && Preserved(s, end) && Controllable(s)
  {
    var m := RunPasses(s, passes);
    PassesKeepGoal(s, passes, last.address);
    SuccessReachesGoal(m, last);
    SuccessConverges(m, last, last);
    PassPreserves(m, last);
  }

  /**
   And one error-free pass is enough: after any passes whatsoever it succeeds exactly if nothing else controlled the
   children to begin with, and then it ends where it would have ended alone.
   */
  lemma OneCleanPassIsEnough(s: Slice, passes: seq<Pass>, last: Pass)
    requires s.pipeline.Some? && Clean(last)
    ensures Reconciled(RunPasses(s, passes), last).1 <==> Controllable(s)
    ensures Controllable(s) ==>
              var end, alone := Reconciled(RunPasses(s, passes), last).0, Reconciled(s, last).0;
              WithoutAddress(end) == WithoutAddress(alone) && (s.service.Some? ==> end == alone)
  {
    PassesKeepGoal(s, passes, last.address);
    CleanPassSucceedsIff(s, last);
    CleanPassSucceedsIff(RunPasses(s, passes), last);
    if Controllable(s) {
      ConvergesDespiteFailures(s, passes, last);
      SuccessReachesGoal(s, last);
    }
  }

  // ---------------------------------------------------------- non-interference

  /** One reconcile of k on the whole cluster. */
  function Cycle(c: Cluster, k: Key, pass: Pass): Cluster
  {
    With(c, k, Reconciled(At(c, k), pass).0)
  }

  lemma StoreApart<T>(m: map<Key, T>, j: Key, k: Key, v: Option<T>, w: Option<T>)
    requires j != k
    ensures Find(Store(m, j, v), k) == Find(m, k)
    ensures Store(Store(m, j, v), k, w) == Store(Store(m, k, w), j, v)
  {
  }

  lemma WithApart(c: Cluster, j: Key, k: Key, s: Slice, t: Slice)
    requires j != k
    ensures At(With(c, j, s), k) == At(c, k)
    ensures With(With(c, j, s), k, t) == With(With(c, k, t), j, s)
  {
    StoreApart(c.pipelines, j, k, s.pipeline, t.pipeline);
    StoreApart(c.deployments, j, k, s.deployment, t.deployment);
    StoreApart(c.services, j, k, s.service, t.service);
  }

  /** Reconciles of two differently named pipelines do not see each other, and commute. */
  lemma NonInterference(c: Cluster, j: Key, k: Key, pass: Pass, other: Pass)
    requires j != k
    ensures At(Cycle(c, j, pass), k) == At(c, k)
    ensures Cycle(Cycle(c, j, pass), k, other) == Cycle(Cycle(c, k, other), j, pass)
    ensures Reconciled(At(Cycle(c, j, pass), k), other) == Reconciled(At(c, k), other)
  {
    WithApart(c, j, k, Reconciled(At(c, j), pass).0, Reconciled(At(c, k), other).0);
    WithApart(c, k, j, Reconciled(At(c, k), other).0, Reconciled(At(c, j), pass).0);
  }

  /** Reconciles of any pipelines, one after the other. */
  function Cycles(c: Cluster, work: seq<(Key, Pass)>): Cluster
  {
    if work == [] then c
    else
      var (k, pass) := work[|work| - 1];
      Cycle(Cycles(c, work[..|work| - 1]), k, pass)
  }

  function PassesOf(work: seq<(Key, Pass)>, k: Key): seq<Pass>
  {
    if work == [] then []
    else PassesOf(work[..|work| - 1], k) + if work[|work| - 1].0 == k then [work[|work| - 1].1] else []
  }

  /** However the reconciles of many pipelines interleave, each pipeline sees only its own passes. */
  lemma {:induction false} InterleavingsProject(c: Cluster, work: seq<(Key, Pass)>, k: Key)
    ensures At(Cycles(c, work), k) == RunPasses(At(c, k), PassesOf(work, k))
  {
    if work != [] {
      var m := Cycles(c, work[..|work| - 1]);
      var (j, pass) := work[|work| - 1];
      var passes := PassesOf(work[..|work| - 1], k);
      InterleavingsProject(c, work[..|work| - 1], k);
      if j == k {
        WithAlgebra(m, k, Reconciled(At(m, k), pass).0, At(m, k));
        assert (passes + [pass])[..|passes|] == passes;
      } else {
        WithApart(m, j, k, Reconciled(At(m, j), pass).0, At(m, k));
        assert passes + [] == passes;
      }
    }
  }

  /** A selector matches labels that contain all of its pairs. */
  predicate Selects(selector: Labels, labels: Labels)
  {
    forall n <- selector :: n in labels && labels[n] == selector[n]
  }

  /**
   In one namespace, the Service built for q selects the pods templated for p exactly when p and q are the
   same pipeline; and every Deployment selects its own pods.
   */
  lemma ServiceSelectsOwnPods(p: Pipeline, q: Pipeline)
    requires p.key.ns == q.key.ns
    ensures Selects(ServiceSelector(q), BuiltDeployment(p).template.labels) <==> p.key == q.key
    ensures Selects(BuiltDeployment(p).selector, BuiltDeployment(p).template.labels)
  {
    assert "app" in ServiceSelector(q);
  }

  /** The container port that a name stands for. */
  predicate Names(ports: seq<Port>, name: string, number: Int32)
  {
    exists q <- ports :: q.name == name && q.number == number
  }

  /**
   The pieces fit: every Service port forwards to a container port of the same number, the server is told to listen
   there, and the probes and the Prometheus annotation point at the metrics port.
   */
  lemma PortsFit(p: Pipeline)
    ensures var c := BuiltDeployment(p).template.container;
            && (forall q <- ServicePorts(p) :: Names(c.ports, q.target, q.number))
            && Names(ServicePorts(p), "tcp-data", p.spec.port)
            && Names(ServicePorts(p), "http-metrics", p.spec.metricsPort)
            && EnvVar("AEGIS_PORT", ":" + Print(p.spec.port)) in c.env
            && EnvVar("AEGIS_METRICS_PORT", ":" + Print(p.spec.metricsPort)) in c.env
            && Names(c.ports, c.liveness.port, p.spec.metricsPort)
            && Names(c.ports, c.readiness.port, p.spec.metricsPort)
            && "prometheus.io/port" in BuiltDeployment(p).template.annotations
            && Atoi(BuiltDeployment(p).template.annotations["prometheus.io/port"]) == Some(p.spec.metricsPort)
  {
    var c := BuiltDeployment(p).template.container;
    assert c.ports[0] in c.ports && c.ports[1] in c.ports;
    var ports := ServicePorts(p);
    assert ports[0] in ports && ports[1] in ports;
    assert c.env[0] == EnvVar("AEGIS_PORT", ":" + Print(p.spec.port));
    assert c.env[3] == EnvVar("AEGIS_METRICS_PORT", ":" + Print(p.spec.metricsPort));
    AtoiPrint(p.spec.metricsPort);
  }

  // ------------------------------------------------------ environment variables

  /** The specs a server can start with. */
  predicate Startable(spec: Spec)
  {
    && spec.workers > 0 && spec.queueDepth > 0
    && (spec.sinkType == "" || spec.sinkType == "stdout"
        || (spec.sinkType == "postgres" && spec.postgresURL != "")
        || (spec.sinkType == "nats" && spec.natsURL != ""))
  }

  /** The settings a spec asks for. */
  function Wanted(spec: Spec): Config.Settings
  {
    Config.Settings(":" + Print(spec.port), ":" + Print(spec.metricsPort), spec.workers, spec.queueDepth, 1000,
                    30_000_000_000, 0, if spec.sinkType == "" then "stdout" else spec.sinkType,
                    spec.postgresURL, spec.natsURL)
  }

  lemma PrintedParses(env: Config.Env, spec: Spec, durations: Config.DurationParser)
    requires Prints(env, spec)
    ensures Config.ParseFault(env, durations).None?
  {
    AtoiPrint(spec.workers);
    AtoiPrint(spec.queueDepth);
    assert "AEGIS_MAX_CONNS" !in env.Keys && "AEGIS_READ_TIMEOUT" !in env.Keys && "AEGIS_PROCESS_DELAY" !in env.Keys;
  }

  lemma PrintedLayers(env: Config.Env, spec: Spec, durations: Config.DurationParser)
    requires Prints(env, spec) && Config.ParseFault(env, durations).None?
    ensures Config.Layered(Config.DEFAULTS, env, durations) == Wanted(spec)
  {
    AtoiPrint(spec.workers);
    AtoiPrint(spec.queueDepth);
    assert "AEGIS_MAX_CONNS" !in env.Keys && "AEGIS_READ_TIMEOUT" !in env.Keys && "AEGIS_PROCESS_DELAY" !in env.Keys;
  }

  /** What the server makes of the variables the operator prints, with default flags. */
  ghost function LoadedFrom(spec: Spec, durations: Config.DurationParser): Result<Config.Settings, Config.LoadError>
  {
    Config.Loaded(Config.DEFAULTS, EnvMap(EnvVars(spec)), durations)
  }

  /**
   Round trip.  Loading exactly the variables the operator prints recovers the spec's fields, and succeeds
   exactly for the startable specs; every other setting keeps its default.
   */
  lemma EnvRoundTrip(spec: Spec, durations: Config.DurationParser)
    ensures LoadedFrom(spec, durations).Ok? <==> Startable(spec)
    ensures LoadedFrom(spec, durations).Ok? ==> LoadedFrom(spec, durations).value == Wanted(spec)
  {
    EnvVarsPrint(spec);
    PrintedParses(EnvMap(EnvVars(spec)), spec, durations);
    PrintedLayers(EnvMap(EnvVars(spec)), spec, durations);
  }

  /** The printed listen addresses determine the ports. */
  lemma PortsRecovered(spec: Spec)
    ensures Atoi((":" + Print(spec.port))[1..]) == Some(spec.port)
    ensures Atoi((":" + Print(spec.metricsPort))[1..]) == Some(spec.metricsPort)
  {
    AtoiPrint(spec.port);
    AtoiPrint(spec.metricsPort);
    assert (":" + Print(spec.port))[1..] == Print(spec.port);
    assert (":" + Print(spec.metricsPort))[1..] == Print(spec.metricsPort);
  }
}
