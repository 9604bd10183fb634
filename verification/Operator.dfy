/**
 The reconcile loop of the AegisPipeline operator over a cluster.

 A pass makes seven API calls, some of them only when needed; each may succeed,
 be refused, or take effect and lose its reply.  `Reconciled` says what a pass
 does to the cluster; the method `Reconcile` follows the program.
 */
module Operator {
  import opened Wrappers
  import opened Decimal
  import Config

  type Int32 = x: int | -0x8000_0000 <= x < 0x8000_0000

  type Labels = map<string, string>

  datatype Key = Key(ns: string, name: string)

  datatype Spec = Spec(
    replicas: Int32, image: string, workers: Int32, queueDepth: Int32, port: Int32, metricsPort: Int32,
    costPerPodHour: string, sinkType: string, postgresURL: string, natsURL: string)

  datatype Status = Status(readyReplicas: Int32, phase: string, conditions: seq<string>)

  datatype Pipeline = Pipeline(key: Key, uid: string, spec: Spec, status: Status)

  /** A controller reference; objects are controlled by at most one. */
  datatype Owner = Owner(kind: string, name: string, uid: string)

  datatype EnvVar = EnvVar(name: string, value: string)

  datatype Port = Port(name: string, number: Int32, target: string)

  datatype Probe = Probe(path: string, port: string, delay: nat, period: nat)

  datatype Container = Container(name: string, image: string, pullPolicy: string, ports: seq<Port>,
                                 env: seq<EnvVar>, liveness: Probe, readiness: Probe)

  datatype PodTemplate = PodTemplate(labels: Labels, annotations: map<string, string>, container: Container)

  datatype DeploymentSpec = DeploymentSpec(replicas: Int32, selector: Labels, template: PodTemplate)

  /** `ready` is status; `rest` stands for everything of the object the operator does not touch. */
  datatype Deployment = Deployment(controller: Option<Owner>, labels: Labels, spec: Option<DeploymentSpec>,
                                   ready: Int32, rest: string)

  /** `clusterIP` is assigned on creation; `rest` stands for everything else the operator does not touch. */
  datatype Service = Service(controller: Option<Owner>, labels: Labels, selector: Labels, ports: seq<Port>,
                             kind: string, clusterIP: string, rest: string)

  datatype Cluster = Cluster(pipelines: map<Key, Pipeline>, deployments: map<Key, Deployment>,
                             services: map<Key, Service>)

  // ------------------------------------------------------- the desired objects

  function EnvVars(spec: Spec): seq<EnvVar>
  {
    [EnvVar("AEGIS_PORT", ":" + Print(spec.port)), EnvVar("AEGIS_WORKERS", Print(spec.workers)),
     EnvVar("AEGIS_QUEUE_DEPTH", Print(spec.queueDepth)), EnvVar("AEGIS_METRICS_PORT", ":" + Print(spec.metricsPort))]
    + (if spec.sinkType != "" then [EnvVar("AEGIS_SINK", spec.sinkType)] else [])
    + (if spec.postgresURL != "" then [EnvVar("AEGIS_POSTGRES_URL", spec.postgresURL)] else [])
    + (if spec.natsURL != "" then [EnvVar("AEGIS_NATS_URL", spec.natsURL)] else [])
  }

  /** The environment a container sees; a later variable of the same name wins. */
  function EnvMap(envs: seq<EnvVar>): Config.Env
  {
    if envs == [] then map[] else EnvMap(envs[..|envs| - 1])[envs[|envs| - 1].name := envs[|envs| - 1].value]
  }

  /** The variable is set, to this value, exactly under the condition. */
  predicate SetTo(env: Config.Env, name: string, cond: bool, value: string)
  {
    (name in env <==> cond) && (cond ==> env[name] == value)
  }

  /** What the printed list means to os.LookupEnv. */
  predicate Prints(env: Config.Env, spec: Spec)
  {
    && SetTo(env, "AEGIS_PORT", true, ":" + Print(spec.port))
    && SetTo(env, "AEGIS_METRICS_PORT", true, ":" + Print(spec.metricsPort))
    && SetTo(env, "AEGIS_WORKERS", true, Print(spec.workers))
    && SetTo(env, "AEGIS_QUEUE_DEPTH", true, Print(spec.queueDepth))
    && SetTo(env, "AEGIS_SINK", spec.sinkType != "", spec.sinkType)
    && SetTo(env, "AEGIS_POSTGRES_URL", spec.postgresURL != "", spec.postgresURL)
    && SetTo(env, "AEGIS_NATS_URL", spec.natsURL != "", spec.natsURL)
    && env.Keys <= {"AEGIS_PORT", "AEGIS_METRICS_PORT", "AEGIS_WORKERS", "AEGIS_QUEUE_DEPTH",
                    "AEGIS_SINK", "AEGIS_POSTGRES_URL", "AEGIS_NATS_URL"}
  }

  lemma EnvMapIf(envs: seq<EnvVar>, cond: bool, e: EnvVar)
    ensures EnvMap(envs + (if cond then [e] else [])) ==
            if cond then EnvMap(envs)[e.name := e.value] else EnvMap(envs)
  {
    if cond {
      assert (envs + [e])[..|envs|] == envs;
    } else {
      assert envs + [] == envs;
    }
  }

  lemma EnvMapFour(a: EnvVar, b: EnvVar, c: EnvVar, d: EnvVar)
    ensures EnvMap([a, b, c, d]) == map[][a.name := a.value][b.name := b.value][c.name := c.value][d.name := d.value]
  {
    EnvMapIf([], true, a);
    EnvMapIf([] + [a], true, b);
    EnvMapIf([] + [a] + [b], true, c);
    EnvMapIf([] + [a] + [b] + [c], true, d);
    assert [] + [a] + [b] + [c] + [d] == [a, b, c, d];
  }

  function SetIf(env: Config.Env, cond: bool, name: string, value: string): Config.Env
  {
    if cond then env[name := value] else env
  }

  lemma EnvVarsSet(spec: Spec)
    ensures var base := map["AEGIS_PORT" := ":" + Print(spec.port)]["AEGIS_WORKERS" := Print(spec.workers)]
                        ["AEGIS_QUEUE_DEPTH" := Print(spec.queueDepth)]
                        ["AEGIS_METRICS_PORT" := ":" + Print(spec.metricsPort)];
            EnvMap(EnvVars(spec)) ==
            SetIf(SetIf(SetIf(base, spec.sinkType != "", "AEGIS_SINK", spec.sinkType),
                        spec.postgresURL != "", "AEGIS_POSTGRES_URL", spec.postgresURL),
                  spec.natsURL != "", "AEGIS_NATS_URL", spec.natsURL)
  {
    var p, w := EnvVar("AEGIS_PORT", ":" + Print(spec.port)), EnvVar("AEGIS_WORKERS", Print(spec.workers));
    var q := EnvVar("AEGIS_QUEUE_DEPTH", Print(spec.queueDepth));
    var m := EnvVar("AEGIS_METRICS_PORT", ":" + Print(spec.metricsPort));
    var base := [p, w, q, m];
    EnvMapFour(p, w, q, m);
    var s, d := EnvVar("AEGIS_SINK", spec.sinkType), EnvVar("AEGIS_POSTGRES_URL", spec.postgresURL);
    var n := EnvVar("AEGIS_NATS_URL", spec.natsURL);
    var withSink := base + (if spec.sinkType != "" then [s] else []);
    var withPostgres := withSink + (if spec.postgresURL != "" then [d] else []);
    EnvMapIf(base, spec.sinkType != "", s);
    EnvMapIf(withSink, spec.postgresURL != "", d);
    EnvMapIf(withPostgres, spec.natsURL != "", n);
  }

  lemma EnvVarsPrint(spec: Spec)
    ensures Prints(EnvMap(EnvVars(spec)), spec)
  {
    EnvVarsSet(spec);
  }

  /** Every variable is printed exactly when the spec sets it, and looking it up gives its printed value. */
  method BuildEnvVars(spec: Spec) returns (envs: seq<EnvVar>)
    ensures Prints(EnvMap(envs), spec)
    ensures envs == EnvVars(spec)
  {
    envs := [EnvVar("AEGIS_PORT", ":" + Print(spec.port)), EnvVar("AEGIS_WORKERS", Print(spec.workers)),
             EnvVar("AEGIS_QUEUE_DEPTH", Print(spec.queueDepth)),
             EnvVar("AEGIS_METRICS_PORT", ":" + Print(spec.metricsPort))];
    if spec.sinkType != "" {
      envs := envs + [EnvVar("AEGIS_SINK", spec.sinkType)];
    }
    if spec.postgresURL != "" {
      envs := envs + [EnvVar("AEGIS_POSTGRES_URL", spec.postgresURL)];
    }
    if spec.natsURL != "" {
      envs := envs + [EnvVar("AEGIS_NATS_URL", spec.natsURL)];
    }
    assert envs == EnvVars(spec);
    EnvVarsPrint(spec);
  }

  function CommonLabels(p: Pipeline): Labels
  {
    map["app" := p.key.name, "app.kubernetes.io/managed-by" := "aegis-operator"]
  }

  function BuiltDeployment(p: Pipeline): DeploymentSpec
  {
    DeploymentSpec(
      p.spec.replicas, map["app" := p.key.name],
      PodTemplate(
        CommonLabels(p),
        map["prometheus.io/scrape" := "true", "prometheus.io/port" := Print(p.spec.metricsPort),
            "prometheus.io/path" := "/metrics"],
        Container("aegis-stream", p.spec.image, "IfNotPresent",
                  [Port("tcp-data", p.spec.port, ""), Port("http-metrics", p.spec.metricsPort, "")],
                  EnvVars(p.spec),
                  Probe("/healthz", "http-metrics", 5, 10), Probe("/healthz", "http-metrics", 2, 5))))
  }

  function ServiceSelector(p: Pipeline): Labels
  {
    map["app" := p.key.name]
  }

  function ServicePorts(p: Pipeline): seq<Port>
  {
    [Port("tcp-data", p.spec.port, "tcp-data"), Port("http-metrics", p.spec.metricsPort, "http-metrics")]
  }

  const SERVICE_TYPE := "ClusterIP"

  function ComputePhase(ready: Int32, desired: Int32): string
  {
    if ready == desired then "Running" else "Pending"
  }

  // ------------------------------------------------------------ the API calls

  /** LostReply: the call took effect, but the operator sees an error. */
  datatype Answer = Success | Refused | LostReply

  /** The answers to one pass, by the call they answer, and the address a created Service would be given. */
  datatype Pass = Pass(getPipeline: Answer, getDeployment: Answer, putDeployment: Answer, getService: Answer,
                       putService: Answer, regetDeployment: Answer, putStatus: Answer, address: string)

  predicate Clean(pass: Pass)
  {
    && pass.getPipeline.Success? && pass.getDeployment.Success? && pass.putDeployment.Success?
    && pass.getService.Success? && pass.putService.Success? && pass.regetDeployment.Success? && pass.putStatus.Success?
  }

  function OwnerOf(p: Pipeline): Owner
  {
    Owner("AegisPipeline", p.key.name, p.uid)
  }

  /** SetControllerReference refuses an object that something else controls. */
  predicate Foreign(controller: Option<Owner>, p: Pipeline)
  {
    controller.Some? && (controller.value.kind != "AegisPipeline" || controller.value.name != p.key.name)
  }

  function MutatedDeployment(d: Deployment, p: Pipeline): Deployment
  {
    d.(controller := Some(OwnerOf(p)), labels := CommonLabels(p), spec := Some(BuiltDeployment(p)))
  }

  function MutatedService(v: Service, p: Pipeline): Service
  {
    v.(controller := Some(OwnerOf(p)), labels := CommonLabels(p),
       selector := ServiceSelector(p), ports := ServicePorts(p), kind := SERVICE_TYPE)
  }

  const NEW_DEPLOYMENT := Deployment(None, map[], None, 0, "")

  /** What Create would start from: nothing but the address the API server assigns. */
  function NewService(address: string): Service
  {
    Service(None, map[], map[], [], "", address, "")
  }

  // ---------------------------------------------------- what a pass does

  /** One key's part of the cluster: the pipeline and its two children, as far as they exist. */
  datatype Slice = Slice(pipeline: Option<Pipeline>, deployment: Option<Deployment>, service: Option<Service>)

  function Find<T>(m: map<Key, T>, k: Key): Option<T>
  {
    if k in m then Some(m[k]) else None
  }

  function Store<T>(m: map<Key, T>, k: Key, v: Option<T>): map<Key, T>
  {
    if v.Some? then m[k := v.value] else m - {k}
  }

  function At(c: Cluster, k: Key): Slice
  {
    Slice(Find(c.pipelines, k), Find(c.deployments, k), Find(c.services, k))
  }

  /** The cluster with one key's part replaced. */
  function With(c: Cluster, k: Key, s: Slice): Cluster
  {
    Cluster(Store(c.pipelines, k, s.pipeline), Store(c.deployments, k, s.deployment), Store(c.services, k, s.service))
  }

  /** CreateOrUpdate on the Deployment: the outcome, and whether the operator saw no error. */
  function DeploymentStep(s: Slice, p: Pipeline, pass: Pass): (Slice, bool)
  {
    var d := s.deployment.GetOr(NEW_DEPLOYMENT);
    var wanted := MutatedDeployment(d, p);
    if !pass.getDeployment.Success? || Foreign(d.controller, p) then (s, false)
    else if s.deployment == Some(wanted) then (s, true)
    else (if pass.putDeployment.Refused? then s else s.(deployment := Some(wanted)), pass.putDeployment.Success?)
  }

  function ServiceStep(s: Slice, p: Pipeline, pass: Pass): (Slice, bool)
  {
    var v := s.service.GetOr(NewService(pass.address));
    var wanted := MutatedService(v, p);
    if !pass.getService.Success? || Foreign(v.controller, p) then (s, false)
    else if s.service == Some(wanted) then (s, true)
    else (if pass.putService.Refused? then s else s.(service := Some(wanted)), pass.putService.Success?)
  }

  function Reported(p: Pipeline, ready: Int32): Pipeline
  {
    p.(status := p.status.(readyReplicas := ready, phase := ComputePhase(ready, p.spec.replicas)))
  }

  function StatusStep(s: Slice, p: Pipeline, pass: Pass): (Slice, bool)
  {
    if !pass.regetDeployment.Success? || s.deployment.None? then (s, false)
    else
      (if pass.putStatus.Refused? then s else s.(pipeline := Some(Reported(p, s.deployment.value.ready))),
       pass.putStatus.Success?)
  }

  /** One pass: what it leaves of the slice, and whether Reconcile returned no error. */
  function Reconciled(s: Slice, pass: Pass): (Slice, bool)
  {
    if !pass.getPipeline.Success? then (s, false)
    else if s.pipeline.None? then (s, true)
    else
      var p := s.pipeline.value;
      var (s1, ok1) := DeploymentStep(s, p, pass);
      if !ok1 then (s1, false)
      else
        var (s2, ok2) := ServiceStep(s1, p, pass);
        if !ok2 then (s2, false) else StatusStep(s2, p, pass)
  }

  /** Every pipeline is stored under its own name. */
  ghost predicate WellKeyed(c: Cluster)
  {
    forall k <- c.pipelines :: c.pipelines[k].key == k
  }

  lemma StoreAlgebra<T>(m: map<Key, T>, k: Key, v: Option<T>, w: Option<T>)
    ensures Store(m, k, Find(m, k)) == m
    ensures Find(Store(m, k, v), k) == v
    ensures Store(Store(m, k, v), k, w) == Store(m, k, w)
  {
  }

  /** Reading back what was stored, storing what was read, and storing twice. */
  lemma WithAlgebra(c: Cluster, k: Key, s: Slice, t: Slice)
    ensures With(c, k, At(c, k)) == c
    ensures At(With(c, k, s), k) == s
    ensures With(With(c, k, s), k, t) == With(c, k, t)
  {
    StoreAlgebra(c.pipelines, k, s.pipeline, t.pipeline);
    StoreAlgebra(c.deployments, k, s.deployment, t.deployment);
    StoreAlgebra(c.services, k, s.service, t.service);
  }

  // -------------------------------------------- what a pass is for, field by field

  /** The object has no controller, or one of the pipeline's kind and name. */
  predicate FreeFor(controller: Option<Owner>, p: Pipeline)
  {
    controller.None? || (controller.value.kind == "AegisPipeline" && controller.value.name == p.key.name)
  }

  /** The container runs the spec's image, with its ports, its environment and its probes. */
  predicate RunsServer(c: Container, spec: Spec)
  {
    && c.name == "aegis-stream" && c.image == spec.image && c.pullPolicy == "IfNotPresent"
    && c.ports == [Port("tcp-data", spec.port, ""), Port("http-metrics", spec.metricsPort, "")]
    && Prints(EnvMap(c.env), spec)
    && c.liveness == Probe("/healthz", "http-metrics", 5, 10) && c.readiness == Probe("/healthz", "http-metrics", 2, 5)
  }

  /** The Deployment asks for the pipeline's pods: how many, how labelled, scraped where, running what. */
  predicate AsksFor(d: DeploymentSpec, p: Pipeline)
  {
    && d.replicas == p.spec.replicas
    && d.selector == map["app" := p.key.name]
    && d.template.labels == map["app" := p.key.name, "app.kubernetes.io/managed-by" := "aegis-operator"]
    && d.template.annotations == map["prometheus.io/scrape" := "true", "prometheus.io/path" := "/metrics",
                                     "prometheus.io/port" := Print(p.spec.metricsPort)]
    && RunsServer(d.template.container, p.spec)
  }

  /** The Service leads to the pipeline's pods. */
  predicate LeadsTo(v: Service, p: Pipeline)
  {
    && v.selector == map["app" := p.key.name] && v.kind == "ClusterIP"
    && v.ports == [Port("tcp-data", p.spec.port, "tcp-data"), Port("http-metrics", p.spec.metricsPort, "http-metrics")]
  }

  predicate OwnedBy(controller: Option<Owner>, labels: Labels, p: Pipeline)
  {
    && controller == Some(Owner("AegisPipeline", p.key.name, p.uid))
    && labels == map["app" := p.key.name, "app.kubernetes.io/managed-by" := "aegis-operator"]
  }

  /** The Deployment (the Service) is what the pipeline asks for. */
  predicate DeploymentFits(s: Slice, p: Pipeline)
  {
    && s.deployment.Some?
    && var d := s.deployment.value;
       OwnedBy(d.controller, d.labels, p) && d.spec.Some? && AsksFor(d.spec.value, p)
  }

  predicate ServiceFits(s: Slice, p: Pipeline)
  {
    s.service.Some? && OwnedBy(s.service.value.controller, s.service.value.labels, p) && LeadsTo(s.service.value, p)
  }

  /** The status reports the Deployment's ready replicas, and whether they are as many as it asks for. */
  predicate StatusFits(s: Slice, p: Pipeline)
  {
    && s.deployment.Some? && s.deployment.value.spec.Some?
    && var ready, replicas := s.deployment.value.ready, s.deployment.value.spec.value.replicas;
       p.status.readyReplicas == ready && p.status.phase == if ready == replicas then "Running" else "Pending"
  }

  /** The children and the status are what the pipeline asks for, field by field. */
  predicate Converged(s: Slice)
  {
    s.pipeline.Some? ==>
      DeploymentFits(s, s.pipeline.value) && ServiceFits(s, s.pipeline.value) && StatusFits(s, s.pipeline.value)
  }

  lemma BuiltAsksFor(p: Pipeline)
    ensures AsksFor(BuiltDeployment(p), p)
  {
    EnvVarsPrint(p.spec);
  }

  /** A child whose step succeeded is as the pipeline asks for. */
  lemma StepsFit(s: Slice, p: Pipeline, pass: Pass)
    ensures DeploymentStep(s, p, pass).1 ==> DeploymentFits(DeploymentStep(s, p, pass).0, p)
    ensures DeploymentStep(s, p, pass).0.service == s.service
    ensures ServiceStep(s, p, pass).1 ==> ServiceFits(ServiceStep(s, p, pass).0, p)
    ensures ServiceStep(s, p, pass).0.deployment == s.deployment
  {
    BuiltAsksFor(p);
  }

  /** A pass that returned no error leaves everything as the pipeline asks for. */
  lemma SuccessFits(s: Slice, pass: Pass)
    requires s.pipeline.Some? && Reconciled(s, pass).1
    ensures Converged(Reconciled(s, pass).0) && Reconciled(s, pass).0.pipeline.Some?
  {
    var p := s.pipeline.value;
    StepsFit(s, p, pass);
    StepsFit(DeploymentStep(s, p, pass).0, p, pass);
  }

  // ------------------------------------------------------------- the object

  lemma KeyedWith(c: Cluster, k: Key, s: Slice)
    requires WellKeyed(c) && (s.pipeline.Some? ==> s.pipeline.value.key == k)
    ensures WellKeyed(With(c, k, s))
  {
  }

  lemma ReconciledKeepsKey(s: Slice, pass: Pass)
    ensures var s' := Reconciled(s, pass).0;
            && (s'.pipeline.Some? <==> s.pipeline.Some?)
            && (s.pipeline.Some? ==> s'.pipeline.value.key == s.pipeline.value.key)
  {
  }

  /** The API server as the operator's client sees it. */
  class Client {
    var pipelines: map<Key, Pipeline>
    var deployments: map<Key, Deployment>
    var services: map<Key, Service>

    function State(): Cluster
      reads this
    {
      Cluster(pipelines, deployments, services)
    }

    /** Create or update one Deployment, unless it already is as it should be. */
    method CreateOrUpdateDeployment(p: Pipeline, pass: Pass) returns (ok: bool)
      modifies this
      ensures State() == With(old(State()), p.key, DeploymentStep(At(old(State()), p.key), p, pass).0)
      ensures ok == DeploymentStep(At(old(State()), p.key), p, pass).1
      ensures ok ==> DeploymentFits(At(State(), p.key), p)
    {
      StepsFit(At(State(), p.key), p, pass);
      WithAlgebra(State(), p.key, DeploymentStep(At(State(), p.key), p, pass).0, At(State(), p.key));
      if !pass.getDeployment.Success? {
        return false;
      }
      var deploy := NEW_DEPLOYMENT;
      var found := p.key in deployments;
      if found {
        deploy := deployments[p.key];
      }
      var before := deploy;
      if Foreign(deploy.controller, p) {
        return false;
      }
      deploy := deploy.(controller := Some(OwnerOf(p)));
      deploy := deploy.(labels := CommonLabels(p));
      deploy := deploy.(spec := Some(BuiltDeployment(p)));
      if found && deploy == before {
        return true;
      }
      if !pass.putDeployment.Refused? {
        deployments := deployments[p.key := deploy];
      }
      ok := pass.putDeployment.Success?;
    }

    method CreateOrUpdateService(p: Pipeline, pass: Pass) returns (ok: bool)
      modifies this
      ensures State() == With(old(State()), p.key, ServiceStep(At(old(State()), p.key), p, pass).0)
      ensures ok == ServiceStep(At(old(State()), p.key), p, pass).1
      ensures ok ==> ServiceFits(At(State(), p.key), p)
    {
      StepsFit(At(State(), p.key), p, pass);
      WithAlgebra(State(), p.key, ServiceStep(At(State(), p.key), p, pass).0, At(State(), p.key));
      if !pass.getService.Success? {
        return false;
      }
      var svc := NewService(pass.address);
      var found := p.key in services;
      if found {
        svc := services[p.key];
      }
      var before := svc;
      if Foreign(svc.controller, p) {
        return false;
      }
      svc := svc.(controller := Some(OwnerOf(p)));
      svc := svc.(labels := CommonLabels(p));
      svc := svc.(selector := ServiceSelector(p));
      svc := svc.(ports := ServicePorts(p));
      svc := svc.(kind := SERVICE_TYPE);
      if found && svc == before {
        return true;
      }
      if !pass.putService.Refused? {
        services := services[p.key := svc];
      }
      ok := pass.putService.Success?;
    }

    method Reconcile(k: Key, pass: Pass) returns (ok: bool)
      requires WellKeyed(State())
      modifies this
      ensures State() == With(old(State()), k, Reconciled(At(old(State()), k), pass).0)
      ensures ok == Reconciled(At(old(State()), k), pass).1
      ensures WellKeyed(State())
      ensures ok ==> (k in pipelines <==> k in old(pipelines)) && Converged(At(State(), k))
    {
      ghost var c := State();
      ghost var s := At(c, k);
      WithAlgebra(c, k, s, s);
      ReconciledKeepsKey(s, pass);
      KeyedWith(c, k, Reconciled(s, pass).0);
      WithAlgebra(c, k, Reconciled(s, pass).0, s);
      if s.pipeline.Some? && Reconciled(s, pass).1 {
        SuccessFits(s, pass);
      }
      if !pass.getPipeline.Success? {
        return false;
      }
      if k !in pipelines {
        return true;
      }
      var pipeline := pipelines[k];
      ghost var s1 := DeploymentStep(s, pipeline, pass).0;
      ok := CreateOrUpdateDeployment(pipeline, pass);
      if !ok {
        return false;
      }
      ghost var s2 := ServiceStep(s1, pipeline, pass).0;
      WithAlgebra(c, k, s1, s2);
      ok := CreateOrUpdateService(pipeline, pass);
      if !ok {
        return false;
      }
      WithAlgebra(c, k, s2, StatusStep(s2, pipeline, pass).0);
      ok := ReportStatus(pipeline, pass);
    }

    method ReportStatus(p: Pipeline, pass: Pass) returns (ok: bool)
      modifies this
      ensures State() == With(old(State()), p.key, StatusStep(At(old(State()), p.key), p, pass).0)
      ensures ok == StatusStep(At(old(State()), p.key), p, pass).1
    {
      WithAlgebra(State(), p.key, StatusStep(At(State(), p.key), p, pass).0, At(State(), p.key));
      if !pass.regetDeployment.Success? || p.key !in deployments {
        return false;
      }
      var deploy := deployments[p.key];
      var pipeline := p;
      pipeline := pipeline.(status := pipeline.status.(readyReplicas := deploy.ready));
      pipeline := pipeline.(status := pipeline.status.(phase := ComputePhase(deploy.ready, pipeline.spec.replicas)));
      if !pass.putStatus.Refused? {
        pipelines := pipelines[p.key := pipeline];
      }
      ok := pass.putStatus.Success?;
    }
  }
}
