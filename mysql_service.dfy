/**
 * The MySQL database service of src/cloud_provider/aws/databases/mysql.rs:
 * its helm release name, the template context it renders with, and the
 * order of the external steps its create and delete hooks run. Every
 * external step (template rendering, terraform, helm, kubectl, kubeconfig
 * retrieval, tfstate secret deletion) is an oracle outcome; the steps run
 * are returned as a log.
 */
module MysqlService {
  import opened Wrappers
  import opened Strings
  import opened EngineErrors

  // ---------------------------------------------------------------------
  // The service and where it is deployed.

  /** The parts of the engine context the service reads. */
  datatype Context = Context(executionId: string, isTestCluster: bool, isDryRunDeploy: bool,
                             resourceExpirationInSeconds: Option<nat>)

  datatype DatabaseOptions = DatabaseOptions(login: string, password: string, host: string, port: nat,
                                             diskSizeInGib: nat, databaseDiskType: string)

  datatype MySql = MySql(context: Context, id: string, name: string, version: string, fqdn: string, fqdnId: string,
                         totalCpus: string, totalRamInMib: nat, databaseInstanceType: string, options: DatabaseOptions)

  /** The cluster and environment a deployment targets, and the credentials of its cloud provider. */
  datatype Cluster = Cluster(namespace: string, kubernetesId: string, kubernetesName: string,
                             accessKeyId: string, secretAccessKey: string)

  datatype DeploymentTarget = ManagedServices(cluster: Cluster) | SelfHosted(cluster: Cluster)

  /** The error a service raises itself: its own scope, its execution, and a message. */
  function ServiceError(db: MySql, cause: EngineErrorCause, message: string): EngineError {
    EngineError(cause, ServiceScope(db.id, db.name), db.context.executionId, Some(message))
  }

  // ---------------------------------------------------------------------
  // Release name and namespace labels.

  const ReleaseNameLimit: nat := 50

  /** `cut(format!("mysql-{}", id), 50)`, with `cut` a prefix truncation. */
  function HelmReleaseName(db: MySql): (r: string)
    ensures |r| <= ReleaseNameLimit && r <= "mysql-" + db.id
    ensures |"mysql-" + db.id| <= ReleaseNameLimit ==> r == "mysql-" + db.id
    ensures |"mysql-" + db.id| > ReleaseNameLimit ==> |r| == ReleaseNameLimit
  {
    Cut("mysql-" + db.id, ReleaseNameLimit)
  }

  /** Every release name starts with "mysql-", and ids up to 44 characters are kept whole. */
  lemma HelmReleaseNamePrefix(db: MySql)
    ensures "mysql-" <= HelmReleaseName(db)
    ensures |db.id| <= 44 <==> HelmReleaseName(db) == "mysql-" + db.id
  {
    var full := "mysql-" + db.id;
    var r := HelmReleaseName(db);
    assert full[..6] == "mysql-";
    assert r[..6] == full[..6];
    if r == full {
      assert |full| <= ReleaseNameLimit;
    }
  }

  datatype Label = Label(name: string, value: string)

  /** A `ttl` label holding the expiration, exactly when an expiration is configured. */
  function NamespaceLabels(db: MySql): (labels: Option<seq<Label>>)
    ensures labels.Some? <==> db.context.resourceExpirationInSeconds.Some?
    ensures labels.Some? ==> labels.value == [Label("ttl", NatToString(db.context.resourceExpirationInSeconds.value))]
  {
    match db.context.resourceExpirationInSeconds
    case Some(seconds) => Some([Label("ttl", NatToString(seconds))])
    case None => None
  }

  // ---------------------------------------------------------------------
  // External steps.

  datatype Chart = CommonServices | MysqlServices | ExternalNameSvc | DefaultMysqlChart | MysqlChartValues

  /** Where a chart is rendered: the workspace, or its `external-name-svc` sub-directory. */
  datatype Destination = Workspace | ExternalNameSubdirectory

  datatype Step =
    | FetchKubeconfigPath                             // `get_kubernetes_config_path` in `tera_context`
    | CreateNamespaceWithoutLabels(namespace: string)
    | Render(chart: Chart, into: Destination)         // `generate_and_copy_all_files_into_dir`
    | TerraformApply(dryRun: bool)
    | TerraformDestroy
    | DeleteTfstateSecret
    | FetchKubernetesConfig                           // `common::kubernetes_config_path`
    | CreateNamespace(namespace: string, labels: Option<seq<Label>>)
    | HelmUpgrade(releaseName: string)
    | PodReady(selector: string)
    | StatelessCleanup(releaseName: string)

  /**
   * What the outside world answers. `failures` holds the steps whose call
   * fails, with the engine error it is turned into; the other fields are
   * the values the successful calls return.
   */
  datatype Oracle = Oracle(
    failures: map<Step, EngineError>,
    kubeconfigPath: Option<string>,
    helmHistory: Option<bool>,                 // the last release row, and whether it is deployed
    podReady: Result<Option<bool>, string>,
    destroy: Result<(), Option<string>>,        // the error of a failed destroy carries an optional message
    tfstateSuffix: string,
    tfstateName: string,
    defaultContext: map<ContextKey, Value>)

  /** A step that aborts the hook through `?` when it fails. */
  method Run(step: Step, oracle: Oracle) returns (r: Result<(), EngineError>)
    ensures step in oracle.failures ==> r == Err(oracle.failures[step])
    ensures step !in oracle.failures ==> r == Ok(())
  {
    if step in oracle.failures {
      r := Err(oracle.failures[step]);
    } else {
      r := Ok(());
    }
  }

  // ---------------------------------------------------------------------
  // Sequences of steps that stop at the first failure.

  /** The position of the first step that fails, or the length of the plan when none does. */
  function FirstFailure(plan: seq<Step>, failures: map<Step, EngineError>): (k: nat)
    ensures k <= |plan|
    ensures forall j :: 0 <= j < k ==> plan[j] !in failures
    ensures k < |plan| ==> plan[k] in failures
  {
    if |plan| == 0 then 0
    else if plan[0] in failures then 0
    else 1 + FirstFailure(plan[1..], failures)
  }

  /** The steps of `plan` that run: all of them, or those up to and including the first failure. */
  function Executed(plan: seq<Step>, failures: map<Step, EngineError>): (done: seq<Step>)
    ensures done <= plan
  {
    var k := FirstFailure(plan, failures);
    if k < |plan| then plan[..k + 1] else plan
  }

  function Outcome(plan: seq<Step>, failures: map<Step, EngineError>): Result<(), EngineError> {
    var k := FirstFailure(plan, failures);
    if k < |plan| then Err(failures[plan[k]]) else Ok(())
  }

  predicate Passes(plan: seq<Step>, failures: map<Step, EngineError>) {
    forall j :: 0 <= j < |plan| ==> plan[j] !in failures
  }

  /**
   * A plan either runs to the end and succeeds, or stops right after its
   * first failing step and returns that step's error.
   */
  lemma ExecutedStopsAtFailure(plan: seq<Step>, failures: map<Step, EngineError>)
    ensures Passes(plan, failures) <==> Outcome(plan, failures) == Ok(())
    ensures Passes(plan, failures) ==> Executed(plan, failures) == plan
    ensures !Passes(plan, failures) ==>
      var done := Executed(plan, failures);
      && |done| > 0
      && (forall j :: 0 <= j < |done| - 1 ==> done[j] !in failures)
      && done[|done| - 1] in failures
      && Outcome(plan, failures) == Err(failures[done[|done| - 1]])
  {
    var k := FirstFailure(plan, failures);
    if !Passes(plan, failures) {
      var j :| 0 <= j < |plan| && plan[j] in failures;
      assert k <= j;
    }
  }

  /**
   * Running step `i` of a plan after steps `0..i-1` succeeded: a failure
   * ends the plan with that step's error, and a success of the last step
   * completes it.
   */
  lemma Advance(plan: seq<Step>, failures: map<Step, EngineError>, i: nat, before: seq<Step>, log: seq<Step>)
    requires i < |plan| && log == before + plan[..i]
    requires forall j :: 0 <= j < i ==> plan[j] !in failures
    ensures log + [plan[i]] == before + plan[..i + 1]
    ensures plan[i] in failures ==>
      log + [plan[i]] == before + Executed(plan, failures) && Outcome(plan, failures) == Err(failures[plan[i]])
    ensures plan[i] !in failures && i + 1 == |plan| ==>
      log + [plan[i]] == before + Executed(plan, failures) && Outcome(plan, failures) == Ok(()) && Passes(plan, failures)
  {
    assert plan[..i + 1] == plan[..i] + [plan[i]];
    var f := FirstFailure(plan, failures);
    if plan[i] in failures {
      assert !(f < i) && !(i < f);
    } else if i + 1 == |plan| {
      assert plan[..i + 1] == plan;
    }
  }

  // ---------------------------------------------------------------------
  // The template context.

  datatype Value = Str(string) | Int(int) | Bool(bool)

  /** The keys `tera_context` inserts; `Name` is the key as the templates see it. */
  datatype ContextKey
    = KubeconfigPath
    | Namespace
    | AwsAccessKey
    | AwsSecretKey
    | EksClusterId
    | EksClusterName
    | FqdnId
    | Fqdn
    | DatabaseLogin
    | DatabasePassword
    | DatabasePort
    | DatabaseDiskSizeInGib
    | DatabaseInstanceType
    | DatabaseDiskType
    | DatabaseRamSizeInMib
    | DatabaseTotalCpus
    | DatabaseFqdn
    | DatabaseId
    | TfstateSuffixName
    | TfstateName
    | DeleteAutomatedBackups
    | ResourceExpirationInSeconds

  function Name(k: ContextKey): string {
    match k
    case KubeconfigPath => "kubeconfig_path"
    case Namespace => "namespace"
    case AwsAccessKey => "aws_access_key"
    case AwsSecretKey => "aws_secret_key"
    case EksClusterId => "eks_cluster_id"
    case EksClusterName => "eks_cluster_name"
    case FqdnId => "fqdn_id"
    case Fqdn => "fqdn"
    case DatabaseLogin => "database_login"
    case DatabasePassword => "database_password"
    case DatabasePort => "database_port"
    case DatabaseDiskSizeInGib => "database_disk_size_in_gib"
    case DatabaseInstanceType => "database_instance_type"
    case DatabaseDiskType => "database_disk_type"
    case DatabaseRamSizeInMib => "database_ram_size_in_mib"
    case DatabaseTotalCpus => "database_total_cpus"
    case DatabaseFqdn => "database_fqdn"
    case DatabaseId => "database_id"
    case TfstateSuffixName => "tfstate_suffix_name"
    case TfstateName => "tfstate_name"
    case DeleteAutomatedBackups => "delete_automated_backups"
    case ResourceExpirationInSeconds => "resource_expiration_in_seconds"
  }

  /** The keys inserted whatever the configuration. */
  const FixedKeys: set<ContextKey> := {
    Namespace, AwsAccessKey, AwsSecretKey, EksClusterId, EksClusterName, FqdnId, Fqdn, DatabaseLogin, DatabasePassword, DatabasePort, DatabaseDiskSizeInGib, DatabaseInstanceType, DatabaseDiskType, DatabaseRamSizeInMib, DatabaseTotalCpus, DatabaseFqdn, DatabaseId, TfstateSuffixName, TfstateName, DeleteAutomatedBackups}

  /** Whether `tera_context` leaves key `k` in the context. */
  predicate InContext(k: ContextKey, db: MySql, oracle: Oracle) {
    || k in oracle.defaultContext
    || k in FixedKeys
    || (k == KubeconfigPath && oracle.kubeconfigPath.Some?)
    || (k == ResourceExpirationInSeconds && db.context.resourceExpirationInSeconds.Some?)
  }

  /** The steps `tera_context` runs; neither can abort it. */
  function TeraContextSteps(cluster: Cluster, oracle: Oracle): seq<Step> {
    [FetchKubeconfigPath] + (if oracle.kubeconfigPath.Some? then [CreateNamespaceWithoutLabels(cluster.namespace)] else [])
  }

  /**
   * The context extends the default one with the fixed keys; the kubeconfig
   * path is present when it could be fetched, and the expiration when one is
   * configured.
   */
  method TeraContext(db: MySql, cluster: Cluster, oracle: Oracle) returns (context: map<ContextKey, Value>, log: seq<Step>)
    ensures forall k :: k in context <==> InContext(k, db, oracle)
    ensures db.context.resourceExpirationInSeconds.Some? ==>
      ResourceExpirationInSeconds in context && context[ResourceExpirationInSeconds] == Int(db.context.resourceExpirationInSeconds.value)
    ensures DatabaseId in context && context[DatabaseId] == Str(db.id)
    ensures Namespace in context && context[Namespace] == Str(cluster.namespace)
    ensures log == TeraContextSteps(cluster, oracle)
  {
    context := oracle.defaultContext;
    log := [FetchKubeconfigPath];
    match oracle.kubeconfigPath {
      case Some(kubeConfig) =>
        context := context[KubeconfigPath := Str(kubeConfig)];
        log := log + [CreateNamespaceWithoutLabels(cluster.namespace)];
      case None =>
    }
    context := context[Namespace := Str(cluster.namespace)];
    context := context[AwsAccessKey := Str(cluster.accessKeyId)];
    context := context[AwsSecretKey := Str(cluster.secretAccessKey)];
    context := context[EksClusterId := Str(cluster.kubernetesId)];
    context := context[EksClusterName := Str(cluster.kubernetesName)];
    context := context[FqdnId := Str(db.fqdnId)];
    context := context[Fqdn := Str(db.fqdn)];
    context := context[DatabaseLogin := Str(db.options.login)];
    context := context[DatabasePassword := Str(db.options.password)];
    context := context[DatabasePort := Int(db.options.port)];
    context := context[DatabaseDiskSizeInGib := Int(db.options.diskSizeInGib)];
    context := context[DatabaseInstanceType := Str(db.databaseInstanceType)];
    context := context[DatabaseDiskType := Str(db.options.databaseDiskType)];
    context := context[DatabaseRamSizeInMib := Int(db.totalRamInMib)];
    context := context[DatabaseTotalCpus := Str(db.totalCpus)];
    context := context[DatabaseFqdn := Str(db.options.host)];
    context := context[DatabaseId := Str(db.id)];
    context := context[TfstateSuffixName := Str(oracle.tfstateSuffix)];
    context := context[TfstateName := Str(oracle.tfstateName)];
    context := context[DeleteAutomatedBackups := Bool(db.context.isTestCluster)];
    if db.context.resourceExpirationInSeconds.Some? {
      context := context[ResourceExpirationInSeconds := Int(db.context.resourceExpirationInSeconds.value)];
    }
  }

  // ---------------------------------------------------------------------
  // Creation.

  /** The steps of a managed (RDS) creation after the context is built, in order. */
  function ManagedCreatePlan(db: MySql): seq<Step> {
    [Render(CommonServices, Workspace), Render(MysqlServices, Workspace),
     Render(ExternalNameSvc, ExternalNameSubdirectory), TerraformApply(db.context.isDryRunDeploy)]
  }

  /** The steps of a self-hosted (helm) creation after the context is built, up to the helm upgrade. */
  function SelfHostedCreatePlan(db: MySql, cluster: Cluster): seq<Step> {
    [FetchKubernetesConfig, Render(DefaultMysqlChart, Workspace), Render(MysqlChartValues, Workspace),
     CreateNamespace(cluster.namespace, NamespaceLabels(db)), HelmUpgrade(HelmReleaseName(db))]
  }

  function PodSelector(db: MySql): string {
    "app=" + db.name
  }

  const NotDeployedMessage := "MySQL database fails to be deployed (before start)"

  function NotStartedMessage(db: MySql): string {
    "MySQL database " + db.name + " with id " + db.id + " failed to start after several retries"
  }

  /** The managed arm of `on_create`: render the common, mysql and external-name charts, then apply terraform. */
  method CreateManaged(db: MySql, cluster: Cluster, oracle: Oracle) returns (r: Result<(), EngineError>, log: seq<Step>)
    ensures log == TeraContextSteps(cluster, oracle) + Executed(ManagedCreatePlan(db), oracle.failures)
    ensures r == Outcome(ManagedCreatePlan(db), oracle.failures)
  {
    var context, teraLog := TeraContext(db, cluster, oracle);
    log := teraLog;
    ghost var F, plan := oracle.failures, ManagedCreatePlan(db);
    assert |plan| == 4;
    r := Run(Render(CommonServices, Workspace), oracle);
    Advance(plan, F, 0, teraLog, log);
    log := log + [Render(CommonServices, Workspace)];
    if r.Err? { return; }
    r := Run(Render(MysqlServices, Workspace), oracle);
    Advance(plan, F, 1, teraLog, log);
    log := log + [Render(MysqlServices, Workspace)];
    if r.Err? { return; }
    r := Run(Render(ExternalNameSvc, ExternalNameSubdirectory), oracle);
    Advance(plan, F, 2, teraLog, log);
    log := log + [Render(ExternalNameSvc, ExternalNameSubdirectory)];
    if r.Err? { return; }
    r := Run(TerraformApply(db.context.isDryRunDeploy), oracle);
    Advance(plan, F, 3, teraLog, log);
    log := log + [TerraformApply(db.context.isDryRunDeploy)];
  }

  /**
   * The self-hosted arm of `on_create`: fetch the kubeconfig, render the
   * default chart and the chart values, create the namespace and upgrade the
   * helm release; then require a successfully deployed release row before
   * polling the pods, and accept only a pod readiness of `Ok(Some(true))`.
   */
  method CreateSelfHosted(db: MySql, cluster: Cluster, oracle: Oracle) returns (r: Result<(), EngineError>, log: seq<Step>)
    ensures var tera, F, plan := TeraContextSteps(cluster, oracle), oracle.failures, SelfHostedCreatePlan(db, cluster);
      && (!Passes(plan, F) ==> log == tera + Executed(plan, F) && r == Outcome(plan, F))
      && (Passes(plan, F) && oracle.helmHistory != Some(true) ==>
            log == tera + plan && r == Err(ServiceError(db, Internal, NotDeployedMessage)))
      && (Passes(plan, F) && oracle.helmHistory == Some(true) ==>
            && log == tera + plan + [PodReady(PodSelector(db))]
            && (r == Ok(()) <==> oracle.podReady == Ok(Some(true)))
            && (r.Err? ==> r == Err(ServiceError(db, Internal, NotStartedMessage(db)))))
  {
    var context, teraLog := TeraContext(db, cluster, oracle);
    log := teraLog;
    ghost var F, plan := oracle.failures, SelfHostedCreatePlan(db, cluster);
    assert |plan| == 5;
    r := Run(FetchKubernetesConfig, oracle);
    Advance(plan, F, 0, teraLog, log);
    log := log + [FetchKubernetesConfig];
    if r.Err? { return; }
    r := Run(Render(DefaultMysqlChart, Workspace), oracle);
    Advance(plan, F, 1, teraLog, log);
    log := log + [Render(DefaultMysqlChart, Workspace)];
    if r.Err? { return; }
    r := Run(Render(MysqlChartValues, Workspace), oracle);
    Advance(plan, F, 2, teraLog, log);
    log := log + [Render(MysqlChartValues, Workspace)];
    if r.Err? { return; }
    var helmReleaseName := HelmReleaseName(db);
    var namespaceLabels := NamespaceLabels(db);
    r := Run(CreateNamespace(cluster.namespace, namespaceLabels), oracle);
    Advance(plan, F, 3, teraLog, log);
    log := log + [CreateNamespace(cluster.namespace, namespaceLabels)];
    if r.Err? { return; }
    r := Run(HelmUpgrade(helmReleaseName), oracle);
    Advance(plan, F, 4, teraLog, log);
    log := log + [HelmUpgrade(helmReleaseName)];
    if r.Err? { return; }
    var helmHistoryRow := oracle.helmHistory;
    if helmHistoryRow.None? || !helmHistoryRow.value {
      return Err(ServiceError(db, Internal, NotDeployedMessage)), log;
    }
    var selector := PodSelector(db);
    log := log + [PodReady(selector)];
    match oracle.podReady {
      case Ok(Some(true)) =>
      case _ =>
        return Err(ServiceError(db, Internal, NotStartedMessage(db))), log;
    }
    r := Ok(());
  }

  /** `on_create`: dispatch on the deployment target. */
  method OnCreate(db: MySql, target: DeploymentTarget, oracle: Oracle) returns (r: Result<(), EngineError>, log: seq<Step>)
    ensures target.ManagedServices? ==>
      log == TeraContextSteps(target.cluster, oracle) + Executed(ManagedCreatePlan(db), oracle.failures)
      && r == Outcome(ManagedCreatePlan(db), oracle.failures)
    ensures var tera, F, plan := TeraContextSteps(target.cluster, oracle), oracle.failures, SelfHostedCreatePlan(db, target.cluster);
      target.SelfHosted? ==>
        && (!Passes(plan, F) ==> log == tera + Executed(plan, F) && r == Outcome(plan, F))
        && (Passes(plan, F) && oracle.helmHistory != Some(true) ==>
              log == tera + plan && r == Err(ServiceError(db, Internal, NotDeployedMessage)))
        && (Passes(plan, F) && oracle.helmHistory == Some(true) ==>
              && log == tera + plan + [PodReady(PodSelector(db))]
              && (r == Ok(()) <==> oracle.podReady == Ok(Some(true)))
              && (r.Err? ==> r == Err(ServiceError(db, Internal, NotStartedMessage(db)))))
  {
    match target {
      case ManagedServices(cluster) =>
        r, log := CreateManaged(db, cluster, oracle);
      case SelfHosted(cluster) =>
        r, log := CreateSelfHosted(db, cluster, oracle);
    }
  }

  // ---------------------------------------------------------------------
  // Deletion.

  /** The renders of a managed deletion: the external-name chart goes to the sub-directory and to the workspace. */
  const ManagedDeletePlan: seq<Step> := [
    Render(CommonServices, Workspace), Render(MysqlServices, Workspace),
    Render(ExternalNameSvc, ExternalNameSubdirectory), Render(ExternalNameSvc, Workspace)]

  function DestroyMessage(message: Option<string>): string {
    "Error while destroying infrastructure " + message.GetOr("")
  }

  /**
   * The managed arm of `delete`: render the charts, then destroy with
   * terraform. A failed destroy is an internal error; after a successful one
   * the tfstate secret is deleted and its outcome ignored.
   */
  method DeleteManaged(db: MySql, cluster: Cluster, oracle: Oracle) returns (r: Result<(), EngineError>, log: seq<Step>)
    ensures var tera, F, plan := TeraContextSteps(cluster, oracle), oracle.failures, ManagedDeletePlan;
      && (!Passes(plan, F) ==> log == tera + Executed(plan, F) && r == Outcome(plan, F))
      && (Passes(plan, F) && oracle.destroy.Ok? ==>
            log == tera + plan + [TerraformDestroy, DeleteTfstateSecret] && r == Ok(()))
      && (Passes(plan, F) && oracle.destroy.Err? ==>
            log == tera + plan + [TerraformDestroy] && r == Err(ServiceError(db, Internal, DestroyMessage(oracle.destroy.error))))
  {
    var context, teraLog := TeraContext(db, cluster, oracle);
    log := teraLog;
    ghost var F, plan := oracle.failures, ManagedDeletePlan;
    assert |plan| == 4;
    r := Run(Render(CommonServices, Workspace), oracle);
    Advance(plan, F, 0, teraLog, log);
    log := log + [Render(CommonServices, Workspace)];
    if r.Err? { return; }
    r := Run(Render(MysqlServices, Workspace), oracle);
    Advance(plan, F, 1, teraLog, log);
    log := log + [Render(MysqlServices, Workspace)];
    if r.Err? { return; }
    r := Run(Render(ExternalNameSvc, ExternalNameSubdirectory), oracle);
    Advance(plan, F, 2, teraLog, log);
    log := log + [Render(ExternalNameSvc, ExternalNameSubdirectory)];
    if r.Err? { return; }
    r := Run(Render(ExternalNameSvc, Workspace), oracle);
    Advance(plan, F, 3, teraLog, log);
    log := log + [Render(ExternalNameSvc, Workspace)];
    if r.Err? { return; }
    log := log + [TerraformDestroy];
    match oracle.destroy {
      case Ok(_) =>
        log := log + [DeleteTfstateSecret];
      case Err(message) =>
        return Err(ServiceError(db, Internal, DestroyMessage(message))), log;
    }
    r := Ok(());
  }

  /** The self-hosted arm of `delete`: one stateless clean-up of the helm release. */
  method DeleteSelfHosted(db: MySql, oracle: Oracle) returns (r: Result<(), EngineError>, log: seq<Step>)
    ensures log == [StatelessCleanup(HelmReleaseName(db))]
    ensures r == Outcome([StatelessCleanup(HelmReleaseName(db))], oracle.failures)
  {
    var helmReleaseName := HelmReleaseName(db);
    r := Run(StatelessCleanup(helmReleaseName), oracle);
    log := [StatelessCleanup(helmReleaseName)];
    Advance(log, oracle.failures, 0, [], []);
    if r.Err? { return; }
    r := Ok(());
  }

  /** `on_delete`, which is `delete`: dispatch on the deployment target. */
  method OnDelete(db: MySql, target: DeploymentTarget, oracle: Oracle) returns (r: Result<(), EngineError>, log: seq<Step>)
    ensures var tera, F, plan := TeraContextSteps(target.cluster, oracle), oracle.failures, ManagedDeletePlan;
      target.ManagedServices? ==>
        && (!Passes(plan, F) ==> log == tera + Executed(plan, F) && r == Outcome(plan, F))
        && (Passes(plan, F) && oracle.destroy.Ok? ==>
              log == tera + plan + [TerraformDestroy, DeleteTfstateSecret] && r == Ok(()))
        && (Passes(plan, F) && oracle.destroy.Err? ==>
              log == tera + plan + [TerraformDestroy] && r == Err(ServiceError(db, Internal, DestroyMessage(oracle.destroy.error))))
    ensures target.SelfHosted? ==>
      log == [StatelessCleanup(HelmReleaseName(db))] && r == Outcome([StatelessCleanup(HelmReleaseName(db))], oracle.failures)
  {
    match target {
      case ManagedServices(cluster) =>
        r, log := DeleteManaged(db, cluster, oracle);
      case SelfHosted(_) =>
        r, log := DeleteSelfHosted(db, oracle);
    }
  }

  /** How many times a plan renders `chart`. */
  function RenderCount(plan: seq<Step>, chart: Chart): nat {
    if |plan| == 0 then 0
    else RendersChart(plan[0], chart) + RenderCount(plan[1..], chart)
  }

  function RendersChart(step: Step, chart: Chart): nat {
    if step.Render? && step.chart == chart then 1 else 0
  }

  lemma RenderCountOfFour(plan: seq<Step>, chart: Chart)
    requires |plan| == 4
    ensures RenderCount(plan, chart)
      == RendersChart(plan[0], chart) + RendersChart(plan[1], chart) + RendersChart(plan[2], chart) + RendersChart(plan[3], chart)
  {
    assert plan[1..][1..] == plan[2..] && plan[2..][1..] == plan[3..] && plan[3..][1..] == [];
    assert RenderCount(plan[3..], chart) == RendersChart(plan[3], chart);
    assert RenderCount(plan[2..], chart) == RendersChart(plan[2], chart) + RenderCount(plan[3..], chart);
    assert RenderCount(plan[1..], chart) == RendersChart(plan[1], chart) + RenderCount(plan[2..], chart);
  }

  /**
   * A managed deletion renders the external-name chart twice (into the
   * sub-directory and into the workspace), where a managed creation renders
   * it once; every other chart is rendered as often by both.
   */
  lemma ExternalNameRenderedTwiceOnDelete(db: MySql)
    ensures RenderCount(ManagedDeletePlan, ExternalNameSvc) == 2
    ensures RenderCount(ManagedCreatePlan(db), ExternalNameSvc) == 1
    ensures forall c :: c != ExternalNameSvc ==> RenderCount(ManagedDeletePlan, c) == RenderCount(ManagedCreatePlan(db), c)
  {
    forall c | true
      ensures RenderCount(ManagedDeletePlan, c) == RendersChart(ManagedDeletePlan[0], c) + RendersChart(ManagedDeletePlan[1], c)
                + RendersChart(ManagedDeletePlan[2], c) + RendersChart(ManagedDeletePlan[3], c)
      ensures RenderCount(ManagedCreatePlan(db), c) == RendersChart(ManagedCreatePlan(db)[0], c) + RendersChart(ManagedCreatePlan(db)[1], c)
                + RendersChart(ManagedCreatePlan(db)[2], c) + RendersChart(ManagedCreatePlan(db)[3], c)
    {
      RenderCountOfFour(ManagedDeletePlan, c);
      RenderCountOfFour(ManagedCreatePlan(db), c);
    }
  }

  // ---------------------------------------------------------------------
  // The other lifecycle hooks.

  datatype Hook =
    | OnCreateCheck | OnCreateError
    | OnPause | OnPauseCheck | OnPauseError
    | OnDeleteCheck | OnDeleteError
    | OnClone | OnCloneCheck | OnCloneError
    | OnUpgrade | OnUpgradeCheck | OnUpgradeError
    | OnDowngrade | OnDowngradeCheck | OnDowngradeError
    | OnBackup | OnBackupCheck | OnBackupError
    | OnRestore | OnRestoreCheck | OnRestoreError

  /** The hooks whose body is `unimplemented!()`: the clone, upgrade, downgrade, backup and restore families. */
  predicate Unimplemented(h: Hook) {
    || h.OnClone? || h.OnCloneCheck? || h.OnCloneError?
    || h.OnUpgrade? || h.OnUpgradeCheck? || h.OnUpgradeError?
    || h.OnDowngrade? || h.OnDowngradeCheck? || h.OnDowngradeError?
    || h.OnBackup? || h.OnBackupCheck? || h.OnBackupError?
    || h.OnRestore? || h.OnRestoreCheck? || h.OnRestoreError?
  }

  /**
   * Running a hook: `None` when the hook panics as unimplemented; otherwise
   * it returns `Ok` without taking any action.
   */
  function RunHook(h: Hook): (r: Option<Result<(), EngineError>>)
    ensures r.None? <==> Unimplemented(h)
    ensures r.Some? ==> r.value == Ok(())
  {
    match h
    case OnCreateCheck | OnCreateError | OnPause | OnPauseCheck | OnPauseError | OnDeleteCheck | OnDeleteError =>
      Some(Ok(()))
    case _ => None
  }
}
