/** The node's start script (defaults/up.sh): option parsing, and the edits it makes before the broker starts. */
module StartScript {
  import opened Basics
  import opened ConfigFile
  import opened WriteSeries
  import opened EnvKeys

  /** Shell variables; an unset one reads as the empty string. */
  type Vars = map<string, string>

  function Get(vars: Vars, name: string): string {
    if name in vars then vars[name] else ""
  }

  /******* Options *******/

  /** The variable an option sets. */
  function OptionVariable(arg: string): Option<string> {
    if arg == "--process.roles" then Some("process_role")
    else if arg == "--node.id" then Some("node_id")
    else if arg == "--controller.quorum.voters" then Some("quorum_voters")
    else if arg == "--s3.region" then Some("s3_region")
    else if arg == "--s3.bucket" then Some("s3_bucket")
    else if arg == "--cluster.id" then Some("cluster_id")
    else if arg == "--s3.access.key" then Some("s3_access_key")
    else if arg == "--s3.secret.key" then Some("s3_secret_key")
    else if arg == "--s3.endpoint" then Some("s3_endpoint")
    else if arg == "--s3.path.style" then Some("s3_path_style")
    else None
  }

  /** verify_command_line_argument: a value must be there and must not look like an option. */
  predicate IsArgument(value: string) {
    value != "" && value[0] != '-'
  }

  /** set_once; `None` is the script dying. */
  function SetOnce(vars: Vars, name: string, value: string): Option<Vars> {
    if Get(vars, name) != "" || !IsArgument(value) then None else Some(vars[name := value])
  }

  /** How the option loop ends: with all options set, by dying, or never, at an option it does not know. */
  datatype Parsed = Options(vars: Vars) | Died | Spins(option: string)

  function ParseOptions(args: seq<string>, vars: Vars): Parsed
    decreases |args|
  {
    if args == [] then Options(vars)
    else
      match OptionVariable(args[0])
      case None => Spins(args[0])
      case Some(name) =>
        match SetOnce(vars, name, if |args| > 1 then args[1] else "")
        case None => Died
        case Some(vars') => ParseOptions(if |args| > 1 then args[2..] else [], vars')
  }

  /** The loop itself, one round at a time: an unknown option falls through the case and is not shifted. */
  datatype Loop = At(args: seq<string>, vars: Vars) | Dead

  function Round(l: Loop): Loop {
    if l.Dead? || l.args == [] then l
    else
      match OptionVariable(l.args[0])
      case None => l
      case Some(name) =>
        match SetOnce(l.vars, name, if |l.args| > 1 then l.args[1] else "")
        case None => Dead
        case Some(vars') => At(if |l.args| > 1 then l.args[2..] else [], vars')
  }

  function Rounds(n: nat, l: Loop): Loop {
    if n == 0 then l else Rounds(n - 1, Round(l))
  }

  lemma {:induction false} RoundsStay(n: nat, l: Loop)
    requires Round(l) == l
    ensures Rounds(n, l) == l
  {
    if n > 0 {
      RoundsStay(n - 1, l);
    }
  }

  /** Termination of the option loop, exactly: it is over within as many rounds as there are arguments, with the
      options set or the script dead, unless it meets an unknown option, and then it never ends. */
  lemma {:induction false} LoopEnds(args: seq<string>, vars: Vars, n: nat)
    requires n >= |args|
    ensures match ParseOptions(args, vars)
            case Options(vars') => Rounds(n, At(args, vars)) == At([], vars')
            case Died => Rounds(n, At(args, vars)) == Dead
            case Spins(option) => var l := Rounds(n, At(args, vars));
                                  l.At? && l.args != [] && l.args[0] == option && Round(l) == l
    decreases |args|
  {
    hide OptionVariable, SetOnce;
    var next := Round(At(args, vars));
    if args == [] || next == Dead || next == At(args, vars) {
      if n > 0 {
        RoundsStay(n - 1, next);
      }
    } else {
      LoopEnds(next.args, next.vars, n - 1);
    }
  }

  /******* The edits *******/

  const DATA_PATH := "/data/kafka"
  const ROLES := ["broker", "controller", "server"]

  function BucketUrl(v: Vars): string {
    "0@s3://" + Get(v, "s3_bucket") + "?region=" + Get(v, "s3_region") + "&endpoint=" + Get(v, "s3_endpoint")
    + "&authType=static&pathStyle=" + Get(v, "s3_path_style")
  }

  const BALANCER_ALL := [ AddKey("autobalancer.topic", "AutoBalancerMetricsReporterTopic"),
                          AddKey("autobalancer.topic.num.partitions", "1") ]
  const BALANCER_CONTROLLER := [ AddKey("autobalancer.controller.enable", "true"),
                                 AddKey("autobalancer.controller.exclude.topics", "__consumer_offsets") ]
  function LogDir(role: string): string {
    DATA_PATH + "/kraft-" + role + "-logs"
  }

  function WalPath(): string {
    "0@file://" + DATA_PATH + "/wal?capacity=2147483648"
  }

  const REPORTER := "kafka.autobalancer.metricsreporter" + ".AutoBalancerMetricsReporter"
  const BALANCER_BROKER := [AddKey("metric.reporters", REPORTER)]

  /** turn_on_auto_balancer. */
  function BalancerWrites(role: string): seq<Write> {
    BALANCER_ALL
    + (if role == "broker" then BALANCER_BROKER
       else if role == "controller" then BALANCER_CONTROLLER
       else if role == "server" then BALANCER_CONTROLLER + BALANCER_BROKER
       else [])
  }

  function OptionWrites(role: string, v: Vars): seq<Write> {
    [ SetupKey("node.id", Get(v, "node_id")),
      SetupKey("controller.quorum.voters", Get(v, "quorum_voters")),
      SetupKey("s3.data.buckets", BucketUrl(v)),
      SetupKey("s3.ops.buckets", BucketUrl(v)),
      SetupKey("log.dirs", LogDir(role)),
      SetupKey("s3.wal.path", WalPath()) ]
  }

  function RoleWrites(role: string, v: Vars): seq<Write> {
    OptionWrites(role, v) + BalancerWrites(role)
  }

  const PLAINTEXT := "PLAINTEXT://0.0.0.0:9092"
  const CONTROLLER := "CONTROLLER://0.0.0.0:9093"

  /** The listener settings of kafka_monitor_ip. */
  function IpWrites(role: string, advertised: string): seq<Write> {
    if role == "server" then
      [ SetupKey("listeners", PLAINTEXT + "," + CONTROLLER),
        SetupKey("advertised.listeners", "PLAINTEXT://" + advertised) ]
    else if role == "broker" then
      [ SetupKey("listeners", PLAINTEXT),
        SetupKey("advertised.listeners", "PLAINTEXT://" + advertised) ]
    else [SetupKey("listeners", CONTROLLER)]
  }

  function RunInfoWrites(v: Vars, kafkaDir: string): seq<Write> {
    [ SetupKey("node.id", Get(v, "node_id")), SetupKey("role", Get(v, "process_role")),
      SetupKey("kafka.base.path", kafkaDir), SetupKey("kafka.data.path", DATA_PATH) ]
  }

  /** configure_from_environment_variables, over the KAFKA_CFG_ variables in the shell's order. */
  function EnvWrites(cfg: seq<(string, string)>): seq<Write> {
    seq(|cfg|, k requires 0 <= k < |cfg| => EnvWrite(cfg[k]))
  }

  function EnvWrite(setting: (string, string)): Write {
    AddKey(KeyOf(setting.0), setting.1)
  }

  predicate IsConfiguration(cfg: seq<(string, string)>) {
    forall k :: 0 <= k < |cfg| ==> IsVariable(cfg[k].0) && SedPlain(cfg[k].1)
  }

  /** `grep role run.info | awk -F= '{print $2}'`, as a command substitution reads it. */
  function RoleLines(lines: Lines): seq<string> {
    if lines == [] then []
    else
      var last := lines[|lines| - 1];
      var fields := SplitAt(last, '=');
      RoleLines(lines[..|lines| - 1])
      + (if Contains(last, "role") then [if |fields| > 1 then fields[1] else ""] else [])
  }

  function Chomp(s: string): string {
    if s != "" && s[|s| - 1] == '\n' then Chomp(s[..|s| - 1]) else s
  }

  function ReadRole(lines: Lines): string {
    Chomp(Join(RoleLines(lines), "\n"))
  }

  /******* The script *******/

  datatype FileName = Properties(role: string) | RunInfo

  type Files = map<FileName, Lines>

  /** The files the container image ships. */
  predicate HasFiles(files: Files) {
    RunInfo in files && Properties("broker") in files && Properties("controller") in files
        && Properties("server") in files
  }

  datatype Up = Launched(role: string) | Stopped | AlreadyRunning | Spinning(option: string)

  /** What the script finds around it. */
  datatype Host = Host(kafkaDir: string, running: bool, nodeIP: Option<string>, cfg: seq<(string, string)>)

  /** Region and cluster id fall back to defaults, the keys to the container's environment. */
  function WithDefaults(v: Vars): Vars {
    var v1 := if Get(v, "s3_region") != "" then v else v["s3_region" := Get(v, "AWS_DEFAULT_REGION")];
    var v2 := if Get(v1, "s3_access_key") != "" then v1 else v1["s3_access_key" := Get(v1, "KAFKA_S3_ACCESS_KEY")];
    var v3 := if Get(v2, "s3_secret_key") != "" then v2 else v2["s3_secret_key" := Get(v2, "KAFKA_S3_SECRET_KEY")];
    if Get(v3, "cluster_id") != "" then v3 else v3["cluster_id" := "rZdE0DjZSrqy96PXrMUZVw"]
  }

  predicate HasRequired(v: Vars) {
    Get(v, "node_id") != "" && Get(v, "process_role") != "" && Get(v, "quorum_voters") != ""
        && Get(v, "s3_bucket") != ""
    && Get(v, "s3_endpoint") != "" && Get(v, "s3_path_style") != ""
  }

  /** The region the script works with. */
  function Region(v: Vars): string {
    if Get(v, "s3_region") != "" then Get(v, "s3_region") else Get(v, "AWS_DEFAULT_REGION")
  }

  /** The variables that reach a sed program hold nothing that would alter it; about all others nothing is said. */
  predicate PlainVars(v: Vars) {
    SedPlain(Get(v, "node_id")) && SedPlain(Get(v, "process_role")) && SedPlain(Get(v, "quorum_voters"))
    && SedPlain(Get(v, "s3_bucket")) && SedPlain(Get(v, "s3_endpoint")) && SedPlain(Get(v, "s3_path_style"))
    && SedPlain(Region(v))
    && (Get(v, "OPERATOR_APIS_ADDR") != "" ==> SedPlain(Get(v, "NODEPORT_DEFAULT_PORT")))
  }

  predicate PlainHost(h: Host) {
    SedPlain(h.kafkaDir) && (h.nodeIP.Some? ==> SedPlain(h.nodeIP.value)) && IsConfiguration(h.cfg)
  }

  /** The address other nodes are told, unless the operator's API is configured and does not answer. */
  function Advertised(v: Vars, h: Host): Option<string> {
    if Get(v, "OPERATOR_APIS_ADDR") == "" then Some("0.0.0.0:9092")
    else if h.nodeIP.Some? && h.nodeIP.value != "" then Some(h.nodeIP.value + ":" + Get(v, "NODEPORT_DEFAULT_PORT"))
    else None
  }

  predicate KnownRole(role: string) {
    role == "broker" || role == "controller" || role == "server"
  }

  lemma OptionKeys()
    ensures IsKey("node.id") && IsKey("controller.quorum.voters")
  {
  }

  lemma BucketKeys()
    ensures IsKey("s3.data.buckets") && IsKey("s3.ops.buckets")
  {
  }

  lemma PathKeys()
    ensures IsKey("log.dirs") && IsKey("s3.wal.path")
  {
  }

  lemma TopicKeys()
    ensures IsKey("autobalancer.topic") && IsKey("metric.reporters")
  {
  }

  lemma PartitionKey()
    ensures IsKey("autobalancer.topic.num.partitions")
  {
  }

  lemma EnableKey()
    ensures IsKey("autobalancer.controller.enable")
  {
  }

  lemma ExcludeKey()
    ensures IsKey("autobalancer.controller.exclude.topics")
  {
  }

  lemma ListenerKeys()
    ensures IsKey("listeners") && IsKey("advertised.listeners")
  {
  }

  lemma RunInfoKeys()
    ensures IsKey("role") && IsKey("kafka.base.path") && IsKey("kafka.data.path")
  {
  }

  lemma PlainBucketUrl(v: Vars)
    requires PlainVars(v)
    ensures SedPlain(BucketUrl(v))
  {
    assert SedPlain(Get(v, "s3_region"));
    assert SedPlain("0@s3://") && SedPlain("?region=") && SedPlain("&endpoint=")
        && SedPlain("&authType=static&pathStyle=");
    hide SedPlain, Get;
    var s1 := "0@s3://" + Get(v, "s3_bucket");
    PlainJoined("0@s3://", Get(v, "s3_bucket"));
    PlainJoined(s1, "?region=");
    PlainJoined(s1 + "?region=", Get(v, "s3_region"));
    var s2 := s1 + "?region=" + Get(v, "s3_region");
    PlainJoined(s2, "&endpoint=");
    PlainJoined(s2 + "&endpoint=", Get(v, "s3_endpoint"));
    var s3 := s2 + "&endpoint=" + Get(v, "s3_endpoint");
    PlainJoined(s3, "&authType=static&pathStyle=");
    PlainJoined(s3 + "&authType=static&pathStyle=", Get(v, "s3_path_style"));
  }

  lemma PlainPaths(role: string)
    requires KnownRole(role)
    ensures SedPlain(LogDir(role)) && SedPlain(WalPath())
    ensures SedPlain(DATA_PATH)
  {
    assert SedPlain(DATA_PATH) && SedPlain("/kraft-") && SedPlain(role) && SedPlain("-logs");
    assert SedPlain("0@file://") && SedPlain("/wal?capacity=2147483648");
    hide SedPlain, KnownRole;
    PlainJoined(DATA_PATH, "/kraft-");
    PlainJoined(DATA_PATH + "/kraft-", role);
    PlainJoined(DATA_PATH + "/kraft-" + role, "-logs");
    PlainJoined("0@file://", DATA_PATH);
    PlainJoined("0@file://" + DATA_PATH, "/wal?capacity=2147483648");
  }

  lemma OptionWritesAreWrites(role: string, v: Vars)
    requires PlainVars(v) && KnownRole(role)
    ensures AreWrites(OptionWrites(role, v))
  {
    OptionKeys();
    BucketKeys();
    PathKeys();
    PlainBucketUrl(v);
    PlainPaths(role);
    hide IsKey, SedPlain, BucketUrl, Get, LogDir, WalPath;
  }

  lemma BalancerValues()
    ensures SedPlain("AutoBalancerMetricsReporterTopic") && '#' !in "AutoBalancerMetricsReporterTopic"
    ensures SedPlain("1") && '#' !in "1" && SedPlain("true") && '#' !in "true"
    ensures SedPlain("__consumer_offsets") && '#' !in "__consumer_offsets"
  {
  }

  lemma ReporterValue()
    ensures SedPlain(REPORTER) && '#' !in REPORTER
  {
    assert SedPlain("kafka.autobalancer.metricsreporter") && '#' !in "kafka.autobalancer.metricsreporter";
    assert SedPlain(".AutoBalancerMetricsReporter") && '#' !in ".AutoBalancerMetricsReporter";
  }

  lemma BalancerWritesAreWrites(role: string)
    ensures AreWrites(BalancerWrites(role))
  {
    TopicKeys();
    PartitionKey();
    EnableKey();
    ExcludeKey();
    BalancerValues();
    ReporterValue();
    hide IsKey, SedPlain;
    assert AreWrites(BALANCER_CONTROLLER) && AreWrites(BALANCER_BROKER);
    hide IsWrite;
  }

  lemma OptionWritesAreTame(role: string, v: Vars)
    ensures forall k :: 0 <= k < |OptionWrites(role, v)| ==> IsTame(OptionWrites(role, v)[k])
  {
    hide BucketUrl, Get, LogDir, WalPath;
  }

  lemma LaterWritesAreTame(role: string, advertised: string)
    ensures forall k :: 0 <= k < |BalancerWrites(role) + IpWrites(role, advertised)| ==>
              IsTame((BalancerWrites(role) + IpWrites(role, advertised))[k])
  {
    BalancerValues();
    ReporterValue();
    assert (forall k :: 0 <= k < |BALANCER_ALL| ==> IsTame(BALANCER_ALL[k]))
        && (forall k :: 0 <= k < |BALANCER_CONTROLLER| ==> IsTame(BALANCER_CONTROLLER[k]))
        && IsTame(BALANCER_BROKER[0]);
    hide IsTame;
    forall k | 0 <= k < |BalancerWrites(role)| ensures IsTame(BalancerWrites(role)[k]) {
    }
    forall k | 0 <= k < |IpWrites(role, advertised)| ensures IsTame(IpWrites(role, advertised)[k]) {
      SetupIsTame(IpWrites(role, advertised)[k]);
    }
  }

  lemma SetupIsTame(w: Write)
    requires w.SetupKey?
    ensures IsTame(w)
  {
  }

  lemma RoleWritesAreWrites(role: string, v: Vars)
    requires PlainVars(v) && KnownRole(role)
    ensures AreWrites(RoleWrites(role, v))
  {
    hide OptionWrites, BalancerWrites, IsWrite;
    OptionWritesAreWrites(role, v);
    BalancerWritesAreWrites(role);
  }

  lemma IpWritesAreWrites(role: string, advertised: string)
    requires SedPlain(advertised)
    ensures AreWrites(IpWrites(role, advertised))
  {
    ListenerKeys();
    assert SedPlain(PLAINTEXT) && SedPlain(CONTROLLER) && SedPlain("PLAINTEXT://") && SedPlain(",");
    PlainJoined(PLAINTEXT, ",");
    PlainJoined(PLAINTEXT + ",", CONTROLLER);
    PlainJoined("PLAINTEXT://", advertised);
    hide IsKey, SedPlain;
  }

  lemma RunInfoWritesAreWrites(v: Vars, kafkaDir: string)
    requires PlainVars(v) && SedPlain(kafkaDir)
    ensures AreWrites(RunInfoWrites(v, kafkaDir))
  {
    RunInfoKeys();
    OptionKeys();
    PlainPaths("broker");
    hide IsKey, SedPlain, Get;
  }

  lemma EnvWritesAreWrites(cfg: seq<(string, string)>)
    requires IsConfiguration(cfg)
    ensures AreWrites(EnvWrites(cfg))
  {
    hide KeyOf, IsVariable, IsKey, SedPlain;
    forall k | 0 <= k < |cfg| ensures IsWrite(EnvWrites(cfg)[k]) {
      VariablesYieldKeys(cfg[k].0);
    }
  }

  /******* The whole script, as a function *******/

  function EditFile(files: Files, file: FileName, ws: seq<Write>): Files
    requires file in files && AreWrites(ws)
  {
    files[file := ApplyAll(files[file], ws)]
  }

  /** The first edits, the same for the files of all three roles. */
  function EditRoles(files: Files, v: Vars, n: nat): (r: Files)
    requires n <= |ROLES| && HasFiles(files) && PlainVars(v)
    ensures HasFiles(r)
  {
    if n == 0 then files
    else
      RoleWritesAreWrites(ROLES[n - 1], v);
      EditFile(EditRoles(files, v, n - 1), Properties(ROLES[n - 1]), RoleWrites(ROLES[n - 1], v))
  }

  function WithRunInfo(files: Files, v: Vars, h: Host): (r: Files)
    requires HasFiles(files) && PlainVars(v) && PlainHost(h)
    ensures HasFiles(r)
  {
    RunInfoWritesAreWrites(v, h.kafkaDir);
    EditFile(files, RunInfo, RunInfoWrites(v, h.kafkaDir))
  }

  lemma PlainAdvertised(v: Vars, h: Host)
    requires PlainVars(v) && PlainHost(h)
    ensures Advertised(v, h).Some? ==> SedPlain(Advertised(v, h).value)
  {
    assert SedPlain("0.0.0.0:9092") && SedPlain(":");
    hide SedPlain, Get;
    if Get(v, "OPERATOR_APIS_ADDR") != "" && h.nodeIP.Some? {
      PlainJoined(h.nodeIP.value, ":");
      PlainJoined(h.nodeIP.value + ":", Get(v, "NODEPORT_DEFAULT_PORT"));
    }
  }

  /** The edits after the role has been read back from run.info. */
  function Finish(files: Files, v: Vars, h: Host, role: string): (Files, Up)
    requires HasFiles(files) && PlainVars(v) && PlainHost(h)
  {
    var advertised := Advertised(v, h);
    if role == "" || advertised == None || !KnownRole(role) then (files, Stopped)
    else
      PlainAdvertised(v, h);
      IpWritesAreWrites(role, advertised.value);
      EnvWritesAreWrites(h.cfg);
      var file := Properties(role);
      (EditFile(EditFile(files, file, IpWrites(role, advertised.value)), file, EnvWrites(h.cfg)), Launched(role))
  }

  predicate IsDefaulted(name: string) {
    name == "s3_region" || name == "s3_access_key" || name == "s3_secret_key" || name == "cluster_id"
  }

  lemma DefaultsKeepOther(v: Vars, name: string)
    requires !IsDefaulted(name)
    ensures Get(WithDefaults(v), name) == Get(v, name)
  {
  }

  lemma NotDefaulted()
    ensures !IsDefaulted("process_role") && !IsDefaulted("node_id") && !IsDefaulted("OPERATOR_APIS_ADDR")
            && !IsDefaulted("NODEPORT_DEFAULT_PORT") && !IsDefaulted("quorum_voters")
  {
    assert "process_role"[0] == 'p' && "node_id"[0] == 'n' && "OPERATOR_APIS_ADDR"[0] == 'O'
           && "NODEPORT_DEFAULT_PORT"[0] == 'N' && "quorum_voters"[0] == 'q';
    assert "cluster_id"[0] == 'c' && "s3_region"[0] == 's' && "s3_access_key"[0] == 's' && "s3_secret_key"[0] == 's';
  }

  lemma NotDefaultedBucket()
    ensures !IsDefaulted("s3_bucket") && !IsDefaulted("s3_endpoint") && !IsDefaulted("s3_path_style")
  {
    assert "s3_bucket"[3] == 'b' && "s3_endpoint"[3] == 'e' && "s3_path_style"[3] == 'p';
    assert "cluster_id"[3] == 's' && "s3_region"[3] == 'r' && "s3_access_key"[3] == 'a' && "s3_secret_key"[3] == 's';
  }

  /** The defaults touch no option that the script insists on. */
  lemma DefaultsKeep(v: Vars)
    ensures var d := WithDefaults(v);
            && Get(d, "process_role") == Get(v, "process_role") && Get(d, "node_id") == Get(v, "node_id")
            && Get(d, "OPERATOR_APIS_ADDR") == Get(v, "OPERATOR_APIS_ADDR")
            && Get(d, "NODEPORT_DEFAULT_PORT") == Get(v, "NODEPORT_DEFAULT_PORT")
            && Get(d, "quorum_voters") == Get(v, "quorum_voters") && Get(d, "s3_bucket") == Get(v, "s3_bucket")
            && Get(d, "s3_endpoint") == Get(v, "s3_endpoint") && Get(d, "s3_path_style") == Get(v, "s3_path_style")
  {
    hide WithDefaults, Get, IsDefaulted;
    NotDefaulted();
    NotDefaultedBucket();
    DefaultsKeepOther(v, "process_role");
    DefaultsKeepOther(v, "node_id");
    DefaultsKeepOther(v, "OPERATOR_APIS_ADDR");
    DefaultsKeepOther(v, "NODEPORT_DEFAULT_PORT");
    DefaultsKeepOther(v, "quorum_voters");
    DefaultsKeepOther(v, "s3_bucket");
    DefaultsKeepOther(v, "s3_endpoint");
    DefaultsKeepOther(v, "s3_path_style");
  }

  /** The region is the one given, else the container's. */
  lemma DefaultRegion(v: Vars)
    ensures Get(WithDefaults(v), "s3_region") == Region(v) == Region(WithDefaults(v))
  {
    assert "s3_region"[3] == 'r' && "s3_access_key"[3] == 'a' && "s3_secret_key"[3] == 's' && "cluster_id"[3] == 's';
  }

  /** What is missing comes from the container's environment or, the cluster id, from the script itself. */
  lemma DefaultsAre(v: Vars)
    ensures var d := WithDefaults(v);
            && Get(d, "cluster_id") == (if Get(v, "cluster_id") != "" then Get(v, "cluster_id")
                                        else "rZdE0DjZSrqy96PXrMUZVw")
            && Get(d, "s3_access_key") == (if Get(v, "s3_access_key") != "" then Get(v, "s3_access_key")
                                           else Get(v, "KAFKA_S3_ACCESS_KEY"))
            && Get(d, "s3_secret_key") == (if Get(v, "s3_secret_key") != "" then Get(v, "s3_secret_key")
                                           else Get(v, "KAFKA_S3_SECRET_KEY"))
  {
    assert "s3_region"[3] == 'r' && "s3_access_key"[3] == 'a' && "s3_secret_key"[3] == 's' && "cluster_id"[0] == 'c';
    assert "s3_region"[0] == 's' && "s3_access_key"[0] == 's' && "s3_secret_key"[0] == 's';
    assert "KAFKA_S3_ACCESS_KEY"[0] == 'K' && "KAFKA_S3_SECRET_KEY"[0] == 'K';
  }

  lemma PlainDefaults(v: Vars)
    requires PlainVars(v)
    ensures PlainVars(WithDefaults(v))
  {
    hide WithDefaults, SedPlain, Get, Region;
    DefaultsKeep(v);
    DefaultRegion(v);
  }

  /** After the options are parsed. */
  function Configure(files: Files, v: Vars, h: Host): (Files, Up)
    requires HasFiles(files) && PlainVars(v) && PlainHost(h)
  {
    if h.running then (files, AlreadyRunning)
    else if !HasRequired(v) then (files, Stopped)
    else
      PlainDefaults(v);
      var v' := WithDefaults(v);
      var files1 := EditRoles(files, v', |ROLES|);
      if Get(v', "KAFKA_HEAP_OPTS") == "" && !KnownRole(Get(v', "process_role")) then (files1, Stopped)
      else
        var files2 := WithRunInfo(files1, v', h);
        Finish(files2, v', h, ReadRole(files2[RunInfo]))
  }

  /** What the options set and reaches a sed program is plain. */
  predicate PlainOptions(args: seq<string>, vars: Vars) {
    match ParseOptions(args, vars)
    case Options(v) => PlainVars(v)
    case _ => true
  }

  /** kafka_up, up to the launch of the broker process. */
  function UpWith(files: Files, vars: Vars, args: seq<string>, h: Host): (Files, Up)
    requires HasFiles(files) && PlainHost(h) && PlainOptions(args, vars)
  {
    match ParseOptions(args, vars)
    case Spins(option) => (files, Spinning(option))
    case Died => (files, Stopped)
    case Options(v) => Configure(files, v, h)
  }

  /******* The script, step by step *******/

  class Script {
    var vars: Vars
    var files: Files
    const host: Host

    constructor (vars: Vars, files: Files, host: Host)
      ensures this.vars == vars && this.files == files && this.host == host
    {
      this.vars, this.files, this.host := vars, files, host;
    }

    method SetupValue(key: string, value: string, file: FileName)
      requires file in files && IsWrite(SetupKey(key, value))
      modifies this`files
      ensures files == EditFile(old(files), file, [SetupKey(key, value)])
    {
      var f := new PropertyFile(files[file]);
      f.SetupValue(key, value);
      files := files[file := f.lines];
      OneWrite(old(files)[file], SetupKey(key, value));
    }

    method AddOrSetupValue(key: string, value: string, file: FileName)
      requires file in files && IsWrite(AddKey(key, value))
      modifies this`files
      ensures files == EditFile(old(files), file, [AddKey(key, value)])
    {
      var f := new PropertyFile(files[file]);
      f.AddOrSetupValue(key, value);
      files := files[file := f.lines];
      OneWrite(old(files)[file], AddKey(key, value));
    }

    method TurnOnAutoBalancer(role: string, file: FileName)
      requires file in files && AreWrites(BalancerWrites(role))
      modifies this`files
      ensures files == EditFile(old(files), file, BalancerWrites(role))
    {
      hide ApplyAll, IsWrite, BalancerWrites;
      ghost var start := files;
      BalancerParts(role);
      assert IsWrite(BALANCER_ALL[0]) && IsWrite(BALANCER_ALL[1]);
      AddOrSetupValue("autobalancer.topic", "AutoBalancerMetricsReporterTopic", file);
      AddOrSetupValue("autobalancer.topic.num.partitions", "1", file);
      ghost var done := [BALANCER_ALL[0]];
      EditAppend(start, file, done, [BALANCER_ALL[1]]);
      assert done + [BALANCER_ALL[1]] == BALANCER_ALL;
      if role == "broker" {
        BalancerForBroker(file);
        EditAppend(start, file, BALANCER_ALL, BALANCER_BROKER);
      } else if role == "controller" {
        BalancerForController(file);
        EditAppend(start, file, BALANCER_ALL, BALANCER_CONTROLLER);
      } else if role == "server" {
        BalancerForController(file);
        EditAppend(start, file, BALANCER_ALL, BALANCER_CONTROLLER);
        BalancerForBroker(file);
        EditAppend(start, file, BALANCER_ALL + BALANCER_CONTROLLER, BALANCER_BROKER);
      }
    }

    method BalancerForController(file: FileName)
      requires file in files && AreWrites(BALANCER_CONTROLLER)
      modifies this`files
      ensures files == EditFile(old(files), file, BALANCER_CONTROLLER)
    {
      hide ApplyAll, IsWrite;
      assert IsWrite(BALANCER_CONTROLLER[0]) && IsWrite(BALANCER_CONTROLLER[1]);
      AddOrSetupValue("autobalancer.controller.enable", "true", file);
      AddOrSetupValue("autobalancer.controller.exclude.topics", "__consumer_offsets", file);
      EditAppend(old(files), file, [BALANCER_CONTROLLER[0]], [BALANCER_CONTROLLER[1]]);
      assert [BALANCER_CONTROLLER[0]] + [BALANCER_CONTROLLER[1]] == BALANCER_CONTROLLER;
    }

    method BalancerForBroker(file: FileName)
      requires file in files && AreWrites(BALANCER_BROKER)
      modifies this`files
      ensures files == EditFile(old(files), file, BALANCER_BROKER)
    {
      hide ApplyAll, IsWrite;
      assert IsWrite(BALANCER_BROKER[0]);
      AddOrSetupValue("metric.reporters", REPORTER, file);
    }

    method SetUpOptions(role: string)
      requires HasFiles(files) && PlainVars(vars) && KnownRole(role)
      modifies this`files
      ensures AreWrites(OptionWrites(role, vars))
      ensures files == EditFile(old(files), Properties(role), OptionWrites(role, vars))
    {
      hide ApplyAll, IsWrite, OptionWrites, BucketUrl, Get, LogDir, WalPath;
      OptionWritesAreWrites(role, vars);
      OptionWritesAt(role, vars);
      var file := Properties(role);
      ghost var start, ws := files, OptionWrites(role, vars);
      EditNone(start, file, ws);
      SetupValue("node.id", Get(vars, "node_id"), file);
      EditNext(start, file, ws, 0);
      SetupValue("controller.quorum.voters", Get(vars, "quorum_voters"), file);
      EditNext(start, file, ws, 1);
      SetupValue("s3.data.buckets", BucketUrl(vars), file);
      EditNext(start, file, ws, 2);
      SetupValue("s3.ops.buckets", BucketUrl(vars), file);
      EditNext(start, file, ws, 3);
      SetupValue("log.dirs", LogDir(role), file);
      EditNext(start, file, ws, 4);
      SetupValue("s3.wal.path", WalPath(), file);
      EditNext(start, file, ws, 5);
      assert ws[..6] == ws;
    }

    /** The body of kafka_up's loop over the roles. */
    method SetUpRole(role: string)
      requires HasFiles(files) && PlainVars(vars) && KnownRole(role)
      modifies this`files
      ensures AreWrites(RoleWrites(role, vars))
      ensures files == EditFile(old(files), Properties(role), RoleWrites(role, vars))
    {
      hide ApplyAll, IsWrite, OptionWrites, BalancerWrites;
      BalancerWritesAreWrites(role);
      SetUpOptions(role);
      TurnOnAutoBalancer(role, Properties(role));
      EditAppend(old(files), Properties(role), OptionWrites(role, vars), BalancerWrites(role));
    }

    method SetUpRunInfo()
      requires HasFiles(files) && PlainVars(vars) && PlainHost(host)
      modifies this`files
      ensures files == WithRunInfo(old(files), vars, host)
    {
      hide ApplyAll, IsWrite, Get;
      RunInfoWritesAreWrites(vars, host.kafkaDir);
      ghost var start, ws := files, RunInfoWrites(vars, host.kafkaDir);
      EditNone(start, RunInfo, ws);
      assert IsWrite(ws[0]) && IsWrite(ws[1]) && IsWrite(ws[2]) && IsWrite(ws[3]);
      SetupValue("node.id", Get(vars, "node_id"), RunInfo);
      EditNext(start, RunInfo, ws, 0);
      SetupValue("role", Get(vars, "process_role"), RunInfo);
      EditNext(start, RunInfo, ws, 1);
      SetupValue("kafka.base.path", host.kafkaDir, RunInfo);
      EditNext(start, RunInfo, ws, 2);
      SetupValue("kafka.data.path", DATA_PATH, RunInfo);
      EditNext(start, RunInfo, ws, 3);
      assert ws[..4] == ws;
    }

    /** kafka_monitor_ip, the address lookup included: the role it has configured, or nothing when it dies. */
    method KafkaMonitorIp() returns (role: string, ok: bool)
      requires HasFiles(files) && PlainVars(vars) && PlainHost(host)
      modifies this`files
      ensures role == ReadRole(old(files)[RunInfo])
      ensures ok <==> role != "" && Advertised(vars, host).Some? && KnownRole(role)
      ensures if ok then
                AreWrites(IpWrites(role, Advertised(vars, host).value)) && Properties(role) in old(files)
                && files == EditFile(old(files), Properties(role), IpWrites(role, Advertised(vars, host).value))
              else files == old(files)
    {
      hide ReadRole, ApplyAll, IsWrite, Get;
      role := ReadRole(files[RunInfo]);
      ok := false;
      if role == "" {
        return;
      }
      var advertised := "0.0.0.0:9092";
      if Get(vars, "OPERATOR_APIS_ADDR") != "" {
        if host.nodeIP == None || host.nodeIP.value == "" {
          return;
        }
        advertised := host.nodeIP.value + ":" + Get(vars, "NODEPORT_DEFAULT_PORT");
      }
      if !KnownRole(role) {
        return;
      }
      assert Advertised(vars, host) == Some(advertised);
      PlainAdvertised(vars, host);
      SetUpListeners(role, advertised);
      ok := true;
    }

    method SetUpListeners(role: string, advertised: string)
      requires HasFiles(files) && KnownRole(role) && SedPlain(advertised)
      modifies this`files
      ensures AreWrites(IpWrites(role, advertised))
      ensures files == EditFile(old(files), Properties(role), IpWrites(role, advertised))
    {
      IpWritesAreWrites(role, advertised);
      hide ApplyAll, IsWrite, SedPlain;
      var file := Properties(role);
      ghost var start, ws := files, IpWrites(role, advertised);
      assert IsWrite(ws[0]);
      EditNone(start, file, ws);
      EditNext(start, file, ws, 0);
      if role == "server" {
        SetupValue("listeners", PLAINTEXT + "," + CONTROLLER, file);
        assert IsWrite(ws[1]);
        SetupValue("advertised.listeners", "PLAINTEXT://" + advertised, file);
        EditNext(start, file, ws, 1);
        assert ws[..2] == ws;
      } else if role == "broker" {
        SetupValue("listeners", PLAINTEXT, file);
        assert IsWrite(ws[1]);
        SetupValue("advertised.listeners", "PLAINTEXT://" + advertised, file);
        EditNext(start, file, ws, 1);
        assert ws[..2] == ws;
      } else {
        SetupValue("listeners", CONTROLLER, file);
        assert ws[..1] == ws;
      }
    }

    method ConfigureFromEnvironmentVariables(file: FileName)
      requires file in files && IsConfiguration(host.cfg)
      modifies this`files
      ensures AreWrites(EnvWrites(host.cfg)) && files == EditFile(old(files), file, EnvWrites(host.cfg))
    {
      hide ApplyAll, IsWrite, KeyOf, IsConfiguration;
      EnvWritesAreWrites(host.cfg);
      ghost var ws := EnvWrites(host.cfg);
      EditNone(files, file, ws);
      var i := 0;
      while i < |host.cfg|
        invariant 0 <= i <= |host.cfg|
        invariant file in files && files == EditFile(old(files), file, ws[..i])
      {
        var (variable, value) := host.cfg[i];
        assert ws[i] == AddKey(KeyOf(variable), value) && IsWrite(ws[i]);
        AddOrSetupValue(KeyOf(variable), value, file);
        EditNext(old(files), file, ws, i);
        i := i + 1;
      }
      assert ws[..i] == ws;
    }

    /** kafka_up, from the end of the option loop to the launch. */
    method ConfigureNode() returns (up: Up)
      requires HasFiles(files) && PlainVars(vars) && PlainHost(host)
      modifies this
      ensures (files, up) == Configure(old(files), old(vars), host)
    {
      hide ReadRole, ApplyAll, IsWrite, RoleWrites, Get, PlainVars, IsConfiguration;
      if host.running {
        return AlreadyRunning;
      }
      if !HasRequired(vars) {
        return Stopped;
      }
      PlainDefaults(vars);
      vars := WithDefaults(vars);
      var i := 0;
      while i < |ROLES|
        invariant i <= |ROLES| && HasFiles(files)
        invariant vars == WithDefaults(old(vars))
        invariant files == EditRoles(old(files), vars, i)
      {
        assert KnownRole(ROLES[i]);
        SetUpRole(ROLES[i]);
        i := i + 1;
      }
      if Get(vars, "KAFKA_HEAP_OPTS") == "" && !KnownRole(Get(vars, "process_role")) {
        return Stopped;
      }
      SetUpRunInfo();
      ghost var files2 := files;
      var role, ok := KafkaMonitorIp();
      if !ok {
        return Stopped;
      }
      ConfigureFromEnvironmentVariables(Properties(role));
      return Launched(role);
    }

    method KafkaUp(arguments: seq<string>) returns (up: Up)
      requires HasFiles(files) && PlainHost(host) && PlainOptions(arguments, vars)
      modifies this
      ensures (files, up) == UpWith(old(files), old(vars), arguments, host)
    {
      hide ParseOptions, Configure, SedPlain, PlainVars;
      var parsed := ParseArguments(arguments);
      match parsed
      case Spins(option) => up := Spinning(option);
      case Died => up := Stopped;
      case Options(v) => up := ConfigureNode();
    }

    /** The option loop. At an option it does not know the shell repeats the same round for ever; the method reports
        that instead. */
    method ParseArguments(arguments: seq<string>) returns (r: Parsed)
      modifies this`vars
      ensures r == ParseOptions(arguments, old(vars))
      ensures r.Options? ==> vars == r.vars
    {
      hide OptionVariable;
      var args := arguments;
      while args != []
        invariant ParseOptions(args, vars) == ParseOptions(arguments, old(vars))
        decreases |args|
      {
        var name := OptionVariable(args[0]);
        if name == None {
          return Spins(args[0]);
        }
        var value := if |args| > 1 then args[1] else "";
        if Get(vars, name.value) != "" || value == "" || value[0] == '-' {
          return Died;
        }
        vars := vars[name.value := value];
        args := if |args| > 1 then args[2..] else [];
      }
      return Options(vars);
    }
  }

  lemma BalancerParts(role: string)
    requires AreWrites(BalancerWrites(role))
    ensures AreWrites(BALANCER_ALL)
    ensures role == "broker" ==> AreWrites(BALANCER_BROKER) && BalancerWrites(role) == BALANCER_ALL + BALANCER_BROKER
    ensures role == "controller" ==>
              AreWrites(BALANCER_CONTROLLER) && BalancerWrites(role) == BALANCER_ALL + BALANCER_CONTROLLER
    ensures role == "server" ==> AreWrites(BALANCER_CONTROLLER) && AreWrites(BALANCER_BROKER)
                                 && BalancerWrites(role) == BALANCER_ALL + BALANCER_CONTROLLER + BALANCER_BROKER
    ensures !KnownRole(role) ==> BalancerWrites(role) == BALANCER_ALL
  {
    BalancerWritesAreWrites("server");
    hide IsWrite;
    var all := BalancerWrites("server");
    assert all == BALANCER_ALL + (BALANCER_CONTROLLER + BALANCER_BROKER);
    assert all[0] == BALANCER_ALL[0] && all[1] == BALANCER_ALL[1];
    assert all[2] == BALANCER_CONTROLLER[0] && all[3] == BALANCER_CONTROLLER[1] && all[4] == BALANCER_BROKER[0];
  }

  /** Two batches of edits to one file are one batch. */
  lemma EditAppend(files: Files, file: FileName, ws: seq<Write>, more: seq<Write>)
    requires file in files && AreWrites(ws) && AreWrites(more)
    ensures AreWrites(ws + more)
    ensures EditFile(EditFile(files, file, ws), file, more) == EditFile(files, file, ws + more)
  {
    hide ApplyAll, IsWrite;
    ApplyAppend(files[file], ws, more);
  }

  lemma EditNone(files: Files, file: FileName, ws: seq<Write>)
    requires file in files && AreWrites(ws)
    ensures EditFile(files, file, ws[..0]) == files
  {
    hide IsWrite;
    assert ws[..0] == [];
  }

  lemma OptionWritesAt(role: string, v: Vars)
    ensures var ws := OptionWrites(role, v);
            && |ws| == 6
            && ws[0] == SetupKey("node.id", Get(v, "node_id"))
            && ws[1] == SetupKey("controller.quorum.voters", Get(v, "quorum_voters"))
            && ws[2] == SetupKey("s3.data.buckets", BucketUrl(v))
            && ws[3] == SetupKey("s3.ops.buckets", BucketUrl(v))
            && ws[4] == SetupKey("log.dirs", LogDir(role))
            && ws[5] == SetupKey("s3.wal.path", WalPath())
  {
    hide BucketUrl, Get, LogDir, WalPath;
  }

  lemma EditNext(files: Files, file: FileName, ws: seq<Write>, k: nat)
    requires file in files && AreWrites(ws) && k < |ws|
    ensures EditFile(EditFile(files, file, ws[..k]), file, [ws[k]]) == EditFile(files, file, ws[..k + 1])
  {
    hide ApplyAll, IsWrite;
    EditAppend(files, file, ws[..k], [ws[k]]);
    assert ws[..k] + [ws[k]] == ws[..k + 1];
  }

  lemma OneWrite(lines: Lines, w: Write)
    requires IsWrite(w)
    ensures ApplyAll(lines, [w]) == Apply(lines, w)
  {
    assert [w][..0] == [];
    assert ApplyAll(lines, [w][..0]) == lines;
  }
}
