/** From the operator's pod template to the node's property file: what the start script makes of the command and of
    the environment the operator gives it. */
module Startup {
  import opened Basics
  import opened AutoMQApi
  import Naming
  import opened Store
  import opened Templates
  import opened Pipeline
  import opened Convergence
  import opened Quorum
  import opened ConfigFile
  import opened WriteSeries
  import EnvKeys
  import opened StartScript
  import opened NodeConfig
  import opened OperatorSettings
  import opened CommandLine
  import opened Container
  import opened OwnSettings
  import Blueprint

  /******* The script's variables once its options are parsed *******/

  lemma {:induction false} WordsArePlain(s: string)
    requires IsWord(s)
    ensures SedPlain(s) && '#' !in s && Written(s) == s
  {
    NothingToReplace(s, '#', "/#/");
  }

  /** The address variables of a node are not touched by its options. */
  lemma AddressKept(t: Target, role: Naming.Role, i: int, vars: Vars)
    ensures var v := NodeVars(t, role, i, vars);
            Get(v, APIS_NAME) == Get(vars, APIS_NAME) && Get(v, PORT_NAME) == Get(vars, PORT_NAME)
  {
    hide OptionVariable, SetAll, OptionPairs, Get;
    PairsAreOptions(t, role, i);
    forall k | 0 <= k < 8
      ensures VariableOf(OptionPairs(t, role, i)[k].0) != APIS_NAME
          && VariableOf(OptionPairs(t, role, i)[k].0) != PORT_NAME
    {
      PairVariables(t, role, i, k);
      VariableTags(k);
      PortTags(k);
    }
    SetAllGets(vars, OptionPairs(t, role, i), APIS_NAME);
    SetAllGets(vars, OptionPairs(t, role, i), PORT_NAME);
  }

  lemma PortTags(k: nat)
    requires k < 8
    ensures APIS_NAME[0] != TAG0[k] && PORT_NAME[0] != TAG0[k]
  {
  }

  lemma OptionValuesArePlain(t: Target, role: Naming.Role, i: int)
    requires Startable(t)
    ensures IsWord(role.Name()) && IsWord(PrintInt(Naming.NodeId(role, i, t.spec.controller.replicas)))
    ensures IsWord(VoterString(t)) && IsWord(t.spec.s3.bucket) && IsWord(t.spec.s3.endpoint)
    ensures IsWord(t.spec.s3.region) && IsWord(PrintBool(t.spec.s3.enablePathStyle))
  {
    hide IsWord, PrintInt, PrintBool, VoterString, Naming.NodeId, IsDnsLabel;
    VoterStringIsValue(t);
    RoleAndFlagAreValues(role, t.spec.s3.enablePathStyle);
    PrintedIntIsWord(Naming.NodeId(role, i, t.spec.controller.replicas));
  }

  /** Nothing a node's script writes can alter a sed program. */
  lemma NodeVarsArePlain(t: Target, role: Naming.Role, i: int, vars: Vars)
    requires Startable(t) && (Get(vars, APIS_NAME) != "" ==> SedPlain(Get(vars, PORT_NAME)))
    ensures PlainVars(NodeVars(t, role, i, vars))
  {
    hide NodeVars, SedPlain, Startable, Get, IsWord, PrintInt, PrintBool, VoterString, Naming.NodeId, Written,
         HasRequired, KnownRole;
    NodeVarsAre(t, role, i, vars);
    AddressKept(t, role, i, vars);
    OptionValuesArePlain(t, role, i);
    WordsArePlain(role.Name());
    WordsArePlain(PrintInt(Naming.NodeId(role, i, t.spec.controller.replicas)));
    WordsArePlain(VoterString(t));
    WordsArePlain(t.spec.s3.bucket);
    WordsArePlain(t.spec.s3.endpoint);
    WordsArePlain(t.spec.s3.region);
    WordsArePlain(PrintBool(t.spec.s3.enablePathStyle));
    WordNotEmpty(t.spec.s3.region);
  }

  /******* Files and hosts a node can start from *******/

  /** A property file that assigns every listed key, or at least has none that begins like one the script may add,
      and a run.info with one line about the role. */
  ghost predicate IsComplete(files: Files, role: string, k: nat) {
    && HasFiles(files) && Properties(role) in files && OnlyLine(files[RunInfo], k)
    && forall n :: 0 <= n < |Listed()| ==>
        Has(files[Properties(role)], Listed()[n]) || (6 <= n <= 10 && Fresh(files[Properties(role)], Listed()[n]))
  }

  /** The broker is not running yet, its directory has an ordinary name, and the operator's address service answers a
      broker. */
  predicate IsServed(h: Host, role: Naming.Role) {
    && !h.running && SedPlain(h.kafkaDir) && !Contains(Written(h.kafkaDir), "role")
    && (h.nodeIP.Some? ==> IsWord(h.nodeIP.value)) && (role == Naming.Broker ==> h.nodeIP.Some?)
  }

  lemma {:induction false} DigitsMentionNoRole(s: string)
    requires forall k :: 0 <= k < |s| ==> IsDigit(s[k]) || s[k] == '-'
    ensures !Contains(s, "role") && Written(s) == s
  {
    assert "role"[0] == 'r';
    if s != "" {
      DigitsMentionNoRole(s[1..]);
      assert [s[0]] + s[1..] == s;
    }
  }

  lemma AddedAtPosition(role: string, v: Vars, advertised: string, n: nat)
    requires KnownRole(role) && n < |ListedWrites(role, v, advertised)|
    ensures n < |Positions(role)| && (6 <= Positions(role)[n] <= 10 ==> ListedWrites(role, v, advertised)[n].AddKey?)
  {
    ListedSplit(role, v, advertised);
    OptionWritesInList(role, v);
    hide OptionWrites, Listed;
    var ws, later := ListedWrites(role, v, advertised), BalancerWrites(role) + IpWrites(role, advertised);
    assert ws == OptionWrites(role, v) + later;
    if n >= 6 {
      assert ws[n] == later[n - 6];
    }
  }

  lemma CompleteIsPrepared(files: Files, role: string, k: nat, v: Vars, advertised: string)
    requires KnownRole(role) && IsComplete(files, role, k)
    ensures Prepared(files[Properties(role)], ListedWrites(role, v, advertised))
  {
    hide ListedWrites, Listed, Positions, Has, Fresh, OnlyLine, KnownRole;
    WritesAtPositions(role, v, advertised);
    var ws := ListedWrites(role, v, advertised);
    forall n | 0 <= n < |ws|
      ensures Has(files[Properties(role)], ws[n].key) || (ws[n].AddKey? && Fresh(files[Properties(role)], ws[n].key))
    {
      PositionInList(role, n);
      AddedAtPosition(role, v, advertised, n);
    }
  }

  /** The address a node tells others: its Service's node port on the address it is served, for a broker. */
  lemma NodeAdvertises(t: Target, role: Naming.Role, i: int, port: int, sur: Surroundings, h: Host)
    requires AllStandBy(t.Of(role).envs, sur) && IsServed(h, role)
    ensures var vars := ShellVars(TemplateEnv(t, role, port), sur);
            && (Get(vars, APIS_NAME) != "" ==> SedPlain(Get(vars, PORT_NAME)))
            && Advertised(NodeVars(t, role, i, vars), h) ==
               if role == Naming.Broker then Some(h.nodeIP.value + ":" + PrintInt(port)) else Some("0.0.0.0:9092")
  {
    hide NodeVars, ShellVars, TemplateEnv, Get, PrintInt, AllStandBy, IsWord, SedPlain, Contains, Written;
    var vars := ShellVars(TemplateEnv(t, role, port), sur);
    AddressVariables(t, role, port, sur);
    AddressKept(t, role, i, vars);
    PrintedIntIsWord(port);
    WordsArePlain(PrintInt(port));
    if role == Naming.Broker {
      WordNotEmpty(h.nodeIP.value);
    }
  }

  /** Complete files, an address service that answers, and variables that stand by are all a node needs. */
  lemma CompleteFilesSuffice(t: Target, role: Naming.Role, i: int, port: int, sur: Surroundings, files: Files, h: Host,
      k: nat)
    requires Startable(t) && AllStandBy(t.Of(role).envs, sur) && IsServed(h, role) && IsComplete(files, role.Name(), k)
    requires IsListing(h.cfg, ShellVars(TemplateEnv(t, role, port), sur))
    ensures CanStart(files, NodeVars(t, role, i, ShellVars(TemplateEnv(t, role, port), sur)), h, k)
  {
    hide NodeVars, Startable, AllStandBy, ShellVars, TemplateEnv, ListedWrites, WithDefaults, Get, Contains,
         Written, OnlyLine, SedPlain, KnownRole, PlainVars, Has, Fresh, IsConfiguration, Naming.NodeId, PrintInt,
         Listed, StandsBy, IsListing, VoterString, Advertised, Prepared, Unmistakable, IsWord, PrintBool;
    var vars := ShellVars(TemplateEnv(t, role, port), sur);
    var v := NodeVars(t, role, i, vars);
    NodeVarsAre(t, role, i, vars);
    NodeAdvertises(t, role, i, port, sur, h);
    NodeVarsArePlain(t, role, i, vars);
    DigitsMentionNoRole(PrintInt(Naming.NodeId(role, i, t.spec.controller.replicas)));
    ContainerSettings(t, role, port, sur, h.cfg);
    if h.nodeIP.Some? {
      WordsArePlain(h.nodeIP.value);
    }
    CompleteIsPrepared(files, role.Name(), k, WithDefaults(v), Advertised(v, h).value);
    BystandersOverrideNothing(h.cfg, role.Name(), WithDefaults(v), Advertised(v, h).value);
  }

  /******* What the file says *******/

  /** The bucket line a resource's storage settings stand for. */
  function IntendedBucket(t: Target): string {
    "0@s3://" + t.spec.s3.bucket + "?region=" + t.spec.s3.region + "&endpoint=" + t.spec.s3.endpoint
    + "&authType=static&pathStyle=" + (if t.spec.s3.enablePathStyle then "true" else "false")
  }

  function AddressOf(ip: string, port: int): string {
    "PLAINTEXT://" + (ip + ":" + PrintInt(port))
  }

  /** What the options of a node come to in its file: its own id, the voters all nodes share, the resource's
      buckets, and the paths of the image. */
  function OptionsOf(t: Target, role: Naming.Role, i: int): (pairs: seq<(string, string)>)
    ensures |pairs| == 6
  {
    [ ("node.id", PrintInt(Naming.NodeId(role, i, t.spec.controller.replicas))),
      ("controller.quorum.voters", VoterString(t)),
      ("s3.data.buckets", IntendedBucket(t)),
      ("s3.ops.buckets", IntendedBucket(t)),
      ("log.dirs", if role == Naming.Controller then "/data/kafka/kraft-controller-logs"
                   else "/data/kafka/kraft-broker-logs"),
      ("s3.wal.path", "0@file:///data/kafka/wal?capacity=2147483648") ]
  }

  /** What its role comes to: the balancer settings, and the listener, on the port the container opens; a broker tells
      clients the address it was served and the node port of its Service. */
  function RoleOf(role: Naming.Role, containerPort: int, ip: string, nodePort: int): (pairs: seq<(string, string)>)
    ensures |pairs| == 5
  {
    [ ("autobalancer.topic", "AutoBalancerMetricsReporterTopic"),
      ("autobalancer.topic.num.partitions", "1") ]
    + if role == Naming.Controller then
        [ ("autobalancer.controller.enable", "true"),
          ("autobalancer.controller.exclude.topics", "__consumer_offsets"),
          ("listeners", "CONTROLLER://0.0.0.0:" + PrintInt(containerPort)) ]
      else
        [ ("metric.reporters", "kafka.autobalancer.metricsreporter.AutoBalancerMetricsReporter"),
          ("listeners", "PLAINTEXT://0.0.0.0:" + PrintInt(containerPort)),
          ("advertised.listeners", AddressOf(ip, nodePort)) ]
  }

  /** What the file of a node says, property by property. */
  function FileOf(t: Target, role: Naming.Role, i: int, containerPort: int, ip: string, nodePort: int)
    : seq<(string, string)>
  {
    OptionsOf(t, role, i) + RoleOf(role, containerPort, ip, nodePort)
  }

  ghost predicate SaysAll(lines: Lines, pairs: seq<(string, string)>) {
    forall n :: 0 <= n < |pairs| ==> Maps(lines, pairs[n].0, pairs[n].1)
  }

  lemma BrokerName()
    ensures Naming.Role.Broker.Name() == "broker" && Naming.Role.Controller.Name() == "controller"
    ensures Naming.Role.Broker.Name() != "controller" && Naming.Role.Controller.Name() != "broker"
  {
    assert Naming.Role.Controller.Name()[0] == 'c' && "broker"[0] == 'b';
  }

  lemma NodeBucket(t: Target, role: Naming.Role, i: int, vars: Vars)
    requires Startable(t)
    ensures var d := WithDefaults(NodeVars(t, role, i, vars));
            "0@s3://" + Get(d, "s3_bucket") + "?region=" + Get(d, "s3_region") + "&endpoint=" + Get(d, "s3_endpoint")
            + "&authType=static&pathStyle=" + Get(d, "s3_path_style") == IntendedBucket(t)
  {
    hide WithDefaults, NodeVars, Get, IsWord;
    NodeVarsAre(t, role, i, vars);
    DefaultsKeep(NodeVars(t, role, i, vars));
    WordNotEmpty(t.spec.s3.region);
    DefaultRegion(NodeVars(t, role, i, vars));
  }

  lemma LogDirIs(role: Naming.Role)
    ensures "/data/kafka/kraft-" + role.Name() + "-logs" ==
            if role == Naming.Controller then "/data/kafka/kraft-controller-logs" else "/data/kafka/kraft-broker-logs"
  {
    assert "/data/kafka/kraft-" + "controller" + "-logs" == "/data/kafka/kraft-controller-logs";
    assert "/data/kafka/kraft-" + "broker" + "-logs" == "/data/kafka/kraft-broker-logs";
  }

  lemma ListenerIs()
    ensures "CONTROLLER://0.0.0.0:" + PrintInt(9093) == "CONTROLLER://0.0.0.0:9093"
    ensures "PLAINTEXT://0.0.0.0:" + PrintInt(9092) == "PLAINTEXT://0.0.0.0:9092"
  {
    PortTexts();
  }

  predicate SameAs(ws: seq<Write>, pairs: seq<(string, string)>) {
    |ws| == |pairs| && forall n :: 0 <= n < |ws| ==> (ws[n].key, ws[n].value) == pairs[n]
  }

  lemma SameJoined(ws: seq<Write>, pairs: seq<(string, string)>, ws': seq<Write>, pairs': seq<(string, string)>)
    requires SameAs(ws, pairs) && SameAs(ws', pairs')
    ensures SameAs(ws + ws', pairs + pairs')
  {
  }

  lemma OptionsSame(t: Target, role: Naming.Role, i: int, vars: Vars)
    requires Startable(t)
    ensures var d := WithDefaults(NodeVars(t, role, i, vars));
            var bucket := "0@s3://" + Get(d, "s3_bucket") + "?region=" + Get(d, "s3_region") + "&endpoint="
                + Get(d, "s3_endpoint") + "&authType=static&pathStyle=" + Get(d, "s3_path_style");
            SameAs([ SetupKey("node.id", Get(d, "node_id")),
                     SetupKey("controller.quorum.voters", Get(d, "quorum_voters")),
                     SetupKey("s3.data.buckets", bucket), SetupKey("s3.ops.buckets", bucket),
                     SetupKey("log.dirs", "/data/kafka/kraft-" + role.Name() + "-logs"),
                     SetupKey("s3.wal.path", "0@file:///data/kafka/wal?capacity=2147483648") ],
                   OptionsOf(t, role, i))
  {
    LogDirIs(role);
    hide NodeVars, Startable, WithDefaults, Get, IntendedBucket, VoterString, PrintInt, Naming.NodeId, KnownRole,
         HasRequired, PrintBool, Naming.Role.Name;
    NodeVarsAre(t, role, i, vars);
    DefaultsKeep(NodeVars(t, role, i, vars));
    NodeBucket(t, role, i, vars);
  }

  lemma RoleSame(role: Naming.Role, ip: string, port: int)
    ensures SameAs(BalancerWrites(role.Name()) + IpWrites(role.Name(), ip + ":" + PrintInt(port)),
                   RoleOf(role, if role == Naming.Controller then 9093 else 9092, ip, port))
  {
    BrokerName();
    ListenerIs();
    BalancerWritesAre(role.Name());
    ListenersAre(role.Name(), ip + ":" + PrintInt(port));
    hide BalancerWrites, IpWrites, PrintInt, Naming.Role.Name;
  }

  /** The writes of a node's script, in the resource's own terms. */
  lemma NodeWrites(t: Target, role: Naming.Role, i: int, vars: Vars, ip: string, port: int)
    requires Startable(t)
    ensures SameAs(ListedWrites(role.Name(), WithDefaults(NodeVars(t, role, i, vars)), ip + ":" + PrintInt(port)),
                   FileOf(t, role, i, if role == Naming.Controller then 9093 else 9092, ip, port))
  {
    BrokerName();
    hide NodeVars, Startable, ListedWrites, BalancerWrites, IpWrites, WithDefaults, Get, IntendedBucket, VoterString,
         PrintInt, Naming.NodeId, SameAs, OptionsOf, RoleOf, Naming.Role.Name;
    var d, advertised := WithDefaults(NodeVars(t, role, i, vars)), ip + ":" + PrintInt(port);
    ListedWritesAre(role.Name(), d, advertised);
    OptionsSame(t, role, i, vars);
    RoleSame(role, ip, port);
    var bucket := "0@s3://" + Get(d, "s3_bucket") + "?region=" + Get(d, "s3_region") + "&endpoint="
        + Get(d, "s3_endpoint") + "&authType=static&pathStyle=" + Get(d, "s3_path_style");
    var common := [ SetupKey("node.id", Get(d, "node_id")),
                    SetupKey("controller.quorum.voters", Get(d, "quorum_voters")),
                    SetupKey("s3.data.buckets", bucket), SetupKey("s3.ops.buckets", bucket),
                    SetupKey("log.dirs", "/data/kafka/kraft-" + role.Name() + "-logs"),
                    SetupKey("s3.wal.path", "0@file:///data/kafka/wal?capacity=2147483648") ];
    var later := BalancerWrites(role.Name()) + IpWrites(role.Name(), advertised);
    SameJoined(common, OptionsOf(t, role, i), later,
        RoleOf(role, if role == Naming.Controller then 9093 else 9092, ip, port));
    assert common + BalancerWrites(role.Name()) + IpWrites(role.Name(), advertised) == common + later;
  }

  /** The writes of a controller do not depend on an address. */
  lemma ControllersAdvertiseNothing(v: Vars, advertised: string, advertised': string)
    ensures ListedWrites("controller", v, advertised) == ListedWrites("controller", v, advertised')
  {
    hide RoleWrites;
  }

  lemma BucketHasNoHash(t: Target)
    requires Startable(t)
    ensures Written(IntendedBucket(t)) == IntendedBucket(t)
  {
    hide IsWord, ReplaceChar, VoterString, PrintInt, Naming.NodeId;
    OptionValuesArePlain(t, Naming.Broker, 0);
    WordsArePlain(t.spec.s3.bucket);
    WordsArePlain(t.spec.s3.endpoint);
    WordsArePlain(t.spec.s3.region);
    assert '#' !in "0@s3://" && '#' !in "?region=" && '#' !in "&endpoint=" && '#' !in "&authType=static&pathStyle=";
    assert '#' !in "true" && '#' !in "false";
    NothingToReplace(IntendedBucket(t), '#', "/#/");
  }

  lemma LogDirHasNoHash(role: Naming.Role)
    ensures var dir := "/data/kafka/kraft-" + role.Name() + "-logs";
            Written(dir) == dir
  {
    hide ReplaceChar;
    assert '#' !in "/data/kafka/kraft-" && '#' !in "-logs" && '#' !in "controller" && '#' !in "broker";
    NothingToReplace("/data/kafka/kraft-" + role.Name() + "-logs", '#', "/#/");
  }

  lemma WalPathHasNoHash()
    ensures Written("0@file:///data/kafka/wal?capacity=2147483648") == "0@file:///data/kafka/wal?capacity=2147483648"
  {
    PathsAre("broker");
    assert WalPath() == "0@file://" + DATA_PATH + "/wal?capacity=2147483648";
    WalPartsHaveNoHash();
    hide ReplaceChar, WalPath;
    NothingToReplace(WalPath(), '#', "/#/");
  }

  lemma WalPartsHaveNoHash()
    ensures '#' !in "0@file://" + DATA_PATH + "/wal?capacity=2147483648"
  {
    assert '#' !in "0@file://" && '#' !in DATA_PATH && '#' !in "/wal?capacity=2147483648";
  }

  lemma ListenersHaveNoHash(port: int)
    ensures Written("CONTROLLER://0.0.0.0:" + PrintInt(port)) == "CONTROLLER://0.0.0.0:" + PrintInt(port)
    ensures Written("PLAINTEXT://0.0.0.0:" + PrintInt(port)) == "PLAINTEXT://0.0.0.0:" + PrintInt(port)
  {
    hide ReplaceChar, PrintInt;
    PrintedIntIsWord(port);
    WordsArePlain(PrintInt(port));
    hide IsWord;
    assert '#' !in "CONTROLLER://0.0.0.0:" && '#' !in "PLAINTEXT://0.0.0.0:";
    NothingToReplace("CONTROLLER://0.0.0.0:" + PrintInt(port), '#', "/#/");
    NothingToReplace("PLAINTEXT://0.0.0.0:" + PrintInt(port), '#', "/#/");
  }

  lemma AddressHasNoHash(ip: string, port: int)
    requires IsWord(ip)
    ensures Written(AddressOf(ip, port)) == AddressOf(ip, port)
  {
    hide ReplaceChar, PrintInt;
    PrintedIntIsWord(port);
    WordsArePlain(ip);
    WordsArePlain(PrintInt(port));
    hide IsWord;
    assert '#' !in "PLAINTEXT://" && '#' !in ":";
    NothingToReplace(AddressOf(ip, port), '#', "/#/");
  }

  lemma BalancerHasNoHash()
    ensures Written("1") == "1" && Written("true") == "true" && Written("__consumer_offsets") == "__consumer_offsets"
    ensures Written("AutoBalancerMetricsReporterTopic") == "AutoBalancerMetricsReporterTopic"
    ensures Written("kafka.autobalancer.metricsreporter.AutoBalancerMetricsReporter") ==
            "kafka.autobalancer.metricsreporter.AutoBalancerMetricsReporter"
  {
    BalancerValues();
    ReporterValue();
    ReporterIs();
    hide ReplaceChar, SedPlain;
    NothingToReplace("1", '#', "/#/");
    NothingToReplace("true", '#', "/#/");
    NothingToReplace("__consumer_offsets", '#', "/#/");
    NothingToReplace("AutoBalancerMetricsReporterTopic", '#', "/#/");
    NothingToReplace("kafka.autobalancer.metricsreporter.AutoBalancerMetricsReporter", '#', "/#/");
  }

  lemma PathValuesHaveNoHash(role: Naming.Role)
    ensures var dir := if role == Naming.Controller then "/data/kafka/kraft-controller-logs"
                       else "/data/kafka/kraft-broker-logs";
            Written(dir) == dir
  {
    LogDirHasNoHash(role);
    LogDirIs(role);
    hide Written, Naming.Role.Name;
  }

  lemma OptionsHaveNoHash(t: Target, role: Naming.Role, i: int, n: nat)
    requires Startable(t) && n < 6
    ensures Written(OptionsOf(t, role, i)[n].1) == OptionsOf(t, role, i)[n].1
  {
    hide Written, IntendedBucket, VoterString, PrintInt, Naming.NodeId, IsWord, IsDnsLabel;
    var id := PrintInt(Naming.NodeId(role, i, t.spec.controller.replicas));
    if n == 0 {
      PrintedIntIsWord(Naming.NodeId(role, i, t.spec.controller.replicas));
      WordsArePlain(id);
      assert OptionsOf(t, role, i)[0].1 == id;
    } else if n == 1 {
      VoterStringIsValue(t);
      WordsArePlain(VoterString(t));
      assert OptionsOf(t, role, i)[1].1 == VoterString(t);
    } else if n < 4 {
      BucketHasNoHash(t);
      assert OptionsOf(t, role, i)[n].1 == IntendedBucket(t);
    } else if n == 4 {
      PathValuesHaveNoHash(role);
    } else {
      WalPathHasNoHash();
    }
  }

  lemma RoleHasNoHash(role: Naming.Role, containerPort: int, ip: string, nodePort: int, n: nat)
    requires n < 5 && (role == Naming.Broker ==> IsWord(ip))
    ensures var pairs := RoleOf(role, containerPort, ip, nodePort);
            |pairs| == 5 && Written(pairs[n].1) == pairs[n].1
  {
    hide Written, PrintInt, IsWord, AddressOf;
    BalancerHasNoHash();
    ListenersHaveNoHash(containerPort);
    if role == Naming.Broker {
      AddressHasNoHash(ip, nodePort);
    }
  }

  /** None of it is spoilt on the way into the file. */
  lemma FileHasNoHash(t: Target, role: Naming.Role, i: int, containerPort: int, ip: string, nodePort: int, n: nat)
    requires Startable(t) && n < 11 && (role == Naming.Broker ==> IsWord(ip))
    ensures var pairs := FileOf(t, role, i, containerPort, ip, nodePort);
            |pairs| == 11 && Written(pairs[n].1) == pairs[n].1
  {
    hide Written, OptionsOf, RoleOf, Startable, IsWord;
    if n < 6 {
      OptionsHaveNoHash(t, role, i, n);
    } else {
      RoleHasNoHash(role, containerPort, ip, nodePort, n - 6);
    }
  }

  /** The file a node's script leaves, when it gets past its options: whatever the order in which the shell lists the
      configuration variables, every listed key has the value meant for it. */
  lemma NodeFile(t: Target, role: Naming.Role, i: int, port: int, sur: Surroundings, files: Files, h: Host, k: nat,
      n: nat)
    requires Startable(t) && AllStandBy(t.Of(role).envs, sur) && IsServed(h, role) && IsComplete(files, role.Name(), k)
    requires IsListing(h.cfg, ShellVars(TemplateEnv(t, role, port), sur))
    requires Naming.NodeId(role, i, t.spec.controller.replicas) >= 0
    requires var v := NodeVars(t, role, i, ShellVars(TemplateEnv(t, role, port), sur));
             Advertised(v, h).Some? && n < |ListedWrites(role.Name(), WithDefaults(v), Advertised(v, h).value)|
    ensures var vars, args := ShellVars(TemplateEnv(t, role, port), sur), OptionTokens(t, role, i);
            && PlainHost(h) && PlainOptions(args, vars)
            && var v, (files', up) := NodeVars(t, role, i, vars), UpWith(files, vars, args, h);
               var w := ListedWrites(role.Name(), WithDefaults(v), Advertised(v, h).value)[n];
               && up == Launched(role.Name()) && Properties(role.Name()) in files'
               && Maps(files'[Properties(role.Name())], w.key, Written(w.value))
  {
    hide OptionTokens, NodeVars, UpWith, Startable, AllStandBy, IsServed, IsComplete, IsListing, ShellVars, TemplateEnv,
         FreshShell, SedPlain, ParseOptions, Written, Maps, Words, EnvWrites, LastFor, ListedWrites, WithDefaults, Get,
         PrintInt, Naming.NodeId, Advertised, PodTemplate, Prepared, Unmistakable, OnlyLine, IsConfiguration, PlainVars,
         KnownRole, HasRequired, Contains, StandsBy, Listed;
    var vars, args := ShellVars(TemplateEnv(t, role, port), sur), OptionTokens(t, role, i);
    var v := NodeVars(t, role, i, vars);
    CompleteFilesSuffice(t, role, i, port, sur, files, h, k);
    NodeVarsAre(t, role, i, vars);
    ShellIsFresh(t, role, port, sur);
    CommandRoundTrip(t, role, i, port, vars);
    ScriptConfiguresNode(files, vars, args, h, v, k, n);
    ContainerSettings(t, role, port, sur, h.cfg);
    BystandersOverrideNothing(h.cfg, role.Name(), WithDefaults(v), Advertised(v, h).value);
  }

  /** What is asked of the world around a node: a resource whose values are plain, variables of the user and of the
      image that leave the script's own alone, the image's files, and an address service that answers a broker. */
  ghost predicate IsReady(t: Target, role: Naming.Role, i: int, sur: Surroundings, files: Files, h: Host, k: nat) {
    Startable(t) && 0 <= i < t.Replicas(role) && AllStandBy(t.Of(role).envs, sur) && IsServed(h, role)
    && IsComplete(files, role.Name(), k)
  }

  /** The container's own settings arrive: each one the file has a line for, or no line that begins like it, and
      that no variable of the user or of the image could be mistaken for, has the operator's value in the end. */
  ghost predicate SettingsArrive(t: Target, role: Naming.Role, sur: Surroundings, lines: Lines, lines': Lines) {
    forall s :: HasSetting(t, role, s) && Unclaimed(t.Of(role).envs, sur, OwnKey(s))
                && (Has(lines, OwnKey(s)) || Fresh(lines, OwnKey(s))) ==>
      Maps(lines', OwnKey(s), OwnValue(s))
  }

  /** The outcome of a node's script: with a node id that is not negative it launches the node's role and leaves the
      file the resource stands for; with a negative one it dies over its options. */
  ghost predicate StartsRight(t: Target, role: Naming.Role, i: int, containerPort: int, nodePort: int,
      sur: Surroundings, files: Files, h: Host, files': Files, up: Up)
  {
    var file, ip := Properties(role.Name()), if h.nodeIP.Some? then h.nodeIP.value else "";
    if Naming.NodeId(role, i, t.spec.controller.replicas) < 0 then up == Stopped && files' == files
    else
      && up == Launched(role.Name()) && file in files && file in files'
      && (role == Naming.Broker ==> h.nodeIP.Some?)
      && SaysAll(files'[file], FileOf(t, role, i, containerPort, ip, nodePort))
      && SettingsArrive(t, role, sur, files[file], files'[file])
  }

  lemma OwnSettingArrives(t: Target, role: Naming.Role, i: int, port: int, sur: Surroundings, files: Files, h: Host,
      k: nat, s: nat)
    requires Startable(t) && AllStandBy(t.Of(role).envs, sur) && IsServed(h, role) && IsComplete(files, role.Name(), k)
    requires IsListing(h.cfg, ShellVars(TemplateEnv(t, role, port), sur))
    requires Naming.NodeId(role, i, t.spec.controller.replicas) >= 0
    requires HasSetting(t, role, s) && Unclaimed(t.Of(role).envs, sur, OwnKey(s))
    requires var lines := files[Properties(role.Name())];
             Has(lines, OwnKey(s)) || Fresh(lines, OwnKey(s))
    ensures var vars, args := ShellVars(TemplateEnv(t, role, port), sur), OptionTokens(t, role, i);
            && PlainHost(h) && PlainOptions(args, vars)
            && var (files', up) := UpWith(files, vars, args, h);
               Properties(role.Name()) in files'
               && Maps(files'[Properties(role.Name())], OwnKey(s), OwnValue(s))
  {
    hide OptionTokens, NodeVars, UpWith, Startable, AllStandBy, IsServed, IsComplete, IsListing, ShellVars, TemplateEnv,
         FreshShell, SedPlain, ParseOptions, Written, Maps, Words, EnvWrites, ListedWrites, WithDefaults, Get,
         PrintInt, Naming.NodeId, Advertised, PodTemplate, Prepared, Unmistakable, OnlyLine, IsConfiguration, PlainVars,
         KnownRole, HasRequired, Contains, Unclaimed, OwnKey, OwnValue, EnvKeys.KeyOf, Has, Fresh, Apart, HasSetting,
         VoterString, SparedByAll, RoomInAll;
    var vars, args := ShellVars(TemplateEnv(t, role, port), sur), OptionTokens(t, role, i);
    var v := NodeVars(t, role, i, vars);
    CompleteFilesSuffice(t, role, i, port, sur, files, h, k);
    NodeVarsAre(t, role, i, vars);
    ShellIsFresh(t, role, port, sur);
    CommandRoundTrip(t, role, i, port, vars);
    SettingIsSetting(t, role, s);
    var n := OwnSettingListed(t, role, port, sur, h.cfg, s);
    ApartNotSame(OwnKey(s));
    EnvironmentConfiguresNode(files, vars, args, h, v, k, n);
    OwnSettingHasRoom(role.Name(), WithDefaults(v), Advertised(v, h).value, h.cfg, n, s);
    OwnValuesHaveNoHash(s);
  }

  lemma SettingIsSetting(t: Target, role: Naming.Role, s: nat)
    requires HasSetting(t, role, s)
    ensures IsSetting(s)
  {
  }

  /** Neither the script's own writes nor the other settings stand in a setting's way. */
  lemma OwnSettingHasRoom(role: string, v: Vars, advertised: string, cfg: seq<(string, string)>, n: nat, s: nat)
    requires KnownRole(role) && IsSetting(s) && n < |cfg| && EnvKeys.KeyOf(cfg[n].0) == OwnKey(s)
    requires forall m :: 0 <= m < |cfg| && m != n ==> Apart(EnvKeys.KeyOf(cfg[m].0), OwnKey(s))
    ensures var ws := ListedWrites(role, v, advertised);
            SparedByAll(ws + EnvWrites(cfg), OwnKey(s)) && RoomInAll(ws, cfg, OwnKey(s), n)
  {
    hide ListedWrites, Listed, Positions, OwnKey, EnvKeys.KeyOf, Apart, Spares, LeavesRoomFor;
    WritesAtPositions(role, v, advertised);
    var ws := ListedWrites(role, v, advertised);
    forall k | 0 <= k < |ws| ensures LeavesRoomFor(ws[k], OwnKey(s)) && Spares(ws[k].key, OwnKey(s)) {
      PositionInList(role, k);
      ListedApartFromOwn(Positions(role)[k], s);
      ApartLeavesRoom(ws[k], OwnKey(s));
    }
    forall m | 0 <= m < |cfg| && m != n
      ensures var w := AddKey(EnvKeys.KeyOf(cfg[m].0), cfg[m].1);
              LeavesRoomFor(w, OwnKey(s)) && Spares(w.key, OwnKey(s))
    {
      ApartLeavesRoom(AddKey(EnvKeys.KeyOf(cfg[m].0), cfg[m].1), OwnKey(s));
    }
  }

  lemma NodeStarts(t: Target, role: Naming.Role, i: int, port: int, sur: Surroundings, files: Files, h: Host, k: nat)
    requires IsReady(t, role, i, sur, files, h, k)
    requires IsListing(h.cfg, ShellVars(TemplateEnv(t, role, port), sur))
    ensures var vars, args := ShellVars(TemplateEnv(t, role, port), sur), OptionTokens(t, role, i);
            && PlainHost(h) && PlainOptions(args, vars)
            && var (files', up) := UpWith(files, vars, args, h);
               StartsRight(t, role, i, if role == Naming.Controller then 9093 else 9092, port, sur, files, h, files',
                           up)
  {
    hide OptionTokens, NodeVars, UpWith, Startable, AllStandBy, IsComplete, IsListing, ShellVars, TemplateEnv,
         FreshShell, SedPlain, ParseOptions, Maps, Words, ListedWrites, WithDefaults, Get, PrintInt, Naming.NodeId,
         Advertised, PodTemplate, IsConfiguration, PlainVars, KnownRole, Contains, IsWord, StandsBy, Configure, SaysAll,
         SettingsArrive, FileOf, Written;
    assert HasFiles(files) by { CompleteHasFiles(files, role.Name(), k); }
    CompleteFile(files, role.Name(), k);
    if Naming.NodeId(role, i, t.spec.controller.replicas) < 0 {
      NodeDies(t, role, i, port, sur, files, h);
    } else {
      NodeSaysAll(t, role, i, port, sur, files, h, k);
      NodeSettingsArrive(t, role, i, port, sur, files, h, k);
    }
  }

  lemma CompleteFile(files: Files, role: string, k: nat)
    requires IsComplete(files, role, k)
    ensures Properties(role) in files
  {
  }

  lemma NodeSaysAll(t: Target, role: Naming.Role, i: int, port: int, sur: Surroundings, files: Files, h: Host, k: nat)
    requires IsReady(t, role, i, sur, files, h, k) && Naming.NodeId(role, i, t.spec.controller.replicas) >= 0
    requires IsListing(h.cfg, ShellVars(TemplateEnv(t, role, port), sur))
    ensures var vars, args := ShellVars(TemplateEnv(t, role, port), sur), OptionTokens(t, role, i);
            && PlainHost(h) && PlainOptions(args, vars)
            && var (files', up) := UpWith(files, vars, args, h);
               && up == Launched(role.Name()) && Properties(role.Name()) in files'
               && (role == Naming.Broker ==> h.nodeIP.Some?)
               && SaysAll(files'[Properties(role.Name())],
                          FileOf(t, role, i, if role == Naming.Controller then 9093 else 9092,
                                 if h.nodeIP.Some? then h.nodeIP.value else "", port))
  {
    hide OptionTokens, NodeVars, UpWith, Startable, AllStandBy, IsComplete, IsListing, ShellVars, TemplateEnv,
         FreshShell, SedPlain, ParseOptions, Maps, Words, ListedWrites, WithDefaults, Get, PrintInt, Naming.NodeId,
         Advertised, PodTemplate, IsConfiguration, PlainVars, KnownRole, Contains, IsWord, StandsBy, Configure, FileOf,
         Written;
    var vars, args := ShellVars(TemplateEnv(t, role, port), sur), OptionTokens(t, role, i);
    CompleteHasFiles(files, role.Name(), k);
    var v, ip := NodeVars(t, role, i, vars), if h.nodeIP.Some? then h.nodeIP.value else "";
    var pairs := FileOf(t, role, i, if role == Naming.Controller then 9093 else 9092, ip, port);
    NodeAdvertises(t, role, i, port, sur, h);
    NodeWrites(t, role, i, vars, ip, port);
    BrokerName();
    var ws := ListedWrites(role.Name(), WithDefaults(v), Advertised(v, h).value);
    if role == Naming.Controller {
      ControllersAdvertiseNothing(WithDefaults(v), Advertised(v, h).value, ip + ":" + PrintInt(port));
    }
    FileHasNoHash(t, role, i, if role == Naming.Controller then 9093 else 9092, ip, port, 0);
    NodeFile(t, role, i, port, sur, files, h, k, 0);
    var file' := UpWith(files, vars, args, h).0[Properties(role.Name())];
    forall n | 0 <= n < |pairs| ensures Maps(file', pairs[n].0, pairs[n].1) {
      FileHasNoHash(t, role, i, if role == Naming.Controller then 9093 else 9092, ip, port, n);
      NodeFile(t, role, i, port, sur, files, h, k, n);
      assert (ws[n].key, ws[n].value) == pairs[n];
    }
  }

  lemma NodeSettingsArrive(t: Target, role: Naming.Role, i: int, port: int, sur: Surroundings, files: Files, h: Host,
      k: nat)
    requires IsReady(t, role, i, sur, files, h, k) && Naming.NodeId(role, i, t.spec.controller.replicas) >= 0
    requires IsListing(h.cfg, ShellVars(TemplateEnv(t, role, port), sur))
    ensures var vars, args := ShellVars(TemplateEnv(t, role, port), sur), OptionTokens(t, role, i);
            && PlainHost(h) && PlainOptions(args, vars)
            && var (files', up) := UpWith(files, vars, args, h);
               && Properties(role.Name()) in files && Properties(role.Name()) in files'
               && SettingsArrive(t, role, sur, files[Properties(role.Name())], files'[Properties(role.Name())])
  {
    hide OptionTokens, UpWith, Startable, AllStandBy, IsComplete, IsListing, ShellVars, TemplateEnv, Maps,
         Naming.NodeId, IsServed, IsConfiguration, PlainVars, PlainOptions, PlainHost, Unclaimed, OwnKey, OwnValue,
         Has, Fresh;
    var vars, args := ShellVars(TemplateEnv(t, role, port), sur), OptionTokens(t, role, i);
    CompleteFile(files, role.Name(), k);
    CompleteHasFiles(files, role.Name(), k);
    NodeSaysAll(t, role, i, port, sur, files, h, k);
    var lines, file' := files[Properties(role.Name())], UpWith(files, vars, args, h).0[Properties(role.Name())];
    forall s | HasSetting(t, role, s) && Unclaimed(t.Of(role).envs, sur, OwnKey(s))
        && (Has(lines, OwnKey(s)) || Fresh(lines, OwnKey(s)))
      ensures Maps(file', OwnKey(s), OwnValue(s))
    {
      OwnSettingArrives(t, role, i, port, sur, files, h, k, s);
    }
  }

  lemma CompleteHasFiles(files: Files, role: string, k: nat)
    requires IsComplete(files, role, k)
    ensures HasFiles(files)
  {
  }

  lemma NodeDies(t: Target, role: Naming.Role, i: int, port: int, sur: Surroundings, files: Files, h: Host)
    requires Startable(t) && AllStandBy(t.Of(role).envs, sur) && IsServed(h, role) && HasFiles(files)
    requires IsListing(h.cfg, ShellVars(TemplateEnv(t, role, port), sur))
    requires Naming.NodeId(role, i, t.spec.controller.replicas) < 0
    ensures var vars, args := ShellVars(TemplateEnv(t, role, port), sur), OptionTokens(t, role, i);
            PlainHost(h) && PlainOptions(args, vars) && UpWith(files, vars, args, h) == (files, Stopped)
  {
    hide OptionTokens, NodeVars, Startable, AllStandBy, IsListing, ShellVars, TemplateEnv, FreshShell, SedPlain,
         ParseOptions, Written, Words, Naming.NodeId, PodTemplate, IsConfiguration, PlainVars, Contains, IsWord,
         StandsBy, Configure;
    var vars := ShellVars(TemplateEnv(t, role, port), sur);
    ShellIsFresh(t, role, port, sur);
    CommandRoundTrip(t, role, i, port, vars);
    ContainerSettings(t, role, port, sur, h.cfg);
    if h.nodeIP.Some? {
      WordsArePlain(h.nodeIP.value);
    }
  }

  lemma ContainerPortIs(t: Target, role: Naming.Role, i: int, port: int)
    ensures PodTemplate(t, role, i, port).containerPort == if role == Naming.Controller then 9093 else 9092
  {
    hide Blueprint.CommandOf, TemplateEnv, TemplateAnnotations, Naming.NodeLabels, CommandTokens;
  }

  /** A controller listens where its own entry among the voters points: after a clean pass the port its container
      opens, on which its file has it listen, is the one in that entry, next to its own id. */
  lemma ControllersListenWhereVotersPoint(s: Objects, st: AutoMQStatus, t: Target, e: Env, i: int)
    requires e.Clean() && e.AllocatesPorts() && PortsValid(s) && IsDnsLabel(t.ns) && 0 <= i < t.spec.controller.replicas
    ensures var dep := Lookup(Pass(s, st, t, e).0,
                Naming.NodeKey(Naming.DeploymentKind, t.ns, Naming.Controller, i));
            var parts := SplitAt(VoterString(t), ',');
            && dep.Some? && dep.value.Deployment? && i < |parts|
            && ParseVoter(parts[i]) ==
               Some((Naming.NodeId(Naming.Controller, i, t.spec.controller.replicas), VoterHost(t.ns, i),
                     dep.value.template.containerPort))
  {
    hide Pass, ParseVoter, SplitAt, VoterHost, Naming.NodeKey, CommandTokens, TemplateEnv, TemplateAnnotations,
         Naming.NodeLabels, Naming.RoleLabels, Voters, Join;
    VotersRoundTrip(t.ns, t.spec.controller.replicas, i);
    CleanNodeMeets(s, st, t, e, Naming.Controller, i);
  }

  /** Both halves together. After a clean pass, take the Deployment of any node, the command and the environment
      exactly as its pod template has them, with the configuration variables in whatever order the shell lists them.
      The shell splits the command, and the script parses the options, launches the node's role, and leaves in that
      role's file what `FileOf` says, with the port the container opens and, for a broker, the node port that the
      broker's own Service has in the cluster, as well as the operator's own settings; unless the node id is negative,
      and then it dies. A controller listens where its own entry among the voters points. */
  lemma NodeComesUp(s: Objects, st: AutoMQStatus, t: Target, e: Env, role: Naming.Role, i: int, sur: Surroundings,
      files: Files, h: Host, k: nat)
    requires e.Clean() && e.AllocatesPorts() && PortsValid(s) && IsReady(t, role, i, sur, files, h, k)
    ensures var s' := Pass(s, st, t, e).0;
            var svc := Lookup(s', Naming.NodeKey(Naming.ServiceKind, t.ns, role, i));
            var dep := Lookup(s', Naming.NodeKey(Naming.DeploymentKind, t.ns, role, i));
            && dep.Some? && dep.value.Deployment? && svc.Some? && svc.value.Service? && |svc.value.ports| == 1
            && var vars, words := ShellVars(dep.value.template.env, sur), Words(dep.value.template.command, "");
               |words| >= 2 && words[..2] == ["/opt/kafka/scripts/mq-start.sh", "up"]
               && (IsListing(h.cfg, vars) ==>
                     && PlainHost(h) && PlainOptions(words[2..], vars)
                     && var (files', up) := UpWith(files, vars, words[2..], h);
                        StartsRight(t, role, i, dep.value.template.containerPort, svc.value.ports[0].nodePort, sur,
                                    files, h, files', up))
  {
    hide StartsRight, Pass, Words, OptionTokens, UpWith, Startable, AllStandBy, IsServed, IsComplete, IsListing,
         ShellVars, FreshShell, ParseOptions, TemplateEnv, TemplateAnnotations, Naming.NodeLabels, Naming.NodeKey,
         Naming.RoleLabels, CommandTokens, IsConfiguration, PlainVars, NodeVars, SedPlain;
    CleanNodeMeets(s, st, t, e, role, i);
    var s' := Pass(s, st, t, e).0;
    var port := Lookup(s', Naming.NodeKey(Naming.ServiceKind, t.ns, role, i)).value.ports[0].nodePort;
    ContainerPortIs(t, role, i, port);
    CommandSplits(t, role, i);
    var args := OptionTokens(t, role, i);
    var words := Words(Lookup(s', Naming.NodeKey(Naming.DeploymentKind, t.ns, role, i)).value.template.command, "");
    assert words == [START_SCRIPT, "up"] + args;
    assert words[2..] == args;
    if IsListing(h.cfg, ShellVars(TemplateEnv(t, role, port), sur)) {
      NodeStarts(t, role, i, port, sur, files, h, k);
    }
  }

  /******* The theorem has instances *******/

  /** Files with one empty assignment of every key. */
  const BLANK_FILES: Files := map[Properties("broker") := BlankLines(13), Properties("controller") := BlankLines(13),
                                  Properties("server") := BlankLines(13), RunInfo := ["role="]]

  function BlankLines(n: nat): (lines: Lines)
    requires n <= 13
    ensures |lines| == n && forall k :: 0 <= k < n ==> lines[k] == Listed()[k] + "="
  {
    if n == 0 then [] else BlankLines(n - 1) + [Listed()[n - 1] + "="]
  }

  lemma BlankFilesAreComplete(role: Naming.Role)
    ensures IsComplete(BLANK_FILES, role.Name(), 0)
  {
    hide Listed, Fresh, BlankLines;
    BrokerName();
    assert Naming.Role.Controller.Name() == "controller";
    RoleLineAlone();
    hide OnlyLine;
    var lines := BlankLines(13);
    forall n | 0 <= n < 13 ensures Has(lines, Listed()[n]) {
      assert lines[n] in lines && Assigns(lines[n], Listed()[n]);
    }
  }

  /** They leave room for the operator's settings, which nobody else claims there. */
  lemma BlankFilesLeaveRoom(role: Naming.Role, s: nat, sur: Surroundings)
    requires IsSetting(s) && sur.image == map[]
    ensures Properties(role.Name()) in BLANK_FILES && Fresh(BLANK_FILES[Properties(role.Name())], OwnKey(s))
    ensures Unclaimed([], sur, OwnKey(s))
  {
    BrokerName();
    BlankLinesLeaveRoom(s);
    hide OwnKey, BlankLines, Fresh;
  }

  lemma BlankLinesLeaveRoom(s: nat)
    requires IsSetting(s)
    ensures Fresh(BlankLines(13), OwnKey(s))
  {
    hide Listed, OwnKey, Apart, Matches, BlankLines;
    var lines := BlankLines(13);
    forall n | 0 <= n < |lines| ensures !Matches(OwnKey(s), lines[n]) {
      ListedApartFromOwn(n, s);
      ApartNeverBegins(Listed()[n], "", OwnKey(s));
      assert lines[n] == Assign(Listed()[n], "");
    }
  }

  lemma RoleLineAlone()
    ensures OnlyLine(["role="], 0)
  {
    assert "role=" == "role" + "=" && Assigns("role=", "role");
  }

  /** For every resource with plain values whose users add no variables of their own, every node, on an image without
      variables and with blank files, is ready, and its shell lists its configuration variables in some order. */
  lemma NodesCanBeReady(t: Target, role: Naming.Role, i: int, port: int)
      returns (sur: Surroundings, files: Files, h: Host, k: nat)
    requires Startable(t) && 0 <= i < t.Replicas(role) && t.Of(role).envs == []
    ensures IsReady(t, role, i, sur, files, h, k) && IsListing(h.cfg, ShellVars(TemplateEnv(t, role, port), sur))
    ensures sur.image == map[] && files == BLANK_FILES
  {
    hide Startable, IsComplete, ShellVars, TemplateEnv, Written, Contains;
    sur, files, k := Surroundings(map[], path => path), BLANK_FILES, 0;
    var vars := ShellVars(TemplateEnv(t, role, port), sur);
    var names := set name | name in vars && EnvKeys.PREFIX <= name;
    var cfg := ListingExists(vars, names);
    h := Host("/opt", false, Some("10.0.0.1"), cfg);
    BlankFilesAreComplete(role);
    AddressIsServed(cfg, role);
    forall name | name in vars && EnvKeys.PREFIX <= name ensures exists n :: 0 <= n < |cfg| && cfg[n].0 == name {
      assert name in names;
    }
  }

  lemma AddressIsServed(cfg: seq<(string, string)>, role: Naming.Role)
    ensures IsServed(Host("/opt", false, Some("10.0.0.1"), cfg), role)
  {
    assert IsWord("10.0.0.1") && IsWord("/opt");
    WordsArePlain("/opt");
    hide IsWord, SedPlain, Written, Contains;
    assert 'r' !in "/opt";
    NoInitialNoPart("/opt", "");
    assert "/opt" + "" == "/opt";
    NothingContains("role");
  }

  lemma NothingContains(part: string)
    requires part != ""
    ensures !Contains("", part)
  {
  }

  const EXAMPLE_ROLE := RoleSpec(1, Some(["-Xmx1g"]), [], Resources(None, None), None, "")
  const EXAMPLE := Target("kafka", "automq", 1,
      AutoMQSpec(S3Spec("http://minio:9000", "us-east-1", "", "", "ko3", true), "cluster", "automq", 0, false,
          EXAMPLE_ROLE, EXAMPLE_ROLE),
      false, "10.0.0.2", "")

  lemma ExampleIsStartable()
    ensures Startable(EXAMPLE)
  {
    assert IsWord("http://minio:9000") && IsWord("us-east-1") && IsWord("ko3") && IsWord("cluster");
    hide IsWord;
    assert IsDnsLabel("kafka");
  }

  /** Everything `NodeComesUp` asks for can be had at once: the example resource, an empty cluster, a clean pass. */
  lemma NodeComesUpHasInstances(role: Naming.Role)
      returns (s: Objects, e: Env, sur: Surroundings, files: Files, h: Host, k: nat)
    ensures e.Clean() && e.AllocatesPorts() && PortsValid(s) && IsReady(EXAMPLE, role, 0, sur, files, h, k)
    ensures var dep := Lookup(Pass(s, EMPTY_STATUS, EXAMPLE, e).0,
                Naming.NodeKey(Naming.DeploymentKind, EXAMPLE.ns, role, 0));
            dep.Some? && dep.value.Deployment? && IsListing(h.cfg, ShellVars(dep.value.template.env, sur))
  {
    hide Startable, IsReady, IsListing, ShellVars, Pass, TemplateEnv, TemplateAnnotations, Naming.NodeKey,
         Naming.NodeLabels, Naming.RoleLabels, CommandTokens;
    s, e := map[], Env(false, None, false, map[], key => 30000);
    ExampleIsStartable();
    assert EXAMPLE.Replicas(role) == 1;
    CleanNodeMeets(s, EMPTY_STATUS, EXAMPLE, e, role, 0);
    var svc := Lookup(Pass(s, EMPTY_STATUS, EXAMPLE, e).0, Naming.NodeKey(Naming.ServiceKind, EXAMPLE.ns, role, 0));
    sur, files, h, k := NodesCanBeReady(EXAMPLE, role, 0, svc.value.ports[0].nodePort);
  }
}
