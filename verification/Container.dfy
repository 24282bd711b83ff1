/** The environment of a container: what a pod template, the image and the cluster together put into the shell that
    runs the start script. */
module Container {
  import opened Basics
  import opened AutoMQApi
  import Naming
  import opened Templates
  import opened ConfigFile
  import opened EnvKeys
  import opened StartScript
  import opened OperatorSettings
  import opened CommandLine

  /** The variables the image comes with, and what the cluster fills in for field references. */
  datatype Surroundings = Surroundings(image: Vars, field: string -> string)

  function ValueOf(v: EnvVar, sur: Surroundings): string {
    match v
    case Literal(_, value) => value
    case FieldRef(_, path) => sur.field(path)
  }

  /** The shell's variables: the template's in order, over the image's. */
  function ShellVars(env: seq<EnvVar>, sur: Surroundings): Vars {
    if env == [] then sur.image
    else
      var last := env[|env| - 1];
      ShellVars(env[..|env| - 1], sur)[last.name := ValueOf(last, sur)]
  }

  /** The KAFKA_CFG_ variables of a shell, each once, in whatever order. */
  ghost predicate IsListing(cfg: seq<(string, string)>, vars: Vars) {
    && (forall k :: 0 <= k < |cfg| ==> PREFIX <= cfg[k].0 && cfg[k].0 in vars && vars[cfg[k].0] == cfg[k].1)
    && (forall j, k :: 0 <= j < k < |cfg| ==> cfg[j].0 != cfg[k].0)
    && forall name :: name in vars && PREFIX <= name ==> exists k :: 0 <= k < |cfg| && cfg[k].0 == name
  }

  lemma {:induction false} ListingExists(vars: Vars, names: set<string>) returns (cfg: seq<(string, string)>)
    requires forall name :: name in names ==> name in vars && PREFIX <= name
    ensures forall k :: 0 <= k < |cfg| ==> cfg[k].0 in names && vars[cfg[k].0] == cfg[k].1
    ensures forall j, k :: 0 <= j < k < |cfg| ==> cfg[j].0 != cfg[k].0
    ensures forall name :: name in names ==> exists k :: 0 <= k < |cfg| && cfg[k].0 == name
    decreases |names|
  {
    cfg := [];
    if names != {} {
      var name :| name in names;
      var rest := ListingExists(vars, names - {name});
      cfg := rest + [(name, vars[name])];
      assert cfg[|rest|].0 == name;
      forall other | other in names ensures exists k :: 0 <= k < |cfg| && cfg[k].0 == other {
        if other != name {
          assert other in names - {name};
          var k :| 0 <= k < |rest| && rest[k].0 == other;
          assert cfg[k].0 == other;
        }
      }
    }
  }

  predicate Unnamed(env: seq<EnvVar>, name: string) {
    forall k :: 0 <= k < |env| ==> env[k].name != name
  }

  /** Entry `k` is the last of its name. */
  predicate IsLast(env: seq<EnvVar>, name: string, k: int) {
    0 <= k < |env| && env[k].name == name && forall j :: k < j < |env| ==> env[j].name != name
  }

  /** Where a variable comes from: the last entry of its name, else the image. */
  lemma {:induction false} ShellAt(env: seq<EnvVar>, sur: Surroundings, name: string, k: int)
    ensures Unnamed(env, name) ==>
              (name in ShellVars(env, sur) <==> name in sur.image)
              && Get(ShellVars(env, sur), name) == Get(sur.image, name)
    ensures IsLast(env, name, k) ==>
              name in ShellVars(env, sur) && ShellVars(env, sur)[name] == ValueOf(env[k], sur)
  {
    if env != [] {
      ShellAt(env[..|env| - 1], sur, name, k);
    }
  }

  lemma {:induction false} LastOf(env: seq<EnvVar>, name: string) returns (k: int)
    ensures Unnamed(env, name) || IsLast(env, name, k)
  {
    k := -1;
    if env != [] {
      var n := |env| - 1;
      if env[n].name == name {
        k := n;
      } else {
        k := LastOf(env[..n], name);
      }
    }
  }

  /******* The operator's own variables *******/

  const ACCESS_NAME := "KAFKA_S3_ACCESS_KEY"
  const SECRET_NAME := "KAFKA_S3_SECRET_KEY"
  const HEAP_NAME := "KAFKA_HEAP_OPTS"

  /** The names of the operator's variables, in the order a broker has them; the last is for metrics. */
  function Fixed(): (names: seq<string>)
    ensures |names| == 13
  {
    [ "NAMESPACE_NAME", "POD_NAME", "NODE_NAME", "POD_IP", ACCESS_NAME, SECRET_NAME, HEAP_NAME,
      REPORTER_CFG + "_NETWORK_IN_CAPACITY", REPORTER_CFG + "_NETWORK_OUT_CAPACITY",
      REPORTER_CFG + "_METRICS_REPORTING_INTERVAL_MS", PORT_NAME, APIS_NAME, TELEMETRY_CFG + "_METRICS_EXPORTER_URI" ]
  }

  /** Where in the list a container's `k`-th variable stands. */
  function Slot(role: Naming.Role, k: nat): nat {
    if role == Naming.Broker then k else if k < 2 then k else if k < 6 then k + 1 else 12
  }

  lemma SlotsIncrease(t: Target, role: Naming.Role, port: int, j: nat, k: nat)
    requires j < k < |FixedEnv(t, role, port)|
    ensures Slot(role, j) < Slot(role, k) < 13
  {
    hide PrintInt, JvmOptions;
  }

  lemma FixedNames(t: Target, role: Naming.Role, port: int, k: nat)
    requires k < |FixedEnv(t, role, port)|
    ensures Slot(role, k) < 13 && FixedEnv(t, role, port)[k].name == Fixed()[Slot(role, k)]
  {
    hide PrintInt, JvmOptions;
  }

  const MARK0 := "NPNPKKKKKKNOK"
  const MARK4 := "SN_IAAAAAAPAA"
  const MARK6 := "----SSHCCC--C"
  const MARK9 := "----ASP------"

  lemma FixedTags(s: nat)
    requires s < 13
    ensures |Fixed()[s]| > 4 && Fixed()[s][0] == MARK0[s] && Fixed()[s][4] == MARK4[s]
    ensures MARK0[s] == 'K' ==> |Fixed()[s]| > 9 && Fixed()[s][6] == MARK6[s]
    ensures s in {4, 5, 6} ==> Fixed()[s][9] == MARK9[s]
  {
  }

  /** The variables looked up by name have it to themselves. */
  lemma SlotNamesDiffer(s: nat, s': nat)
    requires s < s' < 13 && s in {4, 5, 6, 10, 11}
    ensures Fixed()[s] != Fixed()[s']
  {
    FixedTags(s);
    FixedTags(s');
    hide Fixed;
  }

  lemma NeverAnOption(s: nat, k: nat)
    requires s < 13 && k < 8
    ensures Fixed()[s] != VARIABLES[k] && VARIABLES[k] != APIS_NAME && VARIABLES[k] != PORT_NAME
  {
    FixedTags(s);
    FixedTags(10);
    FixedTags(11);
    VariableTags(k);
    assert Fixed()[10] == PORT_NAME && Fixed()[11] == APIS_NAME;
    hide Fixed, VARIABLES;
  }

  lemma VariableAppend(a: string, b: string)
    requires IsVariable(a) && forall k :: 0 <= k < |b| ==> IsKeyChar(b[k]) && b[k] != '.'
    ensures IsVariable(a + b)
  {
  }

  lemma PrefixIsPlain()
    ensures forall k :: 0 <= k < |PREFIX| ==> IsKeyChar(PREFIX[k]) && PREFIX[k] != '.'
  {
  }

  lemma PrefixedIsVariable(rest: string)
    requires rest != "" && forall k :: 0 <= k < |rest| ==> IsKeyChar(rest[k]) && rest[k] != '.'
    ensures IsVariable(PREFIX + rest)
  {
    PrefixIsPlain();
    hide IsKeyChar;
  }

  lemma ReporterIsVariable()
    ensures IsVariable(REPORTER_CFG)
  {
    assert REPORTER_CFG == PREFIX + "AUTOBALANCER_REPORTER";
    hide IsVariable;
    PrefixedIsVariable("AUTOBALANCER_REPORTER");
  }

  lemma TelemetryIsVariable()
    ensures IsVariable(TELEMETRY_CFG)
  {
    assert TELEMETRY_CFG == PREFIX + "S3_TELEMETRY";
    hide IsVariable;
    PrefixedIsVariable("S3_TELEMETRY");
  }

  lemma FamilySetting(family: string, rest: string)
    requires family == REPORTER_CFG || family == TELEMETRY_CFG
    requires forall k :: 0 <= k < |rest| ==> IsKeyChar(rest[k]) && rest[k] != '.'
    ensures IsOperatorSetting(family + rest) && IsVariable(family + rest)
  {
    ReporterIsVariable();
    TelemetryIsVariable();
    hide IsVariable;
    VariableAppend(family, rest);
  }

  lemma OnlyFamiliesConfigure(s: nat)
    requires s < 13 && PREFIX <= Fixed()[s]
    ensures s in {7, 8, 9, 12}
  {
    FixedTags(s);
    assert PREFIX[0] == 'K' && PREFIX[6] == 'C';
    hide Fixed;
  }

  /** Four of the operator's variables are configuration variables, of its two families. */
  lemma FixedSettings(s: nat)
    requires s < 13
    ensures PREFIX <= Fixed()[s] ==> IsOperatorSetting(Fixed()[s]) && IsVariable(Fixed()[s]) && s in {7, 8, 9, 12}
  {
    hide IsVariable, IsOperatorSetting;
    if PREFIX <= Fixed()[s] {
      OnlyFamiliesConfigure(s);
      FamilySetting(REPORTER_CFG, "_NETWORK_IN_CAPACITY");
      FamilySetting(REPORTER_CFG, "_NETWORK_OUT_CAPACITY");
      FamilySetting(REPORTER_CFG, "_METRICS_REPORTING_INTERVAL_MS");
      FamilySetting(TELEMETRY_CFG, "_METRICS_EXPORTER_URI");
    }
  }

  lemma SettingsArePlain()
    ensures SedPlain("5120") && SedPlain("5000") && SedPlain("prometheus://?host=0.0.0.0&port=9090")
  {
  }

  /** What the operator's variables hold, as far as it matters below. */
  lemma FixedValues(t: Target, role: Naming.Role, port: int, k: nat)
    requires k < |FixedEnv(t, role, port)|
    ensures var v, s := FixedEnv(t, role, port)[k], Slot(role, k);
            && (s >= 4 ==> v.Literal?)
            && (s == 4 ==> v.value == t.spec.s3.accessKeyID) && (s == 5 ==> v.value == t.spec.s3.secretAccessKey)
            && (s == 6 ==> v.value == JvmOptions(t.Of(role))) && (s == 10 ==> v.value == PrintInt(port))
            && (s == 11 ==> v.value == "http://" + t.apisIP + ":" + PrintInt(9090))
            && (s in {7, 8, 9, 12} ==> SedPlain(v.value))
  {
    hide PrintInt, JvmOptions, SedPlain;
    SettingsArePlain();
  }

  /******* The shell a node's script starts in *******/

  /** A variable that is none of the script's own; if it is a KAFKA_CFG_ variable, it is well formed and its setting
      can be mistaken for no key the script sets. */
  predicate IsBystander(name: string, value: string) {
    name !in VARIABLES && name != APIS_NAME && name != PORT_NAME
    && (PREFIX <= name ==> IsVariable(name) && SedPlain(value) && StandsBy(name))
  }

  /** The user's variables and the image's leave the script's own alone. */
  ghost predicate AllStandBy(envs: seq<EnvVar>, sur: Surroundings) {
    && (forall k :: 0 <= k < |envs| ==> IsBystander(envs[k].name, ValueOf(envs[k], sur)))
    && forall name :: name in sur.image ==> IsBystander(name, sur.image[name])
  }

  /** The last of the operator's variables of that name wins over all others. */
  lemma FixedIsLast(t: Target, role: Naming.Role, port: int, k: nat)
    requires k < |FixedEnv(t, role, port)| && Slot(role, k) in {4, 5, 6, 10, 11}
    requires Unnamed(t.Of(role).envs, Fixed()[Slot(role, k)])
    ensures IsLast(TemplateEnv(t, role, port), Fixed()[Slot(role, k)], k)
  {
    hide FixedEnv, Fixed;
    var fixed, env := FixedEnv(t, role, port), TemplateEnv(t, role, port);
    FixedNames(t, role, port, k);
    forall j | k < j < |env| ensures env[j].name != Fixed()[Slot(role, k)] {
      if j < |fixed| {
        FixedNames(t, role, port, j);
        SlotsIncrease(t, role, port, k, j);
        SlotNamesDiffer(Slot(role, k), Slot(role, j));
      } else {
        assert env[j] == t.Of(role).envs[j - |fixed|];
      }
    }
  }

  /** A container of either role sees the resource's credentials and its role's JVM options, unless the user's own
      variables say otherwise. */
  lemma ContainerSeesCredentials(t: Target, role: Naming.Role, port: int, sur: Surroundings)
    requires Unnamed(t.Of(role).envs, ACCESS_NAME) && Unnamed(t.Of(role).envs, SECRET_NAME)
        && Unnamed(t.Of(role).envs, HEAP_NAME)
    ensures var vars := ShellVars(TemplateEnv(t, role, port), sur);
            && Get(vars, ACCESS_NAME) == t.spec.s3.accessKeyID
            && Get(vars, SECRET_NAME) == t.spec.s3.secretAccessKey
            && Get(vars, HEAP_NAME) == JvmOptions(t.Of(role))
  {
    var first := if role == Naming.Broker then 4 else 3;
    assert first + 2 < |FixedEnv(t, role, port)|;
    assert Fixed()[4] == ACCESS_NAME && Fixed()[5] == SECRET_NAME && Fixed()[6] == HEAP_NAME;
    hide FixedEnv, Fixed, JvmOptions, ShellVars;
    FixedSeen(t, role, port, sur, first);
    FixedSeen(t, role, port, sur, first + 1);
    FixedSeen(t, role, port, sur, first + 2);
  }

  lemma FixedSeen(t: Target, role: Naming.Role, port: int, sur: Surroundings, k: nat)
    requires k < |FixedEnv(t, role, port)| && Slot(role, k) in {4, 5, 6, 10, 11}
    requires Unnamed(t.Of(role).envs, Fixed()[Slot(role, k)])
    ensures var vars, s := ShellVars(TemplateEnv(t, role, port), sur), Slot(role, k);
            && (s == 4 ==> Get(vars, Fixed()[s]) == t.spec.s3.accessKeyID)
            && (s == 5 ==> Get(vars, Fixed()[s]) == t.spec.s3.secretAccessKey)
            && (s == 6 ==> Get(vars, Fixed()[s]) == JvmOptions(t.Of(role)))
            && (s == 10 ==> Get(vars, Fixed()[s]) == PrintInt(port))
            && (s == 11 ==> Get(vars, Fixed()[s]) == "http://" + t.apisIP + ":" + PrintInt(9090))
  {
    hide FixedEnv, Fixed, JvmOptions, PrintInt, ShellVars;
    FixedIsLast(t, role, port, k);
    FixedValues(t, role, port, k);
    assert TemplateEnv(t, role, port)[k] == FixedEnv(t, role, port)[k];
    ShellAt(TemplateEnv(t, role, port), sur, Fixed()[Slot(role, k)], k);
  }

  /** A broker's container is told the node port, unless the user's own variables say otherwise. */
  lemma BrokerIsToldItsPort(t: Target, port: int, sur: Surroundings)
    requires Unnamed(t.spec.broker.envs, PORT_NAME)
    ensures Get(ShellVars(TemplateEnv(t, Naming.Broker, port), sur), PORT_NAME) == PrintInt(port)
  {
    assert 10 < |FixedEnv(t, Naming.Broker, port)| && Fixed()[10] == PORT_NAME;
    hide FixedEnv, Fixed, PrintInt, ShellVars;
    FixedSeen(t, Naming.Broker, port, sur, 10);
  }

  lemma OnlyBrokersAsk(t: Target, port: int, k: nat)
    requires k < |FixedEnv(t, Naming.Controller, port)|
    ensures FixedEnv(t, Naming.Controller, port)[k].name != APIS_NAME
  {
    assert Fixed()[11] == APIS_NAME;
    hide FixedEnv, Fixed;
    FixedNames(t, Naming.Controller, port, k);
    FixedTags(Slot(Naming.Controller, k));
    FixedTags(11);
  }

  lemma ControllersDoNotAsk(t: Target, port: int, sur: Surroundings)
    requires AllStandBy(t.spec.controller.envs, sur)
    ensures Get(ShellVars(TemplateEnv(t, Naming.Controller, port), sur), APIS_NAME) == ""
  {
    hide FixedEnv, ShellVars, VARIABLES, StandsBy, IsVariable, SedPlain;
    var fixed, env := FixedEnv(t, Naming.Controller, port), TemplateEnv(t, Naming.Controller, port);
    forall k | 0 <= k < |env| ensures env[k].name != APIS_NAME {
      if k < |fixed| {
        OnlyBrokersAsk(t, port, k);
      } else {
        assert env[k] == t.spec.controller.envs[k - |fixed|];
      }
    }
    ShellAt(env, sur, APIS_NAME, 0);
  }

  /** A broker is told the node port it was given and where to ask for its address; a controller is not. */
  lemma AddressVariables(t: Target, role: Naming.Role, port: int, sur: Surroundings)
    requires AllStandBy(t.Of(role).envs, sur)
    ensures var vars := ShellVars(TemplateEnv(t, role, port), sur);
            if role == Naming.Broker then
              Get(vars, PORT_NAME) == PrintInt(port)
              && Get(vars, APIS_NAME) == "http://" + t.apisIP + ":" + PrintInt(9090)
            else Get(vars, APIS_NAME) == ""
  {
    assert role == Naming.Broker ==> 11 < |FixedEnv(t, role, port)|;
    assert Fixed()[11] == APIS_NAME;
    hide FixedEnv, Fixed, PrintInt, ShellVars, VARIABLES, StandsBy, IsVariable, SedPlain;
    if role == Naming.Broker {
      BrokerIsToldItsPort(t, port, sur);
      FixedSeen(t, role, port, sur, 11);
    } else {
      ControllersDoNotAsk(t, port, sur);
    }
  }

  /** No option is set before the script has parsed its arguments. */
  lemma ShellIsFresh(t: Target, role: Naming.Role, port: int, sur: Surroundings)
    requires AllStandBy(t.Of(role).envs, sur)
    ensures FreshShell(ShellVars(TemplateEnv(t, role, port), sur))
  {
    hide FixedEnv, Fixed, PrintInt, ShellVars, StandsBy, IsVariable;
    var fixed, env := FixedEnv(t, role, port), TemplateEnv(t, role, port);
    forall n | 0 <= n < 8 ensures Get(ShellVars(env, sur), VARIABLES[n]) == "" {
      forall k | 0 <= k < |env| ensures env[k].name != VARIABLES[n] {
        if k < |fixed| {
          FixedNames(t, role, port, k);
          NeverAnOption(Slot(role, k), n);
        } else {
          assert env[k] == t.Of(role).envs[k - |fixed|];
        }
      }
      ShellAt(env, sur, VARIABLES[n], 0);
    }
  }

  /** The configuration variables of a container, in whatever order the shell lists them, are well formed and stand
      by: they are of the operator's two families, the user's or the image's. */
  lemma ContainerSettings(t: Target, role: Naming.Role, port: int, sur: Surroundings, cfg: seq<(string, string)>)
    requires AllStandBy(t.Of(role).envs, sur) && IsListing(cfg, ShellVars(TemplateEnv(t, role, port), sur))
    ensures IsConfiguration(cfg) && forall k :: 0 <= k < |cfg| ==> StandsBy(cfg[k].0)
  {
    hide FixedEnv, Fixed, PrintInt, ShellVars, StandsBy, IsVariable, SedPlain, VARIABLES;
    var fixed, env := FixedEnv(t, role, port), TemplateEnv(t, role, port);
    forall n | 0 <= n < |cfg| ensures IsVariable(cfg[n].0) && SedPlain(cfg[n].1) && StandsBy(cfg[n].0) {
      var name := cfg[n].0;
      var k := LastOf(env, name);
      ShellAt(env, sur, name, k);
      if IsLast(env, name, k) {
        if k < |fixed| {
          assert env[k] == fixed[k];
          FixedNames(t, role, port, k);
          FixedValues(t, role, port, k);
          FixedSettings(Slot(role, k));
          OperatorSettingsStandBy(name);
        } else {
          assert env[k] == t.Of(role).envs[k - |fixed|];
        }
      }
    }
  }
}
