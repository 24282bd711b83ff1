/** The operator's own configuration variables on their way into a node's file. */
module OwnSettings {
  import opened Basics
  import opened AutoMQApi
  import Naming
  import opened Templates
  import opened ConfigFile
  import opened WriteSeries
  import opened EnvKeys
  import opened NodeConfig
  import opened OperatorSettings
  import opened Container

  /******* Their keys *******/

  /** Where the operator's settings stand among its variables. */
  predicate IsSetting(s: nat) {
    s in {7, 8, 9, 12}
  }

  /** The property a setting is for. */
  function OwnKey(s: nat): string
    requires IsSetting(s)
  {
    match s
    case 7 => "autobalancer.reporter.network.in.capacity"
    case 8 => "autobalancer.reporter.network.out.capacity"
    case 9 => "autobalancer.reporter.metrics.reporting.interval.ms"
    case _ => "s3.telemetry.metrics.exporter.uri"
  }

  function OwnValue(s: nat): string
    requires IsSetting(s)
  {
    match s
    case 7 => "5120"
    case 8 => "5120"
    case 9 => "5000"
    case _ => "prometheus://?host=0.0.0.0&port=9090"
  }

  lemma NoSaslJoined(a: string, b: string)
    requires NoSasl(a) && NoSaslInside(b)
    ensures NoSaslInside(a + b)
  {
  }

  /** The key of a family's variable, part by part. */
  lemma FamilyKey(first: string, rest: string)
    requires NoSasl(Dotted(first)) && NoSaslInside(Dotted(rest)) && PREFIX + first + rest != ZOOKEEPER_VARIABLE
    ensures KeyOf(PREFIX + first + rest) == Dotted(first) + Dotted(rest)
  {
    hide Dotted, KeyOf, NoSasl, NoSaslInside;
    DottedAppend(first, rest);
    NoSaslJoined(Dotted(first), Dotted(rest));
    assert PREFIX + (first + rest) == PREFIX + first + rest;
    KeyIs(first + rest);
  }

  lemma InboundDotted()
    ensures Dotted("_NETWORK_IN_CAPACITY") == ".network.in.capacity" && NoSaslInside(".network.in.capacity")
  {
    hide Dotted;
    var r, k' := Dotted("_NETWORK_IN_CAPACITY"), ".network.in.capacity";
    assert |r| == |k'|;
    forall k | 0 <= k < |r| ensures r[k] == k'[k] {
    }
  }

  lemma OutboundDotted()
    ensures Dotted("_NETWORK_OUT_CAPACITY") == ".network.out.capacity" && NoSaslInside(".network.out.capacity")
  {
    hide Dotted;
    var r, k' := Dotted("_NETWORK_OUT_CAPACITY"), ".network.out.capacity";
    assert |r| == |k'|;
    forall k | 0 <= k < |r| ensures r[k] == k'[k] {
    }
  }

  lemma IntervalDotted()
    ensures Dotted("_METRICS_REPORTING" + "_INTERVAL_MS") == ".metrics.reporting" + ".interval.ms"
    ensures NoSaslInside(".metrics.reporting" + ".interval.ms")
  {
    hide Dotted;
    DottedAppend("_METRICS_REPORTING", "_INTERVAL_MS");
    var r, k' := Dotted("_METRICS_REPORTING"), ".metrics.reporting";
    assert |r| == |k'|;
    forall k | 0 <= k < |r| ensures r[k] == k'[k] {
    }
    IntervalEnd();
    NoSaslJoined(".metrics.reporting", ".interval.ms");
  }

  lemma IntervalEnd()
    ensures Dotted("_INTERVAL_MS") == ".interval.ms" && NoSaslInside(".interval.ms") && NoSasl(".metrics.reporting")
  {
    hide Dotted;
    var r, k' := Dotted("_INTERVAL_MS"), ".interval.ms";
    assert |r| == |k'|;
    forall k | 0 <= k < |r| ensures r[k] == k'[k] {
    }
  }

  lemma ExporterDotted()
    ensures Dotted("_METRICS_EXPORTER_URI") == ".metrics.exporter.uri" && NoSaslInside(".metrics.exporter.uri")
  {
    hide Dotted;
    var r, k' := Dotted("_METRICS_EXPORTER_URI"), ".metrics.exporter.uri";
    assert |r| == |k'|;
    forall k | 0 <= k < |r| ensures r[k] == k'[k] {
    }
  }

  lemma InboundKey()
    ensures "autobalancer.reporter" + ".network.in.capacity" == "autobalancer.reporter.network.in.capacity"
  {
  }

  lemma OutboundKey()
    ensures "autobalancer.reporter" + ".network.out.capacity" == "autobalancer.reporter.network.out.capacity"
  {
  }

  lemma IntervalKey()
    ensures "autobalancer.reporter" + (".metrics.reporting" + ".interval.ms") ==
            "autobalancer.reporter.metrics.reporting.interval.ms"
  {
    assert ".metrics.reporting" + ".interval.ms" == ".metrics.reporting.interval.ms";
  }

  lemma IntervalName()
    ensures "_METRICS_REPORTING" + "_INTERVAL_MS" == "_METRICS_REPORTING_INTERVAL_MS"
  {
  }

  lemma ExporterKey()
    ensures "s3.telemetry" + ".metrics.exporter.uri" == "s3.telemetry.metrics.exporter.uri"
  {
  }

  lemma FamilyNames()
    ensures REPORTER_CFG == PREFIX + "AUTOBALANCER_REPORTER" && |PREFIX| == 10 && |ZOOKEEPER_VARIABLE| > 10
    ensures TELEMETRY_CFG == PREFIX + "S3_TELEMETRY" && ZOOKEEPER_VARIABLE[10] == 'Z'
  {
  }

  lemma ReporterVariable(rest: string)
    ensures REPORTER_CFG + rest == PREFIX + "AUTOBALANCER_REPORTER" + rest != ZOOKEEPER_VARIABLE
    ensures TELEMETRY_CFG + rest == PREFIX + "S3_TELEMETRY" + rest != ZOOKEEPER_VARIABLE
  {
    FamilyNames();
    assert (PREFIX + "AUTOBALANCER_REPORTER" + rest)[10] == 'A' && (PREFIX + "S3_TELEMETRY" + rest)[10] == 'S';
  }

  /** The four variables reach these four properties. */
  lemma OwnKeyIs(s: nat)
    requires IsSetting(s)
    ensures KeyOf(Fixed()[s]) == OwnKey(s)
  {
    InboundKey();
    OutboundKey();
    IntervalKey();
    IntervalName();
    ExporterKey();
    assert Fixed()[7] == REPORTER_CFG + "_NETWORK_IN_CAPACITY" && Fixed()[8] == REPORTER_CFG + "_NETWORK_OUT_CAPACITY";
    assert Fixed()[9] == REPORTER_CFG + "_METRICS_REPORTING_INTERVAL_MS";
    assert Fixed()[12] == TELEMETRY_CFG + "_METRICS_EXPORTER_URI";
    hide Dotted, KeyOf, NoSasl, NoSaslInside, Fixed, OwnKey;
    ReporterDotted();
    TelemetryDotted();
    match s
    case 7 =>
      InboundDotted();
      ReporterVariable("_NETWORK_IN_CAPACITY");
      FamilyKey("AUTOBALANCER_REPORTER", "_NETWORK_IN_CAPACITY");
    case 8 =>
      OutboundDotted();
      ReporterVariable("_NETWORK_OUT_CAPACITY");
      FamilyKey("AUTOBALANCER_REPORTER", "_NETWORK_OUT_CAPACITY");
    case 9 =>
      IntervalDotted();
      ReporterVariable("_METRICS_REPORTING_INTERVAL_MS");
      FamilyKey("AUTOBALANCER_REPORTER", "_METRICS_REPORTING_INTERVAL_MS");
    case _ =>
      ExporterDotted();
      ReporterVariable("_METRICS_EXPORTER_URI");
      FamilyKey("S3_TELEMETRY", "_METRICS_EXPORTER_URI");
  }

  /******* They are told apart from every other property *******/

  lemma InboundInitials()
    ensures var k := "autobalancer.reporter.network.in.capacity";
            |k| > 30 && k[0] == 'a' && k[1] == 'u' && k[13] == 'r' && k[22] == 'n' && k[30] == 'i'
  {
  }

  lemma OutboundInitials()
    ensures var k := "autobalancer.reporter.network.out.capacity";
            |k| > 30 && k[0] == 'a' && k[1] == 'u' && k[13] == 'r' && k[22] == 'n' && k[30] == 'o'
  {
  }

  lemma IntervalInitials()
    ensures var k := "autobalancer.reporter.metrics.reporting.interval.ms";
            |k| > 30 && k[0] == 'a' && k[1] == 'u' && k[13] == 'r' && k[22] == 'm'
  {
    IntervalKey();
    var first, rest := "autobalancer.reporter", ".metrics.reporting" + ".interval.ms";
    assert |first| == 21 && first[0] == 'a' && first[1] == 'u' && first[13] == 'r';
    assert (first + rest)[0] == first[0] && (first + rest)[1] == first[1] && (first + rest)[13] == first[13];
    assert (first + rest)[22] == rest[1] == 'm';
  }

  lemma ExporterInitials()
    ensures var k := "s3.telemetry.metrics.exporter.uri";
            |k| > 30 && k[0] == 's' && k[1] == '3' && k[3] == 't'
  {
  }

  lemma OwnKeyInitials(s: nat)
    requires IsSetting(s)
    ensures |OwnKey(s)| > 30
    ensures s != 12 ==> OwnKey(s)[0] == 'a' && OwnKey(s)[1] == 'u' && OwnKey(s)[13] == 'r'
    ensures s == 12 ==> OwnKey(s)[0] == 's' && OwnKey(s)[1] == '3' && OwnKey(s)[3] == 't'
    ensures s == 7 ==> OwnKey(s)[22] == 'n' && OwnKey(s)[30] == 'i'
    ensures s == 8 ==> OwnKey(s)[22] == 'n' && OwnKey(s)[30] == 'o'
    ensures s == 9 ==> OwnKey(s)[22] == 'm'
  {
    match s
    case 7 => InboundInitials();
    case 8 => OutboundInitials();
    case 9 => IntervalInitials();
    case _ => ExporterInitials();
  }

  lemma OwnKeysApart(s: nat, s': nat)
    requires IsSetting(s) && IsSetting(s') && s != s'
    ensures Apart(OwnKey(s), OwnKey(s'))
  {
    OwnKeyInitials(s);
    OwnKeyInitials(s');
    hide OwnKey, Apart;
    if s == 12 || s' == 12 {
      ApartAt(OwnKey(s), OwnKey(s'), 0);
    } else if s == 9 || s' == 9 {
      ApartAt(OwnKey(s), OwnKey(s'), 22);
    } else {
      ApartAt(OwnKey(s), OwnKey(s'), 30);
    }
  }

  lemma ListedApartFromOwn(k: nat, s: nat)
    requires k < |Listed()| && IsSetting(s)
    ensures Apart(Listed()[k], OwnKey(s))
  {
    OwnKeyInitials(s);
    Initials(k);
    hide OwnKey, Apart, Listed;
    var own := OwnKey(s);
    if FIRST[k] != own[0] {
      ApartAt(Listed()[k], own, 0);
    } else if SECOND[k] != own[1] {
      ApartAt(Listed()[k], own, 1);
    } else if s == 12 {
      SlotsBySecond(k);
      BucketInitials();
      ApartAt(Listed()[k], own, 3);
    } else {
      SlotsBySecond(k);
      BalancerInitials();
      ApartAt(Listed()[k], own, 13);
    }
  }

  lemma SlotsBySecond(k: nat)
    requires k < 13
    ensures FIRST[k] == 's' ==> k in {2, 3, 5}
    ensures FIRST[k] == 'a' && SECOND[k] == 'u' ==> k in {6, 7, 8, 9}
  {
  }

  lemma ApartNotSame(key: string)
    ensures !Apart(key, key)
  {
  }

  /** What is told apart from a key leaves room for it. */
  lemma ApartLeavesRoom(w: Write, key: string)
    requires Apart(w.key, key)
    ensures w.key != key && Spares(w.key, key) && LeavesRoomFor(w, key)
  {
    ApartNotSame(key);
    ApartSpares(w.key, key);
    ApartNeverBegins(w.key, w.value, key);
    ApartNeverBegins(w.key, Written(w.value), key);
  }

  lemma ApartNeverBegins(key: string, value: string, other: string)
    requires Apart(key, other)
    ensures !Matches(other, Assign(key, value))
  {
    assert Assign(key, value) == key + ("=" + value);
    PrefixMatches(key, "=" + value);
    ApartNeverBoth(key, other, Assign(key, value));
  }

  /******* In a container *******/

  /** The container has the setting: the reporter's three are a broker's, the exporter's comes with the metrics. */
  predicate HasSetting(t: Target, role: Naming.Role, s: nat) {
    IsSetting(s) && (if s == 12 then t.spec.metricsEnable else role == Naming.Broker)
  }

  function OwnIndex(role: Naming.Role, s: nat): nat {
    if s == 12 && role == Naming.Controller then 6 else s
  }

  lemma OwnEntry(t: Target, role: Naming.Role, port: int, s: nat)
    requires HasSetting(t, role, s)
    ensures var k, fixed := OwnIndex(role, s), FixedEnv(t, role, port);
            k < |fixed| && Slot(role, k) == s && fixed[k] == Literal(Fixed()[s], OwnValue(s))
  {
    hide PrintInt, JvmOptions;
  }

  lemma OwnNamesDiffer(s: nat, s': nat)
    requires IsSetting(s) && s' < 13 && s != s'
    ensures Fixed()[s] != Fixed()[s']
  {
    hide Fixed, KeyOf, OwnKey, Apart, IsVariable, IsOperatorSetting;
    OwnPrefix(s);
    FixedSettings(s');
    if PREFIX <= Fixed()[s'] {
      OwnKeyIs(s);
      OwnKeyIs(s');
      OwnKeysApart(s, s');
      ApartNotSame(OwnKey(s));
    }
  }

  lemma OwnPrefix(s: nat)
    requires IsSetting(s)
    ensures PREFIX <= Fixed()[s]
  {
    FamilyNames();
    assert Fixed()[7] == REPORTER_CFG + "_NETWORK_IN_CAPACITY" && Fixed()[8] == REPORTER_CFG + "_NETWORK_OUT_CAPACITY";
    assert Fixed()[9] == REPORTER_CFG + "_METRICS_REPORTING_INTERVAL_MS";
    assert Fixed()[12] == TELEMETRY_CFG + "_METRICS_EXPORTER_URI";
    hide Fixed;
  }

  /** No variable of the user or of the image is for this property or for one that could be mistaken for it. */
  ghost predicate Unclaimed(envs: seq<EnvVar>, sur: Surroundings, key: string) {
    && (forall k :: 0 <= k < |envs| && PREFIX <= envs[k].name ==> Apart(KeyOf(envs[k].name), key))
    && forall name :: name in sur.image && PREFIX <= name ==> Apart(KeyOf(name), key)
  }

  lemma OwnEntryIsLast(t: Target, role: Naming.Role, port: int, sur: Surroundings, s: nat)
    requires HasSetting(t, role, s) && Unclaimed(t.Of(role).envs, sur, OwnKey(s))
    ensures IsLast(TemplateEnv(t, role, port), Fixed()[s], OwnIndex(role, s))
  {
    hide FixedEnv, Fixed, OwnKey, OwnValue, KeyOf, Apart, Slot, OwnIndex;
    var fixed, env, k := FixedEnv(t, role, port), TemplateEnv(t, role, port), OwnIndex(role, s);
    OwnEntry(t, role, port, s);
    OwnPrefix(s);
    OwnKeyIs(s);
    ApartNotSame(OwnKey(s));
    forall j | k < j < |env| ensures env[j].name != Fixed()[s] {
      if j < |fixed| {
        FixedNames(t, role, port, j);
        SlotsIncrease(t, role, port, k, j);
        OwnNamesDiffer(s, Slot(role, j));
      } else {
        assert env[j] == t.Of(role).envs[j - |fixed|];
      }
    }
  }

  /** The shell lists the setting, with the operator's value; whatever else it lists is told apart from it. */
  lemma OwnSettingListed(t: Target, role: Naming.Role, port: int, sur: Surroundings, cfg: seq<(string, string)>, s: nat)
      returns (n: nat)
    requires HasSetting(t, role, s) && Unclaimed(t.Of(role).envs, sur, OwnKey(s))
    requires IsListing(cfg, ShellVars(TemplateEnv(t, role, port), sur))
    ensures n < |cfg| && KeyOf(cfg[n].0) == OwnKey(s) && cfg[n].1 == OwnValue(s)
    ensures forall m :: 0 <= m < |cfg| && m != n ==> Apart(KeyOf(cfg[m].0), OwnKey(s))
  {
    hide FixedEnv, Fixed, OwnKey, OwnValue, KeyOf, Apart, Slot, OwnIndex, ShellVars, TemplateEnv;
    var env, name := TemplateEnv(t, role, port), Fixed()[s];
    OwnEntry(t, role, port, s);
    OwnEntryIsLast(t, role, port, sur, s);
    ShellAt(env, sur, name, OwnIndex(role, s));
    TemplateBegins(t, role, port, OwnIndex(role, s));
    OwnPrefix(s);
    OwnKeyIs(s);
    n :| 0 <= n < |cfg| && cfg[n].0 == name;
    forall m | 0 <= m < |cfg| && m != n ensures Apart(KeyOf(cfg[m].0), OwnKey(s)) {
      OthersApart(t, role, port, sur, cfg[m].0, s);
    }
  }

  lemma TemplateBegins(t: Target, role: Naming.Role, port: int, k: nat)
    requires k < |FixedEnv(t, role, port)|
    ensures k < |TemplateEnv(t, role, port)| && TemplateEnv(t, role, port)[k] == FixedEnv(t, role, port)[k]
  {
  }

  lemma OthersApart(t: Target, role: Naming.Role, port: int, sur: Surroundings, name: string, s: nat)
    requires IsSetting(s) && Unclaimed(t.Of(role).envs, sur, OwnKey(s)) && PREFIX <= name && name != Fixed()[s]
    requires name in ShellVars(TemplateEnv(t, role, port), sur)
    ensures Apart(KeyOf(name), OwnKey(s))
  {
    hide FixedEnv, Fixed, OwnKey, KeyOf, Apart, ShellVars, IsVariable, IsOperatorSetting;
    var fixed, env := FixedEnv(t, role, port), TemplateEnv(t, role, port);
    var k := LastOf(env, name);
    ShellAt(env, sur, name, k);
    if IsLast(env, name, k) {
      if k < |fixed| {
        assert env[k] == fixed[k];
        FixedNames(t, role, port, k);
        FixedSettings(Slot(role, k));
        OwnKeyIs(Slot(role, k));
        OwnKeysApart(Slot(role, k), s);
      } else {
        assert env[k] == t.Of(role).envs[k - |fixed|];
      }
    }
  }

  lemma OwnValuesHaveNoHash(s: nat)
    requires IsSetting(s)
    ensures Written(OwnValue(s)) == OwnValue(s)
  {
    assert '#' !in OwnValue(s);
    hide OwnValue, ReplaceChar;
    NothingToReplace(OwnValue(s), '#', "/#/");
  }
}
