/** The configuration variables the operator itself puts into a container, as the start script reads them. */
module OperatorSettings {
  import opened Basics
  import opened WriteSeries
  import opened EnvKeys
  import opened StartScript
  import opened NodeConfig
  import opened Templates

  const REPORTER_KEY := "autobalancer.reporter"
  const TELEMETRY_KEY := "s3.telemetry"

  lemma ReporterDotted()
    ensures Dotted("AUTOBALANCER_REPORTER") == REPORTER_KEY && NoSasl(REPORTER_KEY)
  {
    hide Dotted;
    var r := Dotted("AUTOBALANCER_REPORTER");
    assert |r| == |REPORTER_KEY|;
    forall k | 0 <= k < |r| ensures r[k] == REPORTER_KEY[k] {
    }
  }

  lemma TelemetryDotted()
    ensures Dotted("S3_TELEMETRY") == TELEMETRY_KEY && NoSasl(TELEMETRY_KEY)
  {
    hide Dotted;
    var r := Dotted("S3_TELEMETRY");
    assert |r| == |TELEMETRY_KEY|;
    forall k | 0 <= k < |r| ensures r[k] == TELEMETRY_KEY[k] {
    }
  }

  lemma PositionSpares(key: string, other: string, d: nat)
    requires d < |key| && d < |other| && key[d] != '.' && key[d] != other[d]
    ensures Spares(key, other)
  {
    assert (key + "=")[d] == key[d] && (other + "=")[d] == other[d];
  }

  lemma ReporterSparesListed(key: string, k: nat)
    requires REPORTER_KEY <= key && k < |Listed()|
    ensures Spares(key, Listed()[k])
  {
    Initials(k);
    assert REPORTER_KEY[0] == 'a' && REPORTER_KEY[1] == 'u' && REPORTER_KEY[13] == 'r';
    assert key[0] == 'a' && key[1] == 'u' && key[13] == 'r';
    hide Spares, Listed;
    if FIRST[k] != 'a' {
      PositionSpares(key, Listed()[k], 0);
    } else if SECOND[k] != 'u' {
      PositionSpares(key, Listed()[k], 1);
    } else {
      assert k in {6, 7, 8, 9};
      BalancerInitials();
      PositionSpares(key, Listed()[k], 13);
    }
  }

  lemma TelemetrySparesListed(key: string, k: nat)
    requires TELEMETRY_KEY <= key && k < |Listed()|
    ensures Spares(key, Listed()[k])
  {
    Initials(k);
    BucketInitials();
    assert TELEMETRY_KEY[0] == 's' && TELEMETRY_KEY[3] == 't';
    assert key[0] == 's' && key[3] == 't';
    hide Spares, Listed;
    if FIRST[k] != 's' {
      PositionSpares(key, Listed()[k], 0);
    } else {
      assert k in {2, 3, 5};
      PositionSpares(key, Listed()[k], 3);
    }
  }

  lemma BucketInitials()
    ensures |Listed()[2]| > 3 && |Listed()[3]| > 3 && |Listed()[5]| > 3
    ensures Listed()[2][3] == 'd' && Listed()[3][3] == 'o' && Listed()[5][3] == 'w'
  {
  }

  /** A variable of one of the two families the operator uses. */
  predicate IsOperatorSetting(variable: string) {
    REPORTER_CFG <= variable || TELEMETRY_CFG <= variable
  }

  lemma ReporterSettingSpares(rest: string, k: nat)
    requires k < |Listed()|
    ensures Spares(KeyOf(REPORTER_CFG + rest), Listed()[k])
  {
    hide Dotted, KeyOf, Spares, Listed, NoSasl;
    var variable := PREFIX + "AUTOBALANCER_REPORTER" + rest;
    assert REPORTER_CFG == PREFIX + "AUTOBALANCER_REPORTER";
    assert ZOOKEEPER_VARIABLE[10] == 'Z' && variable[10] == 'A';
    ReporterDotted();
    KeyBegins("AUTOBALANCER_REPORTER", rest);
    ReporterSparesListed(KeyOf(variable), k);
  }

  lemma TelemetrySettingSpares(rest: string, k: nat)
    requires k < |Listed()|
    ensures Spares(KeyOf(TELEMETRY_CFG + rest), Listed()[k])
  {
    hide Dotted, KeyOf, Spares, Listed, NoSasl;
    var variable := PREFIX + "S3_TELEMETRY" + rest;
    assert TELEMETRY_CFG == PREFIX + "S3_TELEMETRY";
    assert ZOOKEEPER_VARIABLE[10] == 'Z' && variable[10] == 'S';
    TelemetryDotted();
    KeyBegins("S3_TELEMETRY", rest);
    TelemetrySparesListed(KeyOf(variable), k);
  }

  lemma OperatorSettingSpares(variable: string, k: nat)
    requires IsOperatorSetting(variable) && k < |Listed()|
    ensures Spares(KeyOf(variable), Listed()[k])
  {
    hide KeyOf, Spares, Listed;
    if REPORTER_CFG <= variable {
      var rest := variable[|REPORTER_CFG|..];
      assert variable == REPORTER_CFG + rest;
      ReporterSettingSpares(rest, k);
    } else {
      var rest := variable[|TELEMETRY_CFG|..];
      assert variable == TELEMETRY_CFG + rest;
      TelemetrySettingSpares(rest, k);
    }
  }

  /** The setting of this variable can be mistaken for no key the script sets. */
  predicate StandsBy(variable: string) {
    forall k :: 0 <= k < |Listed()| ==> Spares(KeyOf(variable), Listed()[k])
  }

  /** The operator's own settings stand by. */
  lemma OperatorSettingsStandBy(variable: string)
    requires IsOperatorSetting(variable)
    ensures StandsBy(variable)
  {
    hide KeyOf, Spares, Listed, IsOperatorSetting;
    forall k | 0 <= k < |Listed()| ensures Spares(KeyOf(variable), Listed()[k]) {
      OperatorSettingSpares(variable, k);
    }
  }

  lemma SparesNotItself(key: string)
    ensures !Spares(key, key)
  {
  }

  lemma {:induction false} NotOverridden(cfg: seq<(string, string)>, key: string)
    requires forall k :: 0 <= k < |cfg| ==> Spares(KeyOf(cfg[k].0), key)
    ensures LastSetting(cfg, key) == None
  {
    hide KeyOf, Spares;
    if cfg != [] {
      var n := |cfg| - 1;
      NotOverridden(cfg[..n], key);
      SparesNotItself(key);
    }
  }

  /** Settings that stand by cannot be mistaken for a key the script sets, and override none. */
  lemma BystandersOverrideNothing(cfg: seq<(string, string)>, role: string, v: Vars, advertised: string)
    requires KnownRole(role) && forall k :: 0 <= k < |cfg| ==> StandsBy(cfg[k].0)
    ensures var ws := ListedWrites(role, v, advertised);
            Unmistakable(cfg, ws) && forall j :: 0 <= j < |ws| ==> LastSetting(cfg, ws[j].key) == None
  {
    hide ListedWrites, Positions, Listed, KeyOf, Spares;
    WritesAtPositions(role, v, advertised);
    var ws := ListedWrites(role, v, advertised);
    forall k, j | 0 <= k < |cfg| && 0 <= j < |ws| ensures Spares(KeyOf(cfg[k].0), ws[j].key) {
      PositionInList(role, j);
    }
    forall j | 0 <= j < |ws| ensures LastSetting(cfg, ws[j].key) == None {
      NotOverridden(cfg, ws[j].key);
    }
  }
}
