/** The property file a node ends up with. */
module NodeConfig {
  import opened Basics
  import opened ConfigFile
  import opened WriteSeries
  import opened EnvKeys
  import opened StartScript

  /** The keys the script sets, in the order in which it sets them. */
  function Listed(): (keys: seq<string>)
    ensures |keys| == 13
  {
    [ "node.id", "controller.quorum.voters", "s3.data.buckets", "s3.ops.buckets", "log.dirs", "s3.wal.path",
      "autobalancer.topic", "autobalancer.topic.num.partitions", "autobalancer.controller.enable",
      "autobalancer.controller.exclude.topics", "metric.reporters", "listeners", "advertised.listeners" ]
  }

  const FIRST := "ncssls" + "aaaamla"
  const SECOND := "oo33o3" + "uuuueid"

  lemma ApartAt(key: string, key': string, d: nat)
    requires d < |key| && d < |key'| && key[d] != key'[d] && key[d] != '.' && key'[d] != '.'
    ensures Apart(key, key')
  {
  }

  /** The first two characters already tell most keys apart. */
  lemma Initials(k: nat)
    requires k < |Listed()|
    ensures |Listed()[k]| > 1 && Listed()[k][0] == FIRST[k] && Listed()[k][1] == SECOND[k] && FIRST[k] != '.'
        && SECOND[k] != '.'
  {
  }

  lemma BucketKeysApart()
    ensures Apart(Listed()[2], Listed()[3]) && Apart(Listed()[2], Listed()[5]) && Apart(Listed()[3], Listed()[5])
  {
    assert Listed()[2][3] == 'd' && Listed()[3][3] == 'o' && Listed()[5][3] == 'w';
    ApartAt(Listed()[2], Listed()[3], 3);
    ApartAt(Listed()[2], Listed()[5], 3);
    ApartAt(Listed()[3], Listed()[5], 3);
  }

  lemma BalancerInitials()
    ensures |Listed()[6]| > 13 && |Listed()[7]| > 13 && |Listed()[8]| > 25 && |Listed()[9]| > 25
    ensures Listed()[6][13] == 't' && Listed()[7][13] == 't' && Listed()[8][13] == 'c' && Listed()[9][13] == 'c'
  {
  }

  lemma SwitchInitials()
    ensures |Listed()[8]| > 25 && |Listed()[9]| > 25 && Listed()[8][25] == 'n' && Listed()[9][25] == 'x'
  {
  }

  lemma BalancerKeysApart()
    ensures Apart(Listed()[6], Listed()[8]) && Apart(Listed()[6], Listed()[9]) && Apart(Listed()[7], Listed()[8])
            && Apart(Listed()[7], Listed()[9]) && Apart(Listed()[8], Listed()[9])
  {
    BalancerInitials();
    SwitchInitials();
    ApartAt(Listed()[6], Listed()[8], 13);
    ApartAt(Listed()[6], Listed()[9], 13);
    ApartAt(Listed()[7], Listed()[8], 13);
    ApartAt(Listed()[7], Listed()[9], 13);
    ApartAt(Listed()[8], Listed()[9], 25);
  }

  /** No two listed keys can be mistaken for each other, except that one topic key begins like the other. */
  lemma ListedApart(i: nat, j: nat)
    requires i < j < |Listed()| && (i, j) != (6, 7)
    ensures Apart(Listed()[i], Listed()[j])
  {
    Initials(i);
    Initials(j);
    hide Apart;
    if FIRST[i] != FIRST[j] {
      ApartAt(Listed()[i], Listed()[j], 0);
    } else if SECOND[i] != SECOND[j] {
      ApartAt(Listed()[i], Listed()[j], 1);
    } else if FIRST[i] == 's' {
      SharedInitials(i, j);
      BucketKeysApart();
    } else {
      SharedInitials(i, j);
      BalancerKeysApart();
    }
  }

  lemma SharedInitials(i: nat, j: nat)
    requires i < j < |Listed()| && FIRST[i] == FIRST[j] && SECOND[i] == SECOND[j]
    ensures FIRST[i] == 's' ==> (i, j) in {(2, 3), (2, 5), (3, 5)}
    ensures FIRST[i] != 's' ==> (i, j) in {(6, 7), (6, 8), (6, 9), (7, 8), (7, 9), (8, 9)}
  {
  }

  /******* The listed writes leave each other alone *******/

  function ListedWrites(role: string, v: Vars, advertised: string): seq<Write> {
    RoleWrites(role, v) + IpWrites(role, advertised)
  }

  /** Where in the list the keys of a role stand. */
  function Positions(role: string): seq<nat> {
    [0, 1, 2, 3, 4, 5, 6, 7]
    + (if role == "broker" then [10, 11, 12] else if role == "controller" then [8, 9, 11] else [8, 9, 10, 11, 12])
  }

  lemma OptionWritesInList(role: string, v: Vars)
    ensures |OptionWrites(role, v)| == 6 && forall k :: 0 <= k < 6 ==> OptionWrites(role, v)[k].key == Listed()[k]
  {
    hide BucketUrl, Get, LogDir, WalPath, OptionWrites;
    OptionWritesAt(role, v);
  }

  lemma LaterWritesInList(role: string, advertised: string)
    requires KnownRole(role)
    ensures var ws := BalancerWrites(role) + IpWrites(role, advertised);
            && |ws| + 6 == |Positions(role)|
            && (forall k :: 0 <= k < |ws| ==> ws[k].key == Listed()[Positions(role)[k + 6]])
            && ws[0] == AddKey(Listed()[6], "AutoBalancerMetricsReporterTopic")
  {
    var ws := BalancerWrites(role) + IpWrites(role, advertised);
    if role == "broker" {
      assert |ws| == 5;
    } else if role == "controller" {
      assert |ws| == 5;
    } else {
      assert |ws| == 7;
    }
  }

  lemma WritesAtPositions(role: string, v: Vars, advertised: string)
    requires KnownRole(role)
    ensures var ws := ListedWrites(role, v, advertised);
            && |ws| == |Positions(role)|
            && (forall k :: 0 <= k < |ws| ==> ws[k].key == Listed()[Positions(role)[k]])
            && ws[6] == AddKey(Listed()[6], "AutoBalancerMetricsReporterTopic")
  {
    hide Listed, ListedWrites, Positions, KnownRole;
    ListedSplit(role, v, advertised);
    forall k | 0 <= k < |ListedWrites(role, v, advertised)|
      ensures ListedWrites(role, v, advertised)[k].key == Listed()[Positions(role)[k]]
    {
      WriteAtPosition(role, v, advertised, k);
    }
  }

  lemma ListedSplit(role: string, v: Vars, advertised: string)
    requires KnownRole(role)
    ensures |ListedWrites(role, v, advertised)| == |Positions(role)|
    ensures forall k :: 0 <= k < |Positions(role)| ==> Positions(role)[k] < 13
    ensures ListedWrites(role, v, advertised)[6] == AddKey(Listed()[6], "AutoBalancerMetricsReporterTopic")
  {
    hide Listed, OptionWrites, BalancerWrites, IpWrites;
    OptionWritesInList(role, v);
    LaterWritesInList(role, advertised);
    var later := BalancerWrites(role) + IpWrites(role, advertised);
    assert ListedWrites(role, v, advertised) == OptionWrites(role, v) + later;
    assert ListedWrites(role, v, advertised)[6] == later[0];
  }

  lemma WriteAtPosition(role: string, v: Vars, advertised: string, k: nat)
    requires KnownRole(role) && k < |ListedWrites(role, v, advertised)|
    ensures k < |Positions(role)| && Positions(role)[k] < 13
    ensures ListedWrites(role, v, advertised)[k].key == Listed()[Positions(role)[k]]
  {
    ListedSplit(role, v, advertised);
    OptionWritesInList(role, v);
    LaterWritesInList(role, advertised);
    assert k < 6 ==> Positions(role)[k] == k;
    hide Listed, OptionWrites, BalancerWrites, IpWrites, KnownRole, Positions;
    var ws, later := ListedWrites(role, v, advertised), BalancerWrites(role) + IpWrites(role, advertised);
    assert ws == OptionWrites(role, v) + later;
    if k >= 6 {
      assert ws[k] == later[k - 6];
    }
  }

  lemma PositionsIncrease(role: string, i: nat, j: nat)
    requires i < j < |Positions(role)|
    ensures Positions(role)[i] < Positions(role)[j] < |Listed()|
    ensures Positions(role)[i] == 6 <==> i == 6
    ensures Positions(role)[j] == 7 <==> j == 7
  {
  }

  lemma PositionInList(role: string, n: nat)
    requires n < |Positions(role)|
    ensures Positions(role)[n] < |Listed()|
  {
  }

  /** `earlier` can precede `later` in a series: it neither takes its key away nor is touched by it. */
  predicate Undisturbed(earlier: Write, later: Write) {
    LeavesRoomFor(earlier, later.key) && Respects(later, earlier.key, Written(earlier.value))
  }

  lemma ApartUndisturbed(earlier: Write, later: Write)
    requires Apart(earlier.key, later.key)
    ensures Undisturbed(earlier, later)
  {
    ApartSpares(earlier.key, later.key);
    var line := Assign(earlier.key, Written(earlier.value));
    assert line == earlier.key + ("=" + Written(earlier.value));
    PrefixMatches(earlier.key, "=" + Written(earlier.value));
    ApartNeverBoth(earlier.key, later.key, line);
    if Matches(later.key + "=", line) {
      LongerMatches(later.key, "=", line);
    }
  }

  lemma TopicValue()
    ensures Written("AutoBalancerMetricsReporterTopic") == "AutoBalancerMetricsReporterTopic"
  {
    BalancerValues();
    EscapingIsExact("AutoBalancerMetricsReporterTopic", "");
  }

  lemma TopicKeyFacts()
    ensures |Listed()[6]| == 18 && |Listed()[7]| > 19 && Listed()[7][18] == '.' && Listed()[7][19] == 'n'
  {
  }

  /** The topic key and the partitions key share their beginning, dot included; what tells them apart is the topic. */
  lemma TopicsUndisturbed(later: Write)
    requires later.key == Listed()[7]
    ensures Undisturbed(AddKey(Listed()[6], "AutoBalancerMetricsReporterTopic"), later)
  {
    hide Written;
    TopicValue();
    TopicKeyFacts();
    var topic, more, value := Listed()[6], Listed()[7], "AutoBalancerMetricsReporterTopic";
    assert value[0] == 'A';
    var line := Assign(topic, value);
    assert line[18] == '=' && line[19] == value[0];
    assert !Matches(more, line);
    if Matches(more + "=", line) {
      LongerMatches(more, "=", line);
    }
    assert (topic + "=")[18] == '=' && (more + "=")[18] == more[18];
    assert Spares(topic, more);
    assert topic != more;
  }

  lemma ListedUndisturbed(role: string, v: Vars, advertised: string, i: nat, j: nat)
    requires KnownRole(role) && i < j < |ListedWrites(role, v, advertised)|
    ensures Undisturbed(ListedWrites(role, v, advertised)[i], ListedWrites(role, v, advertised)[j])
  {
    hide Listed, ListedWrites, Undisturbed, Positions, Apart;
    WritesAtPositions(role, v, advertised);
    PositionsIncrease(role, i, j);
    var ws := ListedWrites(role, v, advertised);
    if i == 6 && j == 7 {
      TopicsUndisturbed(ws[7]);
    } else {
      ListedApart(Positions(role)[i], Positions(role)[j]);
      ApartUndisturbed(ws[i], ws[j]);
    }
  }

  lemma ListedAreWrites(role: string, v: Vars, advertised: string)
    requires KnownRole(role) && PlainVars(v) && SedPlain(advertised)
    ensures AreWrites(ListedWrites(role, v, advertised))
  {
    hide IsWrite, RoleWrites, IpWrites;
    RoleWritesAreWrites(role, v);
    IpWritesAreWrites(role, advertised);
  }

  lemma ListedAreTame(role: string, v: Vars, advertised: string)
    ensures forall k :: 0 <= k < |ListedWrites(role, v, advertised)| ==> IsTame(ListedWrites(role, v, advertised)[k])
  {
    hide IsTame, OptionWrites, BalancerWrites, IpWrites;
    OptionWritesAreTame(role, v);
    LaterWritesAreTame(role, advertised);
    assert ListedWrites(role, v, advertised) == OptionWrites(role, v) + (BalancerWrites(role) + IpWrites(role,
        advertised));
  }

  /******* The file *******/

  /** A file the script can work on: it has every key that is only rewritten, and no key that only begins like one
      that may be added. */
  ghost predicate Prepared(lines: Lines, ws: seq<Write>) {
    forall k :: 0 <= k < |ws| ==> Has(lines, ws[k].key) || (ws[k].AddKey? && Fresh(lines, ws[k].key))
  }

  /** No environment setting's key can be mistaken for a listed one. */
  ghost predicate Unmistakable(cfg: seq<(string, string)>, ws: seq<Write>) {
    forall k, j :: 0 <= k < |cfg| && 0 <= j < |ws| ==> KeyOf(cfg[k].0) == ws[j].key || Spares(KeyOf(cfg[k].0),
        ws[j].key)
  }

  /** The value of the last setting whose variable maps to the key. */
  function LastSetting(cfg: seq<(string, string)>, key: string): Option<string> {
    if cfg == [] then None
    else if KeyOf(cfg[|cfg| - 1].0) == key then Some(cfg[|cfg| - 1].1)
    else LastSetting(cfg[..|cfg| - 1], key)
  }

  lemma {:induction false} LastSettingAt(cfg: seq<(string, string)>, key: string, i: nat)
    requires i < |cfg| && KeyOf(cfg[i].0) == key && forall k :: i < k < |cfg| ==> KeyOf(cfg[k].0) != key
    ensures LastSetting(cfg, key) == Some(cfg[i].1)
  {
    hide KeyOf;
    if i < |cfg| - 1 {
      LastSettingAt(cfg[..|cfg| - 1], key, i);
    }
  }

  /** The writes the script makes of its environment end with the same value. */
  lemma {:induction false} LastSettingIs(cfg: seq<(string, string)>, key: string)
    ensures LastFor(EnvWrites(cfg), key) == LastSetting(cfg, key)
  {
    hide KeyOf;
    if cfg != [] {
      LastSettingIs(cfg[..|cfg| - 1], key);
      assert EnvWrites(cfg)[..|cfg| - 1] == EnvWrites(cfg[..|cfg| - 1]);
    }
  }

  /** The value a key ends up with: the environment's last word on it, else the script's. */
  function Effective(cfg: seq<(string, string)>, w: Write): string {
    match LastSetting(cfg, w.key)
    case Some(value) => value
    case None => w.value
  }

  /** The final file: every listed key has its value, or the one the environment gives it. */
  lemma FinalFile(lines: Lines, role: string, v: Vars, advertised: string, cfg: seq<(string, string)>, i: nat)
    requires KnownRole(role) && PlainVars(v) && SedPlain(advertised) && IsConfiguration(cfg)
    requires i < |ListedWrites(role, v, advertised)|
    requires Prepared(lines, ListedWrites(role, v, advertised)) && Unmistakable(cfg, ListedWrites(role, v, advertised))
    ensures AreWrites(ListedWrites(role, v, advertised)) && AreWrites(EnvWrites(cfg))
    ensures var w := ListedWrites(role, v, advertised)[i];
            Maps(ApplyAll(ApplyAll(lines, ListedWrites(role, v, advertised)), EnvWrites(cfg)), w.key,
                Written(Effective(cfg, w)))
  {
    hide ListedWrites, LeavesRoomFor, Respects, Has, Fresh, Spares, KeyOf, IsConfiguration, ApplyAll, Written, IsKey,
         SedPlain, Maps;
    LastSettingIs(cfg, ListedWrites(role, v, advertised)[i].key);
    ListedAreTame(role, v, advertised);
    ListedAreWrites(role, v, advertised);
    EnvWritesAreWrites(cfg);
    var ws := ListedWrites(role, v, advertised);
    forall k | 0 <= k < i ensures LeavesRoomFor(ws[k], ws[i].key) {
      ListedUndisturbed(role, v, advertised, k, i);
    }
    forall k | i < k < |ws| ensures Respects(ws[k], ws[i].key, Written(ws[i].value)) {
      ListedUndisturbed(role, v, advertised, i, k);
    }
    SeriesMaps(lines, ws, i);
    assert IsWrite(ws[i]);
    forall k | 0 <= k < |EnvWrites(cfg)| ensures EnvWrites(cfg)[k].key == ws[i].key || Spares(EnvWrites(cfg)[k].key,
        ws[i].key) {
      assert EnvWrites(cfg)[k] == EnvWrite(cfg[k]);
    }
    OverridesMap(ApplyAll(lines, ws), EnvWrites(cfg), ws[i].key, ws[i].value);
  }

  /******* The role, written to run.info and read back *******/

  lemma {:induction false} NoInitialNoPart(a: string, b: string)
    requires 'r' !in a
    ensures Contains(a + b, "role") <==> Contains(b, "role")
  {
    if a == "" {
      assert a + b == b;
    } else {
      assert (a + b)[1..] == a[1..] + b;
      NoInitialNoPart(a[1..], b);
      assert (a + b)[0] == a[0] && "role"[0] == 'r';
    }
  }

  /** Only line `k` mentions a role. */
  predicate OnlyLine(lines: Lines, k: nat) {
    k < |lines| && Assigns(lines[k], "role") && forall j :: 0 <= j < |lines| && j != k ==> !Contains(lines[j], "role")
  }

  lemma MatchedMentionsRole(line: string)
    requires Matches("role=", line)
    ensures Contains(line, "role")
  {
    assert forall k :: 0 <= k < 4 ==> "role="[k] == line[k] && "role"[k] == "role="[k];
    assert "role" <= line;
  }

  /** A write to another key leaves the role line alone and mentions no role elsewhere. */
  lemma OtherWriteKeepsRole(lines: Lines, k: nat, key: string, value: string)
    requires OnlyLine(lines, k) && IsKey(key) && SedPlain(value)
    requires Spares(key, "role") && !Contains(Assign(key, Written(value)), "role")
    ensures OnlyLine(Setup(lines, key, value), k) && Setup(lines, key, value)[k] == lines[k]
  {
    RunInfoKeys();
    SparesIsExact(key, "role");
    assert lines[k] == Assign("role", lines[k][5..]);
  }

  lemma RoleWriteSetsRole(lines: Lines, k: nat, value: string)
    requires OnlyLine(lines, k) && SedPlain(value)
    ensures IsKey("role") && OnlyLine(Setup(lines, "role", value), k)
    ensures Setup(lines, "role", value)[k] == Assign("role", Written(value))
  {
    RunInfoKeys();
    assert "role=" == "role" + "=";
    AssignsMatches(lines[k], "role");
    forall j | 0 <= j < |lines| && j != k ensures Setup(lines, "role", value)[j] == lines[j] {
      if Matches("role=", lines[j]) {
        MatchedMentionsRole(lines[j]);
      }
    }
    assert Assign("role", Written(value)) == ("role" + "=") + Written(value);
  }

  lemma {:induction false} NoRoleLines(lines: Lines)
    requires forall j :: 0 <= j < |lines| ==> !Contains(lines[j], "role")
    ensures RoleLines(lines) == []
  {
    if lines != [] {
      NoRoleLines(lines[..|lines| - 1]);
    }
  }

  lemma {:induction false} OneRoleLine(lines: Lines, k: nat, role: string)
    requires OnlyLine(lines, k) && lines[k] == Assign("role", role) && '=' !in role
    ensures RoleLines(lines) == [role]
  {
    hide SplitAt, Contains;
    var n := |lines| - 1;
    if k == n {
      NoRoleLines(lines[..n]);
      RoleFields(role);
    } else {
      OneRoleLine(lines[..n], k, role);
    }
  }

  lemma RoleFields(role: string)
    requires '=' !in role
    ensures SplitAt(Assign("role", role), '=') == ["role", role] && Contains(Assign("role", role), "role")
  {
    assert Assign("role", role) == "role" + ['='] + role;
    SplitAtFirst("role", '=', role);
    SplitAtNone(role, '=');
    assert "role" <= Assign("role", role);
  }

  lemma RunInfoSpares()
    ensures Spares("node.id", "role") && Spares("kafka.base.path", "role") && Spares("kafka.data.path", "role")
    ensures 'r' !in "node.id=" && 'r' !in "kafka.base.path=" && 'r' !in "kafka.data.path=" && 'r' !in DATA_PATH
  {
    ApartAt("node.id", "role", 0);
    ApartAt("kafka.base.path", "role", 0);
    ApartAt("kafka.data.path", "role", 0);
    ApartSpares("node.id", "role");
    ApartSpares("kafka.base.path", "role");
    ApartSpares("kafka.data.path", "role");
  }

  lemma DataPathText()
    ensures SedPlain(DATA_PATH) && '#' !in DATA_PATH && Written(DATA_PATH) == DATA_PATH
  {
    assert SedPlain(DATA_PATH) && '#' !in DATA_PATH;
    hide ReplaceChar;
    NothingToReplace(DATA_PATH, '#', "/#/");
  }

  lemma DataPathLine()
    ensures !Contains(Assign("kafka.data.path", Written(DATA_PATH)), "role") && SedPlain(DATA_PATH)
  {
    hide Written, SedPlain, Spares;
    RunInfoSpares();
    DataPathText();
    assert Assign("kafka.data.path", DATA_PATH) == "kafka.data.path=" + DATA_PATH;
    NoInitialNoPart("kafka.data.path=", DATA_PATH);
    NoInitialNoPart(DATA_PATH, "");
    assert DATA_PATH + "" == DATA_PATH;
  }

  lemma RoleCharacters(role: string)
    requires KnownRole(role)
    ensures role != "" && '#' !in role && '=' !in role && role[|role| - 1] != '\n'
  {
  }

  lemma RolePlain(role: string)
    requires KnownRole(role)
    ensures SedPlain(role)
  {
  }

  lemma KnownRoleText(role: string)
    requires KnownRole(role)
    ensures Written(role) == role && '=' !in role && SedPlain(role) && Chomp(role) == role && role != ""
  {
    RoleCharacters(role);
    RolePlain(role);
    hide KnownRole, SedPlain, ReplaceChar;
    NothingToReplace(role, '#', "/#/");
  }

  /** The role round trip: what is written to run.info is what is read back, if the file has one line that mentions a
      role and neither the node id nor the installation directory does. */
  lemma RoleIsReadBack(lines: Lines, k: nat, v: Vars, kafkaDir: string)
    requires OnlyLine(lines, k) && PlainVars(v) && SedPlain(kafkaDir) && KnownRole(Get(v, "process_role"))
    requires !Contains(Written(Get(v, "node_id")), "role") && !Contains(Written(kafkaDir), "role")
    ensures AreWrites(RunInfoWrites(v, kafkaDir))
    ensures ReadRole(ApplyAll(lines, RunInfoWrites(v, kafkaDir))) == Get(v, "process_role")
  {
    hide Contains, Setup, Written, OnlyLine, IsKey, SedPlain, Get, Spares, SplitAt, KnownRole, Chomp;
    RunInfoWritesAreWrites(v, kafkaDir);
    RunInfoKeys();
    OptionKeys();
    RunInfoSpares();
    DataPathLine();
    var id, role := Get(v, "node_id"), Get(v, "process_role");
    KnownRoleText(role);
    assert Assign("node.id", Written(id)) == "node.id=" + Written(id);
    NoInitialNoPart("node.id=", Written(id));
    assert Assign("kafka.base.path", Written(kafkaDir)) == "kafka.base.path=" + Written(kafkaDir);
    NoInitialNoPart("kafka.base.path=", Written(kafkaDir));
    var l1 := Setup(lines, "node.id", id);
    OtherWriteKeepsRole(lines, k, "node.id", id);
    var l2 := Setup(l1, "role", role);
    RoleWriteSetsRole(l1, k, role);
    var l3 := Setup(l2, "kafka.base.path", kafkaDir);
    OtherWriteKeepsRole(l2, k, "kafka.base.path", kafkaDir);
    var l4 := Setup(l3, "kafka.data.path", DATA_PATH);
    OtherWriteKeepsRole(l3, k, "kafka.data.path", DATA_PATH);
    FourWrites(lines, v, kafkaDir);
    OneRoleLine(l4, k, role);
    assert Join([role], "\n") == role;
  }

  lemma FourWrites(lines: Lines, v: Vars, kafkaDir: string)
    requires AreWrites(RunInfoWrites(v, kafkaDir)) && IsWrite(SetupKey("node.id", Get(v, "node_id")))
    requires IsWrite(SetupKey("role", Get(v, "process_role"))) && IsWrite(SetupKey("kafka.base.path", kafkaDir))
    requires IsWrite(SetupKey("kafka.data.path", DATA_PATH))
    ensures ApplyAll(lines, RunInfoWrites(v, kafkaDir)) ==
            Setup(Setup(Setup(Setup(lines, "node.id", Get(v, "node_id")), "role", Get(v, "process_role")),
                        "kafka.base.path", kafkaDir), "kafka.data.path", DATA_PATH)
  {
    hide Setup, IsWrite, Get;
    var ws := RunInfoWrites(v, kafkaDir);
    assert ws[..4] == ws && ws[..4][..3] == ws[..3] && ws[..3][..2] == ws[..2] && ws[..2][..1] == ws[..1]
        && ws[..1][..0] == [];
    assert ApplyAll(lines, ws[..1]) == Apply(lines, ws[0]);
    assert ApplyAll(lines, ws[..2]) == Apply(ApplyAll(lines, ws[..1]), ws[1]);
    assert ApplyAll(lines, ws[..3]) == Apply(ApplyAll(lines, ws[..2]), ws[2]);
    assert ApplyAll(lines, ws) == Apply(ApplyAll(lines, ws[..3]), ws[3]);
  }

  /******* The whole script *******/

  lemma {:induction false} EditRolesAt(files: Files, v: Vars, n: nat, k: nat)
    requires n <= |ROLES| && HasFiles(files) && PlainVars(v) && k < |ROLES|
    ensures AreWrites(RoleWrites(ROLES[k], v))
    ensures EditRoles(files, v, n)[Properties(ROLES[k])] ==
            if k < n then ApplyAll(files[Properties(ROLES[k])], RoleWrites(ROLES[k],
                v)) else files[Properties(ROLES[k])]
    ensures EditRoles(files, v, n)[RunInfo] == files[RunInfo]
  {
    hide RoleWrites, IsWrite, ApplyAll;
    RolesDiffer();
    RoleWritesAreWrites(ROLES[k], v);
    if n > 0 {
      EditRolesAt(files, v, n - 1, k);
    }
  }

  lemma RolesDiffer()
    ensures ROLES[0] != ROLES[1] && ROLES[0] != ROLES[2] && ROLES[1] != ROLES[2]
    ensures forall role :: KnownRole(role) ==> role in ROLES
  {
    assert ROLES[0][0] == 'b' && ROLES[1][0] == 'c' && ROLES[2][0] == 's';
    assert "broker" == ROLES[0] && "controller" == ROLES[1] && "server" == ROLES[2];
  }

  /** What the script needs to find to get as far as its address. */
  predicate CanConfigure(files: Files, v: Vars, h: Host, k: nat) {
    && HasFiles(files) && PlainVars(v) && PlainHost(h) && !h.running
    && HasRequired(v) && KnownRole(Get(v, "process_role")) && OnlyLine(files[RunInfo], k)
    && !Contains(Written(Get(v, "node_id")), "role") && !Contains(Written(h.kafkaDir), "role")
  }

  /** What the script needs to find, for options `v`, to bring the node up. */
  ghost predicate CanStart(files: Files, v: Vars, h: Host, k: nat) {
    && CanConfigure(files, v, h, k) && Advertised(v, h).Some?
    && var ws := ListedWrites(Get(v, "process_role"), WithDefaults(v), Advertised(v, h).value);
       Prepared(files[Properties(Get(v, "process_role"))], ws) && Unmistakable(h.cfg, ws)
  }

  /** The end-to-end configuration theorem: a script that can start launches the role it was given, and every listed
      key of that role's file has the value intended for it, or the one the environment gives it. */
  lemma ScriptConfiguresNode(files: Files, vars: Vars, args: seq<string>, h: Host, v: Vars, k: nat, i: nat)
    requires ParseOptions(args, vars) == Options(v) && CanStart(files, v, h, k)
    requires i < |ListedWrites(Get(v, "process_role"), WithDefaults(v), Advertised(v, h).value)|
    ensures var role := Get(v, "process_role");
            var (files', up) := UpWith(files, vars, args, h);
            var w := ListedWrites(role, WithDefaults(v), Advertised(v, h).value)[i];
            && up == Launched(role)
            && HasFiles(files')
            && Maps(files'[Properties(role)], w.key, Written(Effective(h.cfg, w)))
  {
    hide ParseOptions, ReadRole, Contains, OnlyLine, RoleWrites, IpWrites, RunInfoWrites, EnvWrites, ListedWrites,
         Prepared, Unmistakable, ApplyAll, IsWrite, Written, Effective, EditRoles, WithDefaults, SedPlain, Get,
         IsConfiguration, Maps;
    var role, d := Get(v, "process_role"), WithDefaults(v);
    ConfigureRuns(files, v, h, k);
    var advertised := Advertised(v, h).value;
    PlainDefaults(v);
    PlainAdvertised(v, h);
    FinalFile(files[Properties(role)], role, d, advertised, h.cfg, i);
    ConfigureFile(files, v, h, k);
  }

  lemma ConfigureRuns(files: Files, v: Vars, h: Host, k: nat)
    requires CanConfigure(files, v, h, k)
    ensures var d := WithDefaults(v);
            && PlainVars(d) && HasFiles(EditRoles(files, d, |ROLES|))
            && Configure(files, v, h) == Finish(WithRunInfo(EditRoles(files, d, |ROLES|), d, h), d, h, Get(v,
                "process_role"))
  {
    hide ReadRole, Contains, OnlyLine, Prepared, Unmistakable, ApplyAll, IsWrite, Written, EditRoles, WithDefaults,
         SedPlain, Get, IsConfiguration, Finish, RunInfoWrites, ListedWrites;
    var d := WithDefaults(v);
    PlainDefaults(v);
    DefaultsKeep(v);
    EditRolesAt(files, d, |ROLES|, 0);
    RoleIsReadBack(files[RunInfo], k, d, h.kafkaDir);
  }

  lemma ConfigureFile(files: Files, v: Vars, h: Host, k: nat)
    requires CanStart(files, v, h, k)
    ensures var role, d, advertised := Get(v, "process_role"), WithDefaults(v), Advertised(v, h).value;
            && AreWrites(ListedWrites(role, d, advertised)) && AreWrites(EnvWrites(h.cfg))
            && Configure(files, v, h).1 == Launched(role) && HasFiles(Configure(files, v, h).0)
            && Configure(files, v, h).0[Properties(role)] ==
               ApplyAll(ApplyAll(files[Properties(role)], ListedWrites(role, d, advertised)), EnvWrites(h.cfg))
  {
    hide ReadRole, Contains, OnlyLine, Prepared, Unmistakable, ApplyAll, IsWrite, Written, EditRoles, WithDefaults,
         SedPlain, Get, IsConfiguration, Configure, RunInfoWrites, RoleWrites, IpWrites, EnvWrites;
    var role, d := Get(v, "process_role"), WithDefaults(v);
    ConfigureRuns(files, v, h, k);
    DefaultsKeep(v);
    PlainAdvertised(d, h);
    var advertised := Advertised(v, h).value;
    assert Advertised(d, h) == Some(advertised);
    IpWritesAreWrites(role, advertised);
    EnvWritesAreWrites(h.cfg);
    RoleWritesAreWrites(role, d);
    RolesDiffer();
    var n :| 0 <= n < |ROLES| && ROLES[n] == role;
    EditRolesAt(files, d, |ROLES|, n);
    ApplyAppend(files[Properties(role)], RoleWrites(role, d), IpWrites(role, advertised));
    assert role != "";
  }

  /******* What the environment says *******/

  /** The environment reaches the file. Take the last setting whose variable maps to a key. If the file has the key,
      and neither the script's own writes nor the other settings can be mistaken for it, the final file has that
      setting's value; if no line begins like the key and it is the only setting of it, the final file has the value
      as given. */
  lemma EnvironmentConfiguresNode(files: Files, vars: Vars, args: seq<string>, h: Host, v: Vars, k: nat, i: nat)
    requires ParseOptions(args, vars) == Options(v) && CanStart(files, v, h, k)
    requires i < |h.cfg| && forall n :: i < n < |h.cfg| ==> KeyOf(h.cfg[n].0) != KeyOf(h.cfg[i].0)
    ensures var (files', up) := UpWith(files, vars, args, h);
            var role, key, value := Get(v, "process_role"), KeyOf(h.cfg[i].0), h.cfg[i].1;
            var ws := ListedWrites(role, WithDefaults(v), Advertised(v, h).value);
            && HasFiles(files') && up == Launched(role)
            && (Has(files[Properties(role)], key) && SparedByAll(ws + EnvWrites(h.cfg), key) ==>
                  Maps(files'[Properties(role)], key, Written(value)))
            && (Fresh(files[Properties(role)], key) && RoomInAll(ws, h.cfg, key, i) ==>
                  Maps(files'[Properties(role)], key, value))
  {
    hide ParseOptions, ReadRole, Contains, OnlyLine, RoleWrites, IpWrites, RunInfoWrites, ListedWrites, Prepared,
         Unmistakable, ApplyAll, IsWrite, Written, EditRoles, WithDefaults, SedPlain, Get, IsConfiguration, Maps, Has,
         Fresh, SparedByAll, RoomInAll, KeyOf, Configure, Advertised;
    var role := Get(v, "process_role");
    var ws := ListedWrites(role, WithDefaults(v), Advertised(v, h).value);
    ConfigureFile(files, v, h, k);
    if SparedByAll(ws + EnvWrites(h.cfg), KeyOf(h.cfg[i].0)) && Has(files[Properties(role)], KeyOf(h.cfg[i].0)) {
      SettingTakes(files[Properties(role)], ws, h.cfg, i);
    }
    if RoomInAll(ws, h.cfg, KeyOf(h.cfg[i].0), i) && Fresh(files[Properties(role)], KeyOf(h.cfg[i].0)) {
      FreshSettingTakes(files[Properties(role)], ws, h.cfg, i);
    }
  }

  /** No write of the series can be mistaken for one of the key. */
  predicate SparedByAll(ws: seq<Write>, key: string) {
    forall k :: 0 <= k < |ws| ==> ws[k].key == key || Spares(ws[k].key, key)
  }

  /** Writes and all other settings leave room for the key. */
  predicate RoomInAll(ws: seq<Write>, cfg: seq<(string, string)>, key: string, i: nat) {
    && (forall k :: 0 <= k < |ws| ==> LeavesRoomFor(ws[k], key))
    && forall k :: 0 <= k < |cfg| && k != i ==> LeavesRoomFor(AddKey(KeyOf(cfg[k].0), cfg[k].1), key)
  }

  lemma SparedRespects(later: Write, key: string, text: string)
    requires IsKey(later.key) && IsKey(key) && later.key != key && Spares(later.key, key)
    ensures Respects(later, key, text)
  {
    SparesIsExact(later.key, key);
  }

  lemma SettingTakes(lines: Lines, ws: seq<Write>, cfg: seq<(string, string)>, i: nat)
    requires AreWrites(ws) && IsConfiguration(cfg) && i < |cfg|
    requires forall n :: i < n < |cfg| ==> KeyOf(cfg[n].0) != KeyOf(cfg[i].0)
    requires Has(lines, KeyOf(cfg[i].0)) && SparedByAll(ws + EnvWrites(cfg), KeyOf(cfg[i].0))
    ensures AreWrites(EnvWrites(cfg))
    ensures Maps(ApplyAll(ApplyAll(lines, ws), EnvWrites(cfg)), KeyOf(cfg[i].0), Written(cfg[i].1))
  {
    hide KeyOf, IsConfiguration, Spares, Written, Has, Maps, ApplyAll, IsKey, SedPlain;
    EnvWritesAreWrites(cfg);
    ApplyAppend(lines, ws, EnvWrites(cfg));
    var all, at := ws + EnvWrites(cfg), |ws| + i;
    assert all[at] == AddKey(KeyOf(cfg[i].0), cfg[i].1);
    forall n | at < n < |all| ensures Respects(all[n], all[at].key, Written(cfg[i].1)) {
      assert all[n].key == KeyOf(cfg[n - |ws|].0);
      SparedRespects(all[n], all[at].key, Written(cfg[i].1));
    }
    LastWriteMaps(lines, all, at);
  }

  lemma FreshSettingTakes(lines: Lines, ws: seq<Write>, cfg: seq<(string, string)>, i: nat)
    requires AreWrites(ws) && IsConfiguration(cfg) && i < |cfg|
    requires Fresh(lines, KeyOf(cfg[i].0)) && RoomInAll(ws, cfg, KeyOf(cfg[i].0), i)
    ensures AreWrites(EnvWrites(cfg))
    ensures Maps(ApplyAll(ApplyAll(lines, ws), EnvWrites(cfg)), KeyOf(cfg[i].0), cfg[i].1)
  {
    hide KeyOf, IsConfiguration, Spares, Written, Fresh, Maps, ApplyAll, IsKey, SedPlain, NeverBegins;
    EnvWritesAreWrites(cfg);
    ApplyAppend(lines, ws, EnvWrites(cfg));
    var all, at := ws + EnvWrites(cfg), |ws| + i;
    assert all[at] == AddKey(KeyOf(cfg[i].0), cfg[i].1);
    forall n | 0 <= n < at ensures LeavesRoomFor(all[n], all[at].key) {
      if n >= |ws| {
        assert all[n] == AddKey(KeyOf(cfg[n - |ws|].0), cfg[n - |ws|].1);
      }
    }
    forall n | at < n < |all| ensures Respects(all[n], all[at].key, cfg[i].1) {
      assert all[n] == AddKey(KeyOf(cfg[n - |ws|].0), cfg[n - |ws|].1);
      SparedRespects(all[n], all[at].key, cfg[i].1);
    }
    OnlyWriteMaps(lines, all, at);
  }

  /******* Other outcomes *******/

  /** An address service that does not answer stops the script; so does an option that is missing, before any edit;
      and a broker that is running already is left alone. */
  lemma NoAnswerStops(files: Files, v: Vars, h: Host, k: nat)
    requires CanConfigure(files, v, h, k) && Get(v, "OPERATOR_APIS_ADDR") != ""
    requires h.nodeIP == None || h.nodeIP == Some("")
    ensures Configure(files, v, h).1 == Stopped
  {
    hide ReadRole, Contains, OnlyLine, EditRoles, WithRunInfo, WithDefaults, SedPlain, Get, IsConfiguration, Written,
         Configure;
    ConfigureRuns(files, v, h, k);
    DefaultsKeep(v);
  }

  lemma MissingOptionStops(files: Files, v: Vars, h: Host)
    requires HasFiles(files) && PlainVars(v) && PlainHost(h) && !h.running
    requires "" in {Get(v, "node_id"), Get(v, "process_role"), Get(v, "quorum_voters"), Get(v, "s3_bucket"),
                    Get(v, "s3_endpoint"), Get(v, "s3_path_style")}
    ensures Configure(files, v, h) == (files, Stopped)
  {
    hide EditRoles, WithRunInfo, WithDefaults, SedPlain, Get, IsConfiguration, Finish;
  }

  /** Without heap options to fall back on, an unknown role stops the script before it touches run.info. */
  lemma UnknownRoleStops(files: Files, v: Vars, h: Host)
    requires HasFiles(files) && PlainVars(v) && PlainHost(h) && !h.running && HasRequired(v)
    requires Get(v, "KAFKA_HEAP_OPTS") == ""
    requires Get(v, "process_role") != "broker" && Get(v, "process_role") != "controller"
             && Get(v, "process_role") != "server"
    ensures var (files', up) := Configure(files, v, h);
            up == Stopped && RunInfo in files' && files'[RunInfo] == files[RunInfo]
  {
    assert !IsDefaulted("KAFKA_HEAP_OPTS") by {
      assert "KAFKA_HEAP_OPTS"[0] == 'K';
      assert "cluster_id"[0] == 'c' && "s3_region"[0] == 's' && "s3_access_key"[0] == 's' && "s3_secret_key"[0] == 's';
    }
    hide EditRoles, WithRunInfo, WithDefaults, SedPlain, Get, IsConfiguration, Finish, IsDefaulted;
    PlainDefaults(v);
    DefaultsKeep(v);
    DefaultsKeepOther(v, "KAFKA_HEAP_OPTS");
    EditRolesAt(files, WithDefaults(v), |ROLES|, 0);
  }

  lemma RunningIsLeftAlone(files: Files, v: Vars, h: Host)
    requires HasFiles(files) && PlainVars(v) && PlainHost(h) && h.running
    ensures Configure(files, v, h) == (files, AlreadyRunning)
  {
    hide EditRoles, WithRunInfo, WithDefaults, SedPlain, Get, IsConfiguration, Finish;
  }

  /******* The writes themselves *******/

  lemma BucketUrlIs(v: Vars)
    ensures BucketUrl(v) ==
            "0@s3://" + Get(v, "s3_bucket") + "?region=" + Get(v, "s3_region") + "&endpoint=" + Get(v, "s3_endpoint")
            + "&authType=static&pathStyle=" + Get(v, "s3_path_style")
  {
    hide Get;
  }

  lemma PathsAre(role: string)
    ensures LogDir(role) == "/data/kafka/kraft-" + role + "-logs"
    ensures WalPath() == "0@file:///data/kafka/wal?capacity=2147483648"
  {
    assert DATA_PATH + "/kraft-" == "/data/kafka/kraft-";
    assert "0@file://" + DATA_PATH == "0@file:///data/kafka";
  }

  lemma ReporterIs()
    ensures REPORTER == "kafka.autobalancer.metricsreporter.AutoBalancerMetricsReporter"
  {
  }

  lemma BalancerWritesAre(role: string)
    ensures var all := [ AddKey("autobalancer.topic", "AutoBalancerMetricsReporterTopic"),
                         AddKey("autobalancer.topic.num.partitions", "1") ];
            var controller := [ AddKey("autobalancer.controller.enable", "true"),
                                AddKey("autobalancer.controller.exclude.topics", "__consumer_offsets") ];
            var broker := [ AddKey("metric.reporters",
                                   "kafka.autobalancer.metricsreporter.AutoBalancerMetricsReporter") ];
            BalancerWrites(role) ==
            if role == "broker" then all + broker
            else if role == "controller" then all + controller
            else if role == "server" then all + (controller + broker)
            else all
  {
    ReporterIs();
  }

  lemma ListenersAre(role: string, advertised: string)
    requires KnownRole(role)
    ensures PLAINTEXT + "," + CONTROLLER == "PLAINTEXT://0.0.0.0:9092,CONTROLLER://0.0.0.0:9093"
    ensures IpWrites(role, advertised) ==
            if role == "controller" then [SetupKey("listeners", "CONTROLLER://0.0.0.0:9093")]
            else [ SetupKey("listeners", if role == "broker" then "PLAINTEXT://0.0.0.0:9092"
                                         else "PLAINTEXT://0.0.0.0:9092,CONTROLLER://0.0.0.0:9093"),
                   SetupKey("advertised.listeners", "PLAINTEXT://" + advertised) ]
  {
    assert PLAINTEXT + "," == "PLAINTEXT://0.0.0.0:9092,";
  }

  /** The series of writes the script makes to the file of a role, spelled out. */
  lemma ListedWritesAre(role: string, v: Vars, advertised: string)
    requires KnownRole(role)
    ensures var bucket := "0@s3://" + Get(v, "s3_bucket") + "?region=" + Get(v, "s3_region") + "&endpoint="
                + Get(v, "s3_endpoint") + "&authType=static&pathStyle=" + Get(v, "s3_path_style");
            var common := [ SetupKey("node.id", Get(v, "node_id")),
                            SetupKey("controller.quorum.voters", Get(v, "quorum_voters")),
                            SetupKey("s3.data.buckets", bucket), SetupKey("s3.ops.buckets", bucket),
                            SetupKey("log.dirs", "/data/kafka/kraft-" + role + "-logs"),
                            SetupKey("s3.wal.path", "0@file:///data/kafka/wal?capacity=2147483648") ];
            ListedWrites(role, v, advertised) == common + BalancerWrites(role) + IpWrites(role, advertised)
  {
    hide BucketUrl, LogDir, WalPath, BalancerWrites, IpWrites, Get;
    BucketUrlIs(v);
    PathsAre(role);
  }

  /******* run.info *******/

  lemma RunInfoKeysApart()
    ensures Apart("node.id", "role") && Apart("node.id", "kafka.base.path") && Apart("node.id", "kafka.data.path")
    ensures Apart("role", "kafka.base.path") && Apart("role", "kafka.data.path")
    ensures Apart("kafka.base.path", "kafka.data.path")
  {
    ApartAt("node.id", "role", 0);
    ApartAt("node.id", "kafka.base.path", 0);
    ApartAt("node.id", "kafka.data.path", 0);
    ApartAt("role", "kafka.base.path", 0);
    ApartAt("role", "kafka.data.path", 0);
    ApartAt("kafka.base.path", "kafka.data.path", 6);
  }

  /** What run.info says of the node once the script has got as far as its address, if the file has the four keys. */
  lemma RunInfoSays(files: Files, v: Vars, h: Host, k: nat)
    requires CanConfigure(files, v, h, k)
    requires Has(files[RunInfo], "node.id") && Has(files[RunInfo], "role") && Has(files[RunInfo], "kafka.base.path")
    requires Has(files[RunInfo], "kafka.data.path")
    ensures var files' := Configure(files, v, h).0;
            && RunInfo in files'
            && Maps(files'[RunInfo], "node.id", Written(Get(v, "node_id")))
            && Maps(files'[RunInfo], "role", Written(Get(v, "process_role")))
            && Maps(files'[RunInfo], "kafka.base.path", Written(h.kafkaDir))
            && Maps(files'[RunInfo], "kafka.data.path", Written("/data/kafka"))
  {
    hide ReadRole, Contains, OnlyLine, EditRoles, WithDefaults, SedPlain, Get, IsConfiguration, Written, Configure, Has,
         Maps, ApplyAll, IsWrite, RunInfoWrites, IpWrites, EnvWrites;
    var d := WithDefaults(v);
    ConfigureRuns(files, v, h, k);
    DefaultsKeep(v);
    EditRolesAt(files, d, |ROLES|, 0);
    RunInfoWritesAreWrites(d, h.kafkaDir);
    var ws := RunInfoWrites(d, h.kafkaDir);
    RunInfoWritesAre(d, h.kafkaDir);
    RunInfoMaps(files[RunInfo], d, h.kafkaDir, 0);
    RunInfoMaps(files[RunInfo], d, h.kafkaDir, 1);
    RunInfoMaps(files[RunInfo], d, h.kafkaDir, 2);
    RunInfoMaps(files[RunInfo], d, h.kafkaDir, 3);
    assert Configure(files, v, h).0[RunInfo] == ApplyAll(files[RunInfo], ws);
  }

  lemma RunInfoWritesAre(v: Vars, kafkaDir: string)
    ensures RunInfoWrites(v, kafkaDir) ==
            [ SetupKey("node.id", Get(v, "node_id")), SetupKey("role", Get(v, "process_role")),
              SetupKey("kafka.base.path", kafkaDir), SetupKey("kafka.data.path", "/data/kafka") ]
  {
    hide Get;
  }

  lemma RunInfoMaps(lines: Lines, v: Vars, kafkaDir: string, n: nat)
    requires n < 4 && AreWrites(RunInfoWrites(v, kafkaDir))
    requires Has(lines, "node.id") && Has(lines, "role")
    requires Has(lines, "kafka.base.path") && Has(lines, "kafka.data.path")
    ensures var ws := RunInfoWrites(v, kafkaDir);
            |ws| == 4 && Maps(ApplyAll(lines, ws), ws[n].key, Written(ws[n].value))
  {
    hide Get, ApplyAll, IsWrite, Has, Maps, Written, Apart, Spares;
    var ws := RunInfoWrites(v, kafkaDir);
    RunInfoWritesAre(v, kafkaDir);
    RunInfoKeysApart();
    forall a, b | 0 <= a < b < 4 ensures Undisturbed(ws[a], ws[b]) {
      ApartUndisturbed(ws[a], ws[b]);
    }
    LastWriteMaps(lines, ws, n);
  }
}
