/** The command line: what the operator prints into a container's command, and what the shell and the start script
    read there. */
module CommandLine {
  import opened Basics
  import opened AutoMQApi
  import Naming
  import opened Templates
  import opened Quorum
  import opened StartScript

  /******* The shell's reading of the command *******/

  /** Characters the shell leaves alone. */
  predicate IsShellPlain(c: char) {
    'a' <= c <= 'z' || 'A' <= c <= 'Z' || IsDigit(c) || c in {'-', '_', '.', '/', ':', '@', ',', '+', '='}
  }

  predicate IsWord(s: string) {
    s != "" && forall k :: 0 <= k < |s| ==> IsShellPlain(s[k])
  }

  function Flush(word: string): seq<string> {
    if word == "" then [] else [word]
  }

  /** Word splitting of unquoted text: blanks separate, an escaped line end vanishes. */
  function Words(text: string, word: string): seq<string>
    decreases |text|
  {
    if text == "" then Flush(word)
    else if |text| > 1 && text[0] == '\\' && text[1] == '\n' then Words(text[2..], word)
    else if text[0] == ' ' then Flush(word) + Words(text[1..], "")
    else Words(text[1..], word + [text[0]])
  }

  lemma {:induction false} WordRead(w: string, rest: string, word: string)
    requires forall k :: 0 <= k < |w| ==> IsShellPlain(w[k])
    ensures Words(w + rest, word) == Words(rest, word + w)
    decreases |w|
  {
    if w == "" {
      assert w + rest == rest && word + w == word;
    } else {
      assert (w + rest)[1..] == w[1..] + rest;
      assert IsShellPlain((w + rest)[0]);
      WordRead(w[1..], rest, word + [w[0]]);
      assert word + [w[0]] + w[1..] == word + w;
    }
  }

  lemma SeparatorRead(rest: string, word: string)
    requires word != ""
    ensures Words(LINE_JOIN + rest, word) == [word] + Words(rest, "")
  {
    var text := LINE_JOIN + rest;
    assert text[0] == ' ' && text[1..] == ['\\', '\n'] + rest;
    assert (['\\', '\n'] + rest)[2..] == rest;
  }

  /** The shell splits a joined command back into its words. */
  lemma {:induction false} WordsJoin(tokens: seq<string>)
    requires forall k :: 0 <= k < |tokens| ==> IsWord(tokens[k])
    ensures Words(Join(tokens, LINE_JOIN), "") == tokens
  {
    hide Words, IsShellPlain;
    if tokens == [] {
      NoWords("");
    } else if |tokens| == 1 {
      WordRead(tokens[0], "", "");
      assert tokens[0] + "" == tokens[0] && "" + tokens[0] == tokens[0];
      NoWords(tokens[0]);
    } else {
      var rest := Join(tokens[1..], LINE_JOIN);
      assert Join(tokens, LINE_JOIN) == tokens[0] + (LINE_JOIN + rest);
      WordRead(tokens[0], LINE_JOIN + rest, "");
      assert "" + tokens[0] == tokens[0];
      SeparatorRead(rest, tokens[0]);
      WordsJoin(tokens[1..]);
    }
  }

  lemma NoWords(word: string)
    ensures Words("", word) == Flush(word)
  {
  }

  /******* Options in pairs *******/

  function Flatten(pairs: seq<(string, string)>): seq<string> {
    if pairs == [] then [] else [pairs[0].0, pairs[0].1] + Flatten(pairs[1..])
  }

  function VariableOf(option: string): string {
    match OptionVariable(option) case Some(name) => name case None => ""
  }

  function SetAll(vars: Vars, pairs: seq<(string, string)>): Vars
    decreases |pairs|
  {
    if pairs == [] then vars else SetAll(vars[VariableOf(pairs[0].0) := pairs[0].1], pairs[1..])
  }

  predicate DistinctOptions(pairs: seq<(string, string)>) {
    forall j, k :: 0 <= j < k < |pairs| ==> VariableOf(pairs[j].0) != VariableOf(pairs[k].0)
  }

  predicate KnownOptions(pairs: seq<(string, string)>) {
    forall k :: 0 <= k < |pairs| ==> OptionVariable(pairs[k].0).Some?
  }

  predicate Unset(vars: Vars, pairs: seq<(string, string)>) {
    forall k :: 0 <= k < |pairs| ==> Get(vars, VariableOf(pairs[k].0)) == ""
  }

  /** Known options of distinct, unset variables are parsed exactly when every value is an argument; each variable
      then has its value. */
  lemma {:induction false} PairsParse(pairs: seq<(string, string)>, vars: Vars)
    requires KnownOptions(pairs) && DistinctOptions(pairs) && Unset(vars, pairs)
    ensures ParseOptions(Flatten(pairs), vars) ==
            if forall k :: 0 <= k < |pairs| ==> IsArgument(pairs[k].1) then Options(SetAll(vars, pairs)) else Died
    decreases |pairs|
  {
    hide OptionVariable, IsArgument;
    if pairs != [] {
      var args := Flatten(pairs);
      var (option, value) := pairs[0];
      assert args[0] == option && args[1] == value && args[2..] == Flatten(pairs[1..]);
      if IsArgument(value) {
        var vars' := vars[VariableOf(option) := value];
        forall k | 0 <= k < |pairs[1..]| ensures Get(vars', VariableOf(pairs[1..][k].0)) == "" {
          assert pairs[1..][k] == pairs[k + 1];
        }
        PairsParse(pairs[1..], vars');
        assert forall k :: 0 <= k < |pairs[1..]| ==> pairs[1..][k] == pairs[k + 1];
        assert (forall k :: 0 <= k < |pairs[1..]| ==> IsArgument(pairs[1..][k].1)) <==>
               (forall k :: 0 <= k < |pairs| ==> IsArgument(pairs[k].1)) by {
          if forall k :: 0 <= k < |pairs[1..]| ==> IsArgument(pairs[1..][k].1) {
            forall k | 0 <= k < |pairs| ensures IsArgument(pairs[k].1) {
              if k > 0 { assert pairs[1..][k - 1] == pairs[k]; }
            }
          }
        }
      }
    }
  }

  lemma {:induction false} SetAllGets(vars: Vars, pairs: seq<(string, string)>, name: string)
    ensures (forall k :: 0 <= k < |pairs| ==> VariableOf(pairs[k].0) != name) ==>
        Get(SetAll(vars, pairs), name) == Get(vars, name)
    ensures forall k :: 0 <= k < |pairs| && DistinctOptions(pairs) && VariableOf(pairs[k].0) == name ==>
              Get(SetAll(vars, pairs), name) == pairs[k].1
    decreases |pairs|
  {
    hide OptionVariable, VariableOf;
    if pairs != [] {
      var vars' := vars[VariableOf(pairs[0].0) := pairs[0].1];
      SetAllGets(vars', pairs[1..], name);
      assert forall k :: 0 <= k < |pairs[1..]| ==> pairs[1..][k] == pairs[k + 1];
      forall k | 0 <= k < |pairs| && DistinctOptions(pairs) && VariableOf(pairs[k].0) == name
        ensures Get(SetAll(vars, pairs), name) == pairs[k].1
      {
        if k > 0 {
          assert pairs[1..][k - 1] == pairs[k];
        }
      }
    }
  }

  /******* The operator's command *******/

  function OptionPairs(t: Target, role: Naming.Role, i: int): seq<(string, string)> {
    [ ("--process.roles", role.Name()),
      ("--node.id", PrintInt(Naming.NodeId(role, i, t.spec.controller.replicas))),
      ("--cluster.id", t.spec.clusterID),
      ("--controller.quorum.voters", VoterString(t)),
      ("--s3.bucket", t.spec.s3.bucket),
      ("--s3.endpoint", t.spec.s3.endpoint),
      ("--s3.region", t.spec.s3.region),
      ("--s3.path.style", PrintBool(t.spec.s3.enablePathStyle)) ]
  }

  function VoterString(t: Target): string {
    Join(Voters(t.ns, t.spec.controller.replicas), ",")
  }

  /** The variable each option sets, in the operator's order. */
  const VARIABLES := ["process_role", "node_id", "cluster_id", "quorum_voters", "s3_bucket", "s3_endpoint",
      "s3_region", "s3_path_style"]

  lemma FirstOptions()
    ensures OptionVariable("--process.roles") == Some("process_role")
    ensures OptionVariable("--node.id") == Some("node_id")
    ensures OptionVariable("--cluster.id") == Some("cluster_id")
    ensures OptionVariable("--controller.quorum.voters") == Some("quorum_voters")
  {
    assert "--process.roles"[2] == 'p' && "--node.id"[2] == 'n' && "--controller.quorum.voters"[3] == 'o'
        && "--cluster.id"[3] == 'l';
    assert "--s3.region"[2] == 's' && "--s3.bucket"[2] == 's' && "--cluster.id"[2] == 'c'
        && "--controller.quorum.voters"[2] == 'c';
  }

  lemma BucketOptions()
    ensures OptionVariable("--s3.bucket") == Some("s3_bucket")
    ensures OptionVariable("--s3.endpoint") == Some("s3_endpoint")
    ensures OptionVariable("--s3.region") == Some("s3_region")
    ensures OptionVariable("--s3.path.style") == Some("s3_path_style")
  {
    assert "--process.roles"[2] == 'p' && "--node.id"[2] == 'n' && "--controller.quorum.voters"[2] == 'c'
        && "--cluster.id"[2] == 'c';
    assert "--s3.region"[2] == 's' && "--s3.bucket"[2] == 's' && "--s3.access.key"[2] == 's'
        && "--s3.secret.key"[2] == 's'
           && "--s3.endpoint"[2] == 's' && "--s3.path.style"[2] == 's';
    assert "--s3.region"[5] == 'r' && "--s3.bucket"[5] == 'b' && "--s3.access.key"[5] == 'a'
        && "--s3.secret.key"[5] == 's'
           && "--s3.endpoint"[5] == 'e' && "--s3.path.style"[5] == 'p';
  }

  lemma KeyOptions()
    ensures OptionVariable("--s3.access.key") == Some("s3_access_key")
    ensures OptionVariable("--s3.secret.key") == Some("s3_secret_key")
  {
    assert "--process.roles"[2] == 'p' && "--node.id"[2] == 'n' && "--controller.quorum.voters"[2] == 'c'
        && "--cluster.id"[2] == 'c' && "--s3.region"[5] == 'r' && "--s3.bucket"[5] == 'b';
    assert "--s3.access.key"[2] == 's' && "--s3.secret.key"[2] == 's' && "--s3.access.key"[5] == 'a'
        && "--s3.secret.key"[5] == 's';
  }

  /** The script knows ten options, and which variable each sets. */
  lemma OptionsAreExact(arg: string)
    ensures var options := [
                ("--process.roles", "process_role"), ("--node.id", "node_id"), ("--cluster.id", "cluster_id"),
                ("--controller.quorum.voters", "quorum_voters"), ("--s3.bucket", "s3_bucket"),
                ("--s3.endpoint", "s3_endpoint"), ("--s3.region", "s3_region"), ("--s3.path.style", "s3_path_style"),
                ("--s3.access.key", "s3_access_key"), ("--s3.secret.key", "s3_secret_key") ];
            && (forall k :: 0 <= k < 10 ==> OptionVariable(options[k].0) == Some(options[k].1))
            && ((forall k :: 0 <= k < 10 ==> options[k].0 != arg) ==> OptionVariable(arg) == None)
  {
    FirstOptions();
    BucketOptions();
    KeyOptions();
    var names := ["--process.roles", "--node.id", "--cluster.id", "--controller.quorum.voters", "--s3.bucket",
                  "--s3.endpoint", "--s3.region", "--s3.path.style", "--s3.access.key", "--s3.secret.key"];
    if arg !in names {
      UnknownOption(arg, names);
    }
    hide OptionVariable;
    var options := [
        ("--process.roles", "process_role"), ("--node.id", "node_id"), ("--cluster.id", "cluster_id"),
        ("--controller.quorum.voters", "quorum_voters"), ("--s3.bucket", "s3_bucket"),
        ("--s3.endpoint", "s3_endpoint"), ("--s3.region", "s3_region"), ("--s3.path.style", "s3_path_style"),
        ("--s3.access.key", "s3_access_key"), ("--s3.secret.key", "s3_secret_key") ];
    assert forall k :: 0 <= k < 10 ==> options[k].0 == names[k];
  }

  lemma UnknownOption(arg: string, names: seq<string>)
    requires names == ["--process.roles", "--node.id", "--cluster.id", "--controller.quorum.voters", "--s3.bucket",
                       "--s3.endpoint", "--s3.region", "--s3.path.style", "--s3.access.key", "--s3.secret.key"]
    requires arg !in names
    ensures OptionVariable(arg) == None
  {
    assert arg != names[0] && arg != names[1] && arg != names[2] && arg != names[3] && arg != names[4]
        && arg != names[5] && arg != names[6] && arg != names[7] && arg != names[8] && arg != names[9];
  }

  /** A value is taken once, and only if there is one that does not look like an option. */
  lemma SetOnceIsExact(vars: Vars, name: string, value: string)
    ensures SetOnce(vars, name, value) ==
            if (name in vars && vars[name] != "") || value == "" || value[0] == '-' then None
            else Some(vars[name := value])
  {
  }

  /** An option without a value kills the script; an argument that is no option stops the loop for good. */
  lemma StrayArguments(arg: string, rest: seq<string>, vars: Vars)
    ensures OptionVariable(arg).Some? ==> ParseOptions([arg], vars) == Died && Round(At([arg], vars)) == Dead
    ensures OptionVariable(arg) == None ==>
              ParseOptions([arg] + rest, vars) == Spins(arg) && Round(At([arg] + rest, vars)) == At([arg] + rest, vars)
  {
    hide OptionVariable;
  }

  lemma PairVariables(t: Target, role: Naming.Role, i: int, k: nat)
    requires k < 8
    ensures OptionVariable(OptionPairs(t, role, i)[k].0) == Some(VARIABLES[k])
  {
    FirstOptions();
    BucketOptions();
    hide OptionVariable, PrintInt, VoterString, Naming.NodeId;
  }

  const TAG0 := "pncqssss"
  const TAG3 := "cesrberp"

  lemma VariableTags(k: nat)
    requires k < 8
    ensures |VARIABLES[k]| > 3 && VARIABLES[k][0] == TAG0[k] && VARIABLES[k][3] == TAG3[k]
  {
  }

  lemma TagsDiffer(j: nat, k: nat)
    requires j < k < 8
    ensures TAG0[j] != TAG0[k] || TAG3[j] != TAG3[k]
  {
  }

  lemma PairsAreOptions(t: Target, role: Naming.Role, i: int)
    ensures KnownOptions(OptionPairs(t, role, i)) && DistinctOptions(OptionPairs(t, role, i))
        && |OptionPairs(t, role, i)| == 8
  {
    hide OptionVariable, OptionPairs;
    PairCount(t, role, i);
    var pairs := OptionPairs(t, role, i);
    forall k | 0 <= k < |pairs| ensures OptionVariable(pairs[k].0).Some? {
      PairVariables(t, role, i, k);
    }
    forall j, k | 0 <= j < k < |pairs| ensures VariableOf(pairs[j].0) != VariableOf(pairs[k].0) {
      PairVariables(t, role, i, j);
      PairVariables(t, role, i, k);
      VariableTags(j);
      VariableTags(k);
      TagsDiffer(j, k);
    }
  }

  lemma PairCount(t: Target, role: Naming.Role, i: int)
    ensures |OptionPairs(t, role, i)| == 8
  {
  }

  /******* Which resources can be started *******/

  /** Plain text that does not look like an option. */
  predicate IsPlainValue(s: string) {
    IsWord(s) && s[0] != '-'
  }

  /** Every value the command line carries is plain; a resource that passes admission has none that is empty. */
  predicate Startable(t: Target) {
    IsPlainValue(t.spec.clusterID) && IsPlainValue(t.spec.s3.bucket) && IsPlainValue(t.spec.s3.endpoint)
    && IsPlainValue(t.spec.s3.region) && IsDnsLabel(t.ns) && t.spec.controller.replicas >= 1
  }

  /** Shell-plain text that is no option, if there is any text. */
  predicate IsHarmless(s: string) {
    s != "" ==> IsPlainValue(s)
  }

  /** Admission rules out the empty values: an admitted resource with harmless values, in a properly named namespace,
      can be started. */
  lemma AdmittedIsStartable(t: Target)
    requires Validate(t.spec) == Admitted && SchemaOk(t.spec) && IsDnsLabel(t.ns)
    requires IsHarmless(t.spec.clusterID) && IsHarmless(t.spec.s3.bucket) && IsHarmless(t.spec.s3.endpoint)
             && IsHarmless(t.spec.s3.region)
    ensures Startable(t)
  {
    hide IsPlainValue, IsDnsLabel;
  }

  lemma PrintedIntIsWord(n: int)
    ensures IsWord(PrintInt(n)) && (PrintInt(n)[0] == '-' <==> n < 0)
  {
    hide ParseInt;
  }

  lemma WordsConcatenate(a: string, b: string)
    requires IsWord(a) && IsWord(b)
    ensures IsWord(a + b) && (a + b)[0] == a[0]
  {
  }

  lemma HostIsWord(ns: string, i: int)
    requires IsDnsLabel(ns)
    ensures IsWord(VoterHost(ns, i))
  {
    hide ParseInt, Naming.ParseName, Naming.IndexedName, PrintInt;
    Naming.ControllerNameIs(i);
    PrintedIntIsWord(i);
    assert IsWord(Naming.CONTROLLER_PREFIX) && IsWord(ns) && IsWord(".") && IsWord(".svc");
    hide IsWord;
    WordsConcatenate(Naming.CONTROLLER_PREFIX, PrintInt(i));
    WordsConcatenate(Naming.IndexedName(Naming.Controller, i), ".");
    WordsConcatenate(Naming.IndexedName(Naming.Controller, i) + ".", ns);
    WordsConcatenate(Naming.IndexedName(Naming.Controller, i) + "." + ns, ".svc");
  }

  lemma VoterIsWord(ns: string, i: nat)
    requires IsDnsLabel(ns)
    ensures IsWord(Voter(ns, i)) && Voter(ns, i)[0] != '-'
  {
    hide ParseInt, PrintInt, VoterHost;
    PrintedIntIsWord(i);
    PrintedIntIsWord(CONTROLLER_PORT);
    HostIsWord(ns, i);
    assert IsWord("@") && IsWord(":");
    hide IsWord;
    WordsConcatenate(PrintInt(i), "@");
    WordsConcatenate(PrintInt(i) + "@", VoterHost(ns, i));
    WordsConcatenate(PrintInt(i) + "@" + VoterHost(ns, i), ":");
    WordsConcatenate(PrintInt(i) + "@" + VoterHost(ns, i) + ":", PrintInt(CONTROLLER_PORT));
  }

  lemma {:induction false} JoinIsWord(parts: seq<string>)
    requires parts != [] && forall k :: 0 <= k < |parts| ==> IsWord(parts[k])
    ensures IsWord(Join(parts, ",")) && parts[0] != "" && Join(parts, ",")[0] == parts[0][0]
  {
    if |parts| > 1 {
      JoinIsWord(parts[1..]);
      assert IsWord(",");
      hide IsWord;
      WordsConcatenate(parts[0], ",");
      WordsConcatenate(parts[0] + ",", Join(parts[1..], ","));
    }
  }

  lemma VoterStringIsValue(t: Target)
    requires Startable(t)
    ensures IsPlainValue(VoterString(t))
  {
    hide IsWord, IsDnsLabel, Voter;
    var voters := Voters(t.ns, t.spec.controller.replicas);
    forall k | 0 <= k < |voters| ensures IsWord(voters[k]) {
      VoterIsWord(t.ns, k);
    }
    JoinIsWord(voters);
    VoterIsWord(t.ns, 0);
    WordNotEmpty(voters[0]);
  }

  lemma WordNotEmpty(s: string)
    requires IsWord(s)
    ensures s != ""
  {
  }

  lemma RoleAndFlagAreValues(role: Naming.Role, b: bool)
    ensures IsPlainValue(role.Name()) && IsPlainValue(PrintBool(b))
  {
  }

  /** Every value of the command line is a plain word; only a negative node id looks like an option. */
  lemma PairValues(t: Target, role: Naming.Role, i: int, k: nat)
    requires Startable(t) && k < 8
    ensures var value := OptionPairs(t, role, i)[k].1;
            && IsWord(value)
            && (IsArgument(value) <==> (k == 1 ==> Naming.NodeId(role, i, t.spec.controller.replicas) >= 0))
  {
    hide IsWord, PrintInt, VoterString, Naming.NodeId, PrintBool, IsDnsLabel;
    VoterStringIsValue(t);
    RoleAndFlagAreValues(role, t.spec.s3.enablePathStyle);
    PrintedIntIsWord(Naming.NodeId(role, i, t.spec.controller.replicas));
    WordNotEmpty(OptionPairs(t, role, i)[k].1);
  }

  /******* The command line round trip *******/

  lemma OptionNamesAreWords(k: nat)
    requires k < 8
    ensures IsWord(OPTION_NAMES[k])
  {
    LongOptionName();
  }

  const OPTION_NAMES := ["--process.roles", "--node.id", "--cluster.id", "--controller.quorum.voters", "--s3.bucket",
      "--s3.endpoint",
                         "--s3.region", "--s3.path.style"]

  lemma LongOptionName()
    ensures IsWord("--controller.quorum.voters")
  {
  }

  lemma {:induction false} FlattenAt(pairs: seq<(string, string)>, k: nat)
    requires k < |pairs|
    ensures |Flatten(pairs)| == 2 * |pairs| && Flatten(pairs)[2 * k] == pairs[k].0
        && Flatten(pairs)[2 * k + 1] == pairs[k].1
  {
    if |pairs| > 1 {
      FlattenAt(pairs[1..], if k > 0 then k - 1 else 0);
    }
  }

  lemma OptionTokenAt(t: Target, role: Naming.Role, i: int, k: nat)
    requires k < 8
    ensures |OptionTokens(t, role, i)| == 16
    ensures OptionTokens(t, role, i)[2 * k] == OptionPairs(t, role, i)[k].0
    ensures OptionTokens(t, role, i)[2 * k + 1] == OptionPairs(t, role, i)[k].1
  {
    hide PrintInt, Naming.NodeId, PrintBool, Join, Voters;
  }

  lemma OptionsFlatten(t: Target, role: Naming.Role, i: int)
    ensures OptionTokens(t, role, i) == Flatten(OptionPairs(t, role, i))
  {
    hide OptionTokens, OptionPairs, Flatten;
    PairCount(t, role, i);
    OptionTokenAt(t, role, i, 0);
    FlattenAt(OptionPairs(t, role, i), 0);
    forall j | 0 <= j < 16 ensures OptionTokens(t, role, i)[j] == Flatten(OptionPairs(t, role, i))[j] {
      OptionTokenAt(t, role, i, j / 2);
      FlattenAt(OptionPairs(t, role, i), j / 2);
    }
  }

  /** The variables of a node's script once its options are parsed. */
  function NodeVars(t: Target, role: Naming.Role, i: int, vars: Vars): Vars {
    SetAll(vars, OptionPairs(t, role, i))
  }

  /** No option variable is set in the container's environment. */
  predicate FreshShell(vars: Vars) {
    forall k :: 0 <= k < |VARIABLES| ==> Get(vars, VARIABLES[k]) == ""
  }

  /** The command line round trip. The shell splits the container command of a node into the script, `up` and the
      operator's options, and the script's loop reads those options to the end, each set once to its value; it dies
      exactly when the node id is negative. */
  lemma CommandRoundTrip(t: Target, role: Naming.Role, i: int, port: int, vars: Vars)
    requires Startable(t) && FreshShell(vars)
    ensures Words(PodTemplate(t, role, i, port).command, "") == [START_SCRIPT, "up"] + OptionTokens(t, role, i)
    ensures ParseOptions(OptionTokens(t, role, i), vars) ==
            if Naming.NodeId(role, i, t.spec.controller.replicas) >= 0 then Options(NodeVars(t, role, i,
                vars)) else Died
  {
    CommandSplits(t, role, i);
    hide OptionPairs, OptionVariable, IsWord, Words, OptionTokens, IsArgument, SetAll, ParseOptions, Startable,
         Naming.NodeId, TemplateEnv, TemplateAnnotations, Naming.NodeLabels;
    var pairs := OptionPairs(t, role, i);
    PairsAreOptions(t, role, i);
    OptionsFlatten(t, role, i);
    forall k | 0 <= k < |pairs| ensures Get(vars, VariableOf(pairs[k].0)) == "" {
      PairVariables(t, role, i, k);
    }
    PairsParse(pairs, vars);
    forall k | 0 <= k < |pairs|
      ensures IsArgument(pairs[k].1) <==> (k == 1 ==> Naming.NodeId(role, i, t.spec.controller.replicas) >= 0)
    {
      PairValues(t, role, i, k);
    }
    assert IsArgument(pairs[1].1) <==> Naming.NodeId(role, i, t.spec.controller.replicas) >= 0;
  }

  lemma CommandSplits(t: Target, role: Naming.Role, i: int)
    requires Startable(t)
    ensures Words(Join(CommandTokens(t, role, i), LINE_JOIN), "") == [START_SCRIPT, "up"] + OptionTokens(t, role, i)
  {
    hide OptionPairs, IsWord, Words, OptionTokens, Join, Startable;
    OptionsFlatten(t, role, i);
    PairCount(t, role, i);
    var tokens := CommandTokens(t, role, i);
    var pairs := OptionPairs(t, role, i);
    forall k | 0 <= k < |pairs| ensures IsWord(pairs[k].0) && IsWord(pairs[k].1) {
      PairNames(t, role, i, k);
      OptionNamesAreWords(k);
      PairValues(t, role, i, k);
    }
    FlattenWords(pairs);
    ScriptWords();
    WordsJoin(tokens);
  }

  lemma PairNames(t: Target, role: Naming.Role, i: int, k: nat)
    requires k < 8
    ensures OptionPairs(t, role, i)[k].0 == OPTION_NAMES[k]
  {
    hide PrintInt, VoterString, Naming.NodeId, PrintBool;
  }

  lemma ScriptWords()
    ensures IsWord(START_SCRIPT) && IsWord("up")
  {
  }

  lemma {:induction false} FlattenWords(pairs: seq<(string, string)>)
    requires forall k :: 0 <= k < |pairs| ==> IsWord(pairs[k].0) && IsWord(pairs[k].1)
    ensures forall k :: 0 <= k < |Flatten(pairs)| ==> IsWord(Flatten(pairs)[k])
  {
    hide IsWord;
    if pairs != [] {
      assert forall k :: 0 <= k < |pairs[1..]| ==> pairs[1..][k] == pairs[k + 1];
      FlattenWords(pairs[1..]);
    }
  }

  /** What the options say about a node. */
  lemma NodeVarsAre(t: Target, role: Naming.Role, i: int, vars: Vars)
    requires Startable(t)
    ensures var v := NodeVars(t, role, i, vars);
            && Get(v, "process_role") == role.Name()
            && Get(v, "node_id") == PrintInt(Naming.NodeId(role, i, t.spec.controller.replicas))
            && Get(v, "quorum_voters") == VoterString(t) && Get(v, "cluster_id") == t.spec.clusterID
            && Get(v, "s3_bucket") == t.spec.s3.bucket && Get(v, "s3_endpoint") == t.spec.s3.endpoint
            && Get(v, "s3_region") == t.spec.s3.region && Get(v, "s3_path_style") ==
                PrintBool(t.spec.s3.enablePathStyle)
            && HasRequired(v) && KnownRole(Get(v, "process_role"))
  {
    hide OptionVariable, IsWord, SetAll, Startable, Naming.NodeId, PrintInt, VoterString, PrintBool, Get;
    var v := NodeVars(t, role, i, vars);
    PairsAreOptions(t, role, i);
    forall k | 0 <= k < 8 ensures Get(v, VARIABLES[k]) == OptionPairs(t, role, i)[k].1 != "" {
      PairVariables(t, role, i, k);
      SetAllGets(vars, OptionPairs(t, role, i), VARIABLES[k]);
      PairValues(t, role, i, k);
      WordNotEmpty(OptionPairs(t, role, i)[k].1);
    }
    assert Get(v, VARIABLES[2]) == t.spec.clusterID;
    assert Get(v, VARIABLES[0]) == role.Name() && Get(v, VARIABLES[1]) != "" && Get(v, VARIABLES[3]) != ""
        && Get(v, VARIABLES[4]) != ""
           && Get(v, VARIABLES[5]) != "" && Get(v, VARIABLES[6]) != "" && Get(v, VARIABLES[7]) != "";
  }

  /** Every node of a resource gets past its option loop exactly when there are at most 2^31 nodes. */
  lemma AllNodesParse(t: Target, vars: Vars)
    requires Startable(t) && FreshShell(vars) && t.spec.broker.replicas >= 1
    ensures (forall role, i :: 0 <= i < t.Replicas(role) ==> ParseOptions(OptionTokens(t, role, i), vars).Options?) <==>
            t.spec.controller.replicas + t.spec.broker.replicas <= 0x8000_0000
  {
    hide ParseOptions, OptionTokens, FreshShell, IsPlainValue, IsDnsLabel, PodTemplate, Words;
    forall role, i ensures ParseOptions(OptionTokens(t, role, i), vars).Options? <==>
                           Naming.NodeId(role, i, t.spec.controller.replicas) >= 0 {
      CommandRoundTrip(t, role, i, 0, vars);
    }
    Naming.NodeIdsAreNonNegative(t.spec.controller.replicas, t.spec.broker.replicas);
  }
}
