/** From KAFKA_CFG_ variables to property keys (defaults/up.sh, configure_from_environment_variables). */
module EnvKeys {
  import opened Basics
  import opened ConfigFile

  const PREFIX := "KAFKA_CFG_"

  function ToLower(c: char): char {
    if 'A' <= c <= 'Z' then (c as int + 32) as char else c
  }

  function ToUpper(c: char): char {
    if 'a' <= c <= 'z' then (c as int - 32) as char else c
  }

  /** `sed 's/from/to/g'` for a literal `from`. */
  function ReplaceAll(s: string, from: string, to: string): string
    requires from != ""
    decreases |s|
  {
    if s == "" then ""
    else if from <= s then to + ReplaceAll(s[|from|..], from, to)
    else [s[0]] + ReplaceAll(s[1..], from, to)
  }

  /** Underscores to dots, then lower case. */
  function Dotted(s: string): (r: string)
    ensures |r| == |s|
    ensures forall k :: 0 <= k < |s| ==> r[k] == ToLower(if s[k] == '_' then '.' else s[k])
  {
    if s == "" then ""
    else Dotted(s[..|s| - 1]) + [ToLower(if s[|s| - 1] == '_' then '.' else s[|s| - 1])]
  }

  /** The characters of a variable name. */
  predicate IsVariable(v: string) {
    PREFIX <= v && |v| > |PREFIX| && forall k :: 0 <= k < |v| ==> IsKeyChar(v[k]) && v[k] != '.'
  }

  const ZOOKEEPER_VARIABLE := "KAFKA_CFG_ZOOKEEPER_CLIENTCNXNSOCKET"

  /** `sed 's/^KAFKA_CFG_//'`. */
  function Stripped(variable: string): string {
    if PREFIX <= variable then variable[|PREFIX|..] else variable
  }

  function DottedKey(variable: string): string {
    if variable == ZOOKEEPER_VARIABLE then "zookeeper.clientCnxnSocket" else Dotted(Stripped(variable))
  }

  /** The key a variable is mapped to. */
  function KeyOf(variable: string): string {
    ReplaceAll(ReplaceAll(DottedKey(variable), "sasl.ssl", "sasl_ssl"), "sasl.plaintext", "sasl_plaintext")
  }

  /** The variable one sets for a key: the documented inverse. */
  function VariableFor(key: string): (v: string)
    ensures PREFIX <= v && |v| == |PREFIX| + |key|
    ensures forall k :: 0 <= k < |key| ==> v[|PREFIX| + k] == ToUpper(if key[k] == '.' then '_' else key[k])
  {
    if key == "" then PREFIX
    else
      var front := VariableFor(key[..|key| - 1]);
      var last := key[|key| - 1];
      front + [ToUpper(if last == '.' then '_' else last)]
  }

  lemma {:induction false} NothingReplaced(s: string, from: string, to: string)
    requires from != "" && !Contains(s, from)
    ensures ReplaceAll(s, from, to) == s
    decreases |s|
  {
    if s != "" {
      NothingReplaced(s[1..], from, to);
      assert [s[0]] + s[1..] == s;
    }
  }

  predicate IsLowerKey(key: string) {
    forall k :: 0 <= k < |key| ==> 'a' <= key[k] <= 'z' || IsDigit(key[k]) || key[k] == '.'
  }

  lemma DottedVariable(key: string)
    requires IsLowerKey(key)
    ensures Dotted(VariableFor(key)[|PREFIX|..]) == key
  {
    hide Dotted, VariableFor;
    var v := VariableFor(key);
    var rest := v[|PREFIX|..];
    forall k | 0 <= k < |key| ensures Dotted(rest)[k] == key[k] {
      assert rest[k] == v[|PREFIX| + k];
    }
  }

  lemma VariableForIsVariable(key: string)
    requires key != "" && IsLowerKey(key)
    ensures IsVariable(VariableFor(key))
  {
    hide VariableFor;
    var v := VariableFor(key);
    forall k | 0 <= k < |v| ensures IsKeyChar(v[k]) && v[k] != '.' {
      if k < |PREFIX| {
        assert v[k] == PREFIX[k];
      } else {
        assert v[|PREFIX| + (k - |PREFIX|)] == ToUpper(if key[k - |PREFIX|] == '.' then '_' else key[k - |PREFIX|]);
      }
    }
  }

  /** Every lower-case dotted key can be set from the environment, and is reached from its own variable, save the
      ZooKeeper key with its capital letters and keys with one of the two rewritten names in them. */
  lemma VariableReachesKey(key: string)
    requires key != "" && IsLowerKey(key) && VariableFor(key) != ZOOKEEPER_VARIABLE
    requires !Contains(key, "sasl.ssl") && !Contains(key, "sasl.plaintext")
    ensures IsVariable(VariableFor(key)) && KeyOf(VariableFor(key)) == key
  {
    hide Dotted, VariableFor, ReplaceAll, Contains, IsVariable;
    VariableForIsVariable(key);
    DottedVariable(key);
    NothingReplaced(key, "sasl.ssl", "sasl_ssl");
    NothingReplaced(key, "sasl.plaintext", "sasl_plaintext");
  }

  predicate AllKeyChars(s: string) {
    forall k :: 0 <= k < |s| ==> IsKeyChar(s[k])
  }

  lemma {:induction false} ReplacedKeyChars(s: string, from: string, to: string)
    requires from != "" && to != "" && AllKeyChars(to) && AllKeyChars(s)
    ensures AllKeyChars(ReplaceAll(s, from, to)) && (s != "" ==> ReplaceAll(s, from, to) != "")
    decreases |s|
  {
    if s != "" {
      if from <= s {
        ReplacedKeyChars(s[|from|..], from, to);
      } else {
        ReplacedKeyChars(s[1..], from, to);
      }
    }
  }

  lemma DottedKeyChars(v: string)
    requires IsVariable(v)
    ensures AllKeyChars(DottedKey(v)) && DottedKey(v) != ""
  {
    hide Dotted;
    var rest := v[|PREFIX|..];
    forall k | 0 <= k < |rest| ensures IsKeyChar(Dotted(rest)[k]) {
      assert rest[k] == v[|PREFIX| + k];
    }
  }

  lemma SaslNames()
    ensures AllKeyChars("sasl_ssl") && AllKeyChars("sasl_plaintext")
  {
  }

  lemma KeyCharsMakeKeys(s: string)
    requires s != "" && AllKeyChars(s)
    ensures IsKey(s)
  {
  }

  /** A variable always yields a key the editor's patterns can handle. */
  lemma VariablesYieldKeys(v: string)
    requires IsVariable(v)
    ensures IsKey(KeyOf(v))
  {
    hide DottedKey, ReplaceAll, IsVariable, AllKeyChars, IsKey;
    DottedKeyChars(v);
    SaslNames();
    var once := ReplaceAll(DottedKey(v), "sasl.ssl", "sasl_ssl");
    ReplacedKeyChars(DottedKey(v), "sasl.ssl", "sasl_ssl");
    ReplacedKeyChars(once, "sasl.plaintext", "sasl_plaintext");
    KeyCharsMakeKeys(ReplaceAll(once, "sasl.plaintext", "sasl_plaintext"));
  }

  /******* The exceptions *******/

  /** No name the key mapping rewrites can begin in this text: no `s` is followed by `a`, nor ends it. */
  predicate NoSasl(a: string) {
    forall k :: 0 <= k < |a| && a[k] == 's' ==> k + 1 < |a| && a[k + 1] != 'a'
  }

  /** Replacing goes on behind text in which the name begins nowhere. */
  lemma {:induction false} ReplaceSkips(a: string, b: string, from: string, to: string)
    requires from != "" && forall k :: 0 <= k < |a| ==> !(from <= (a + b)[k..])
    ensures ReplaceAll(a + b, from, to) == a + ReplaceAll(b, from, to)
  {
    if a == "" {
      assert a + b == b;
    } else {
      assert (a + b)[0..] == a + b && (a + b)[0] == a[0] && (a + b)[1..] == a[1..] + b;
      forall k | 0 <= k < |a[1..]| ensures !(from <= (a[1..] + b)[k..]) {
        assert (a[1..] + b)[k..] == (a + b)[k + 1..];
      }
      ReplaceSkips(a[1..], b, from, to);
      assert [a[0]] + (a[1..] + ReplaceAll(b, from, to)) == a + ReplaceAll(b, from, to);
    }
  }

  lemma Mismatch(from: string, s: string, d: nat)
    requires d < |from| && d < |s| && s[d] != from[d]
    ensures !(from <= s)
  {
  }

  lemma ReplaceBehind(a: string, b: string, from: string, to: string)
    requires NoSasl(a) && |from| > 1 && from[0] == 's' && from[1] == 'a'
    ensures ReplaceAll(a + b, from, to) == a + ReplaceAll(b, from, to)
  {
    forall k | 0 <= k < |a| ensures !(from <= (a + b)[k..]) {
      Mismatch(from, (a + b)[k..], if a[k] == 's' then 1 else 0);
    }
    ReplaceSkips(a, b, from, to);
  }

  lemma DottedAppend(a: string, b: string)
    ensures Dotted(a + b) == Dotted(a) + Dotted(b)
  {
    hide Dotted;
    forall k | 0 <= k < |a + b| ensures Dotted(a + b)[k] == (Dotted(a) + Dotted(b))[k] {
    }
  }

  /** The first part of a variable's name fixes the first part of its key. */
  lemma KeyBegins(first: string, rest: string)
    requires NoSasl(Dotted(first)) && PREFIX + first + rest != ZOOKEEPER_VARIABLE
    ensures Dotted(first) <= KeyOf(PREFIX + first + rest)
  {
    hide Dotted, ReplaceAll, NoSasl;
    var v := PREFIX + first + rest;
    assert v == PREFIX + (first + rest);
    assert Stripped(v) == first + rest;
    DottedAppend(first, rest);
    SaslBegins();
    ReplaceBehind(Dotted(first), Dotted(rest), "sasl.ssl", "sasl_ssl");
    var once := ReplaceAll(Dotted(rest), "sasl.ssl", "sasl_ssl");
    ReplaceBehind(Dotted(first), once, "sasl.plaintext", "sasl_plaintext");
  }

  lemma SaslBegins()
    ensures "sasl.ssl"[0] == 's' && "sasl.ssl"[1] == 'a' && "sasl.plaintext"[0] == 's' && "sasl.plaintext"[1] == 'a'
  {
  }

  lemma NothingIn(from: string, to: string)
    requires from != ""
    ensures ReplaceAll("", from, to) == ""
  {
  }

  /** No name the key mapping rewrites stands in this text. */
  predicate NoSaslInside(a: string) {
    forall k :: 0 <= k < |a| && a[k] == 's' && k + 1 < |a| ==> a[k + 1] != 'a'
  }

  lemma ReplaceNowhere(a: string, from: string, to: string)
    requires NoSaslInside(a) && |from| > 1 && from[0] == 's' && from[1] == 'a'
    ensures ReplaceAll(a, from, to) == a
  {
    assert a + "" == a;
    forall k | 0 <= k < |a| ensures !(from <= (a + "")[k..]) {
      if k + 1 < |a| {
        Mismatch(from, a[k..], if a[k] == 's' then 1 else 0);
      }
    }
    ReplaceSkips(a, "", from, to);
    NothingIn(from, to);
  }

  /** Where no name is rewritten, the key is the rest of the variable, dotted and in lower case. */
  lemma KeyIs(rest: string)
    requires NoSaslInside(Dotted(rest)) && PREFIX + rest != ZOOKEEPER_VARIABLE
    ensures KeyOf(PREFIX + rest) == Dotted(rest)
  {
    hide Dotted, ReplaceAll, NoSaslInside;
    assert Stripped(PREFIX + rest) == rest;
    SaslBegins();
    ReplaceNowhere(Dotted(rest), "sasl.ssl", "sasl_ssl");
    ReplaceNowhere(Dotted(rest), "sasl.plaintext", "sasl_plaintext");
  }

  /** The one variable whose key has capital letters. */
  lemma ZooKeeperKey()
    ensures KeyOf("KAFKA_CFG_ZOOKEEPER_CLIENTCNXNSOCKET") == "zookeeper.clientCnxnSocket"
  {
    hide Dotted, ReplaceAll;
    var key := "zookeeper.clientCnxnSocket";
    assert 's' !in key;
    SaslBegins();
    ReplaceNowhere(key, "sasl.ssl", "sasl_ssl");
    ReplaceNowhere(key, "sasl.plaintext", "sasl_plaintext");
  }

  lemma ReplaceHere(from: string, to: string, b: string)
    requires from != ""
    ensures ReplaceAll(from + b, from, to) == to + ReplaceAll(b, from, to)
  {
    assert (from + b)[|from|..] == b && from <= from + b;
  }

  /** Behind the first of the two names the other one does not begin. */
  lemma SslStays(b: string)
    ensures ReplaceAll("sasl_ssl" + b, "sasl.plaintext", "sasl_plaintext") ==
            "sasl_ssl" + ReplaceAll(b, "sasl.plaintext", "sasl_plaintext")
  {
    var from, name := "sasl.plaintext", "sasl_ssl";
    assert from[0] == 's' && from[1] == 'a' && from[4] == '.' && |name| == 8;
    assert name[1] == 'a' && name[2] == 's' && name[3] == 'l' && name[4] == '_' && name[5] == 's' && name[6] == 's'
        && name[7] == 'l';
    forall k | 0 <= k < 8 ensures !(from <= (name + b)[k..]) {
      Mismatch(from, (name + b)[k..], if k == 0 then 4 else if k in {2, 5, 6} then 1 else 0);
    }
    ReplaceSkips("sasl_ssl", b, from, "sasl_plaintext");
  }

  lemma PlainStays(b: string)
    ensures ReplaceAll("sasl.plaintext" + b, "sasl.ssl", "sasl_ssl") ==
            "sasl.plaintext" + ReplaceAll(b, "sasl.ssl", "sasl_ssl")
  {
    var name, from := "sasl.plaintext", "sasl.ssl";
    assert from[0] == 's' && from[1] == 'a' && from[5] == 's' && |name| == 14;
    assert name[1] == 'a' && name[2] == 's' && name[3] == 'l' && name[4] == '.' && name[5] == 'p' && name[6] == 'l'
        && name[7] == 'a' && name[8] == 'i' && name[9] == 'n' && name[10] == 't' && name[11] == 'e' && name[12] == 'x'
        && name[13] == 't';
    forall k | 0 <= k < 14 ensures !(from <= (name + b)[k..]) {
      Mismatch(from, (name + b)[k..], if k == 0 then 5 else if k == 2 then 1 else 0);
    }
    ReplaceSkips(name, b, from, "sasl_ssl");
  }

  /** The two names that keep an underscore, wherever they stand. */
  lemma SaslKeys(a: string, b: string)
    requires IsLowerKey(a) && IsLowerKey(b) && NoSasl(a) && !Contains(b, "sasl.ssl") && !Contains(b, "sasl.plaintext")
    ensures VariableFor(a + "sasl.ssl" + b) != ZOOKEEPER_VARIABLE ==>
              KeyOf(VariableFor(a + "sasl.ssl" + b)) == a + "sasl_ssl" + b
    ensures VariableFor(a + "sasl.plaintext" + b) != ZOOKEEPER_VARIABLE ==>
              KeyOf(VariableFor(a + "sasl.plaintext" + b)) == a + "sasl_plaintext" + b
  {
    hide Dotted, VariableFor, ReplaceAll, Contains, NoSasl;
    SaslBegins();
    NothingReplaced(b, "sasl.ssl", "sasl_ssl");
    NothingReplaced(b, "sasl.plaintext", "sasl_plaintext");
    SaslNamesAreLower();
    DottedVariable(a + "sasl.ssl" + b);
    assert a + "sasl.ssl" + b == a + ("sasl.ssl" + b) && a + "sasl_ssl" + b == a + ("sasl_ssl" + b);
    ReplaceBehind(a, "sasl.ssl" + b, "sasl.ssl", "sasl_ssl");
    ReplaceHere("sasl.ssl", "sasl_ssl", b);
    ReplaceBehind(a, "sasl_ssl" + b, "sasl.plaintext", "sasl_plaintext");
    SslStays(b);
    DottedVariable(a + "sasl.plaintext" + b);
    assert a + "sasl.plaintext" + b == a + ("sasl.plaintext" + b);
    assert a + "sasl_plaintext" + b == a + ("sasl_plaintext" + b);
    ReplaceBehind(a, "sasl.plaintext" + b, "sasl.ssl", "sasl_ssl");
    PlainStays(b);
    ReplaceBehind(a, "sasl.plaintext" + b, "sasl.plaintext", "sasl_plaintext");
    ReplaceHere("sasl.plaintext", "sasl_plaintext", b);
  }

  lemma SaslNamesAreLower()
    ensures IsLowerKey("sasl.ssl") && IsLowerKey("sasl.plaintext")
  {
  }
}
