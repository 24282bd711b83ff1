/** The start script's way of editing property files (defaults/up.sh): files are lines, edited in place by a `sed`
    whose program text is built from a key and a value. */
module ConfigFile {
  import opened Basics

  /******* Basic regular expressions, as far as keys need them *******/

  /** Letters, digits, dot and underscore: the characters of property keys. Only the dot is special in a pattern. */
  predicate IsKey(key: string) {
    key != "" && forall k :: 0 <= k < |key| ==> IsKeyChar(key[k])
  }

  predicate IsKeyChar(c: char) {
    'a' <= c <= 'z' || 'A' <= c <= 'Z' || IsDigit(c) || c == '.' || c == '_'
  }

  /** `^pattern` matches the line: a dot stands for any character. */
  predicate Matches(pattern: string, line: string) {
    |pattern| <= |line| && forall k :: 0 <= k < |pattern| ==> pattern[k] == '.' || pattern[k] == line[k]
  }

  lemma PrefixMatches(pattern: string, rest: string)
    ensures Matches(pattern, pattern + rest)
  {
  }

  /** A pattern matches at the beginning of a line, character by character; a dot matches anything. */
  lemma MatchesIs(a: string, b: string, line: string)
    requires '.' !in a && '.' !in b
    ensures Matches(a, line) <==> a <= line
    ensures Matches(a + "." + b, line) <==>
            a <= line && |line| > |a| && b <= line[|a| + 1..]
  {
    var pattern := a + "." + b;
    if Matches(pattern, line) {
      assert forall k :: 0 <= k < |a| ==> pattern[k] == a[k];
      assert forall k :: 0 <= k < |b| ==> pattern[|a| + 1 + k] == b[k] && line[|a| + 1..][k] == line[|a| + 1 + k];
      assert a <= line && b <= line[|a| + 1..];
    }
    if a <= line && |line| > |a| && b <= line[|a| + 1..] {
      forall k | 0 <= k < |pattern| ensures pattern[k] == '.' || pattern[k] == line[k] {
        if k > |a| {
          assert pattern[k] == b[k - |a| - 1] == line[|a| + 1..][k - |a| - 1] == line[k];
        }
      }
    }
  }

  lemma LongerMatches(pattern: string, more: string, line: string)
    requires Matches(pattern + more, line)
    ensures Matches(pattern, line)
  {
    forall k | 0 <= k < |pattern| ensures pattern[k] == '.' || pattern[k] == line[k] {
      assert (pattern + more)[k] == pattern[k];
    }
  }

  /******* The replacement side of sed's s command *******/

  /** `${s//c/r}` for a single character. */
  function ReplaceChar(s: string, c: char, r: string): string {
    if s == "" then "" else (if s[0] == c then r else [s[0]]) + ReplaceChar(s[1..], c, r)
  }

  /** What setup_value does to a value before it goes into the sed program. */
  function Escape(value: string): string {
    ReplaceChar(ReplaceChar(value, '&', "\\&"), '#', "/\\#/")
  }

  /** sed's reading of a replacement: `&` is the matched text, an escaped punctuation mark is itself. `None` where
      the text would end the command or ask for something else. */
  function Expand(replacement: string, matched: string): Option<string> {
    if replacement == "" then Some("")
    else if replacement[0] == '|' || replacement[0] == '\n' then None
    else if replacement[0] == '&' then Prepend(matched, Expand(replacement[1..], matched))
    else if replacement[0] != '\\' then Prepend([replacement[0]], Expand(replacement[1..], matched))
    else if |replacement| > 1 && replacement[1] in {'&', '#', '\\', '/', '|'} then
      Prepend([replacement[1]], Expand(replacement[2..], matched))
    else None
  }

  function Prepend(front: string, rest: Option<string>): Option<string> {
    if rest.Some? then Some(front + rest.value) else None
  }

  /** The values the model covers: without the characters that end or alter the sed program. */
  predicate SedPlain(value: string) {
    forall k :: 0 <= k < |value| ==> value[k] != '\\' && value[k] != '|' && value[k] != '\n'
  }

  lemma PlainJoined(a: string, b: string)
    requires SedPlain(a) && SedPlain(b)
    ensures SedPlain(a + b)
  {
  }

  /** The text that reaches the file. */
  function Written(value: string): string {
    ReplaceChar(value, '#', "/#/")
  }

  lemma {:induction false} ReplaceAppend(a: string, b: string, c: char, r: string)
    ensures ReplaceChar(a + b, c, r) == ReplaceChar(a, c, r) + ReplaceChar(b, c, r)
  {
    if a == "" {
      assert a + b == b;
    } else {
      assert (a + b)[1..] == a[1..] + b;
      ReplaceAppend(a[1..], b, c, r);
    }
  }

  /** What the script makes of the two characters that are special to it, wherever they stand. */
  lemma EscapeIs(a: string, b: string)
    ensures Escape(a + "&" + b) == Escape(a) + "\\&" + Escape(b)
    ensures Escape(a + "#" + b) == Escape(a) + "/\\#/" + Escape(b)
    ensures Written(a + "#" + b) == Written(a) + "/#/" + Written(b)
  {
    ReplaceAppend(a + "&", b, '&', "\\&");
    ReplaceAppend(a, "&", '&', "\\&");
    ReplaceAppend(a + "#", b, '&', "\\&");
    ReplaceAppend(a, "#", '&', "\\&");
    var a', b' := ReplaceChar(a, '&', "\\&"), ReplaceChar(b, '&', "\\&");
    SingleReplaced();
    ReplaceAppend(a' + "\\&", b', '#', "/\\#/");
    ReplaceAppend(a', "\\&", '#', "/\\#/");
    ReplaceAppend(a' + "#", b', '#', "/\\#/");
    ReplaceAppend(a', "#", '#', "/\\#/");
    ReplaceAppend(a + "#", b, '#', "/#/");
    ReplaceAppend(a, "#", '#', "/#/");
  }

  lemma SingleReplaced()
    ensures ReplaceChar("&", '&', "\\&") == "\\&" && ReplaceChar("#", '&', "\\&") == "#"
    ensures ReplaceChar("\\&", '#', "/\\#/") == "\\&" && ReplaceChar("#", '#', "/\\#/") == "/\\#/"
    ensures ReplaceChar("#", '#', "/#/") == "/#/"
  {
    assert "&"[1..] == "" && "#"[1..] == "" && "\\&"[1..] == "&";
  }

  lemma EscapeFirst(c: char, rest: string)
    ensures Escape([c] + rest) == (if c == '&' then "\\&" else if c == '#' then "/\\#/" else [c]) + Escape(rest)
  {
    assert ([c] + rest)[1..] == rest;
    var once := ReplaceChar(rest, '&', "\\&");
    var first := if c == '&' then "\\&" else [c];
    ReplaceAppend(first, once, '#', "/\\#/");
    assert "\\&" == ['\\'] + ['&'] && ['&'][1..] == [] && [c][1..] == [];
    ReplaceAppend(['\\'], ['&'], '#', "/\\#/");
  }

  lemma {:induction false} ExpandEscaped(value: string, matched: string)
    requires SedPlain(value)
    ensures Expand(Escape(value), matched) == Some(Written(value))
  {
    if value != "" {
      var rest := value[1..];
      ExpandEscaped(rest, matched);
      assert [value[0]] + rest == value;
      EscapeFirst(value[0], rest);
      var tail := Escape(rest);
      if value[0] == '&' {
        assert ("\\&" + tail)[2..] == tail;
      } else if value[0] == '#' {
        ExpandHash(tail, matched);
      }
    }
  }

  /** An escaped punctuation mark is itself; any other escape asks for something else. */
  lemma ExpandBackslash(c: char, tail: string, matched: string)
    ensures Expand(['\\', c] + tail, matched) ==
            if c in {'&', '#', '\\', '/', '|'} then Prepend([c], Expand(tail, matched)) else None
  {
    assert (['\\', c] + tail)[2..] == tail;
  }

  lemma ExpandOrdinary(c: char, tail: string, matched: string)
    requires c !in {'&', '\\', '|', '\n'}
    ensures Expand([c] + tail, matched) == Prepend([c], Expand(tail, matched))
  {
    assert ([c] + tail)[1..] == tail;
  }

  lemma ExpandHash(tail: string, matched: string)
    ensures Expand("/\\#/" + tail, matched) == Prepend("/#/", Expand(tail, matched))
  {
    hide Expand;
    ExpandOrdinary('/', tail, matched);
    ExpandBackslash('#', ['/'] + tail, matched);
    ExpandOrdinary('/', ['\\', '#'] + (['/'] + tail), matched);
    assert "/\\#/" + tail == ['/'] + (['\\', '#'] + (['/'] + tail));
    var rest := Expand(tail, matched);
    assert rest.Some? ==> ['/'] + (['#'] + (['/'] + rest.value)) == "/#/" + rest.value;
  }

  lemma {:induction false} NothingToReplace(s: string, c: char, r: string)
    ensures c !in s ==> ReplaceChar(s, c, r) == s
  {
    if s != "" {
      NothingToReplace(s[1..], c, r);
      assert [s[0]] + s[1..] == s;
    }
  }

  lemma {:induction false} WrittenLength(value: string)
    ensures |Written(value)| >= |value| && ('#' in value ==> |Written(value)| > |value|)
  {
    if value != "" {
      WrittenLength(value[1..]);
    }
  }

  /** How an escaped value begins to expand. */
  lemma ExpandFirst(c: char, rest: string, matched: string)
    ensures var result := Expand(Escape([c] + rest), matched);
            && (c == '#' ==> result == Prepend("/#/", Expand(Escape(rest), matched)))
            && (c == '|' || c == '\n' ==> result == None)
            && (c !in {'#', '|', '\n', '\\'} ==> result == Prepend([c], Expand(Escape(rest), matched)))
  {
    hide Expand, Escape;
    EscapeFirst(c, rest);
    if c == '#' {
      ExpandHash(Escape(rest), matched);
    } else if c == '&' {
      ExpandBackslash('&', Escape(rest), matched);
      assert "\\&" + Escape(rest) == ['\\', '&'] + Escape(rest);
    } else if c == '|' || c == '\n' {
      ExpandEnds(c, Escape(rest), matched);
    } else if c != '\\' {
      ExpandOrdinary(c, Escape(rest), matched);
    }
  }

  lemma ExpandEnds(c: char, tail: string, matched: string)
    requires c == '|' || c == '\n'
    ensures Expand([c] + tail, matched) == None
  {
  }

  /** How it goes on behind a backslash. */
  lemma ExpandSecond(c: char, rest: string, matched: string)
    ensures var result := Expand(Escape(['\\', c] + rest), matched);
            && (c == '&' ==> result == Prepend(['\\'], Prepend(matched, Expand(Escape(rest), matched))))
            && (c == '\\' ==> result == Prepend(['\\'], Expand(Escape(rest), matched)))
            && (c !in {'&', '\\'} ==> result == None || result.value[..1] != ['\\'])
    ensures Expand(Escape(['\\']), matched) == None
  {
    hide Expand, Escape;
    EscapeFirst('\\', [c] + rest);
    EscapeFirst(c, rest);
    EscapeFirst('\\', "");
    assert ['\\', c] + rest == ['\\'] + ([c] + rest) && ['\\'] + "" == ['\\'];
    EscapeNothing();
    LoneBackslash(matched);
    var tail := Escape(rest);
    if c == '&' {
      ExpandBackslash('\\', ['&'] + tail, matched);
      ExpandMatched(tail, matched);
      assert ['\\'] + ("\\&" + tail) == ['\\', '\\'] + (['&'] + tail);
    } else if c == '#' {
      ExpandBackslash('/', "\\#/" + tail, matched);
      assert ['\\'] + ("/\\#/" + tail) == ['\\', '/'] + ("\\#/" + tail);
    } else {
      ExpandBackslash(c, tail, matched);
      assert ['\\'] + ([c] + tail) == ['\\', c] + tail;
    }
  }

  lemma EscapeNothing()
    ensures Escape("") == ""
  {
  }

  lemma LoneBackslash(matched: string)
    ensures Expand(['\\'], matched) == None
  {
  }

  lemma ExpandMatched(tail: string, matched: string)
    ensures Expand(['&'] + tail, matched) == Prepend(matched, Expand(tail, matched))
  {
    assert (['&'] + tail)[1..] == tail;
  }

  predicate AllBackslashes(s: string) {
    s != "" && forall k :: 0 <= k < |s| ==> s[k] == '\\'
  }

  /** Expansion never makes up for swallowed backslashes. */
  lemma {:induction false} BackslashesAreLost(slashes: string, value: string)
    requires AllBackslashes(slashes)
    ensures Expand(Escape(value), "k") != Some(slashes + value)
    decreases |value|
  {
    hide Expand, Escape;
    var result := Expand(Escape(value), "k");
    if value == "" {
      EscapeNothing();
      ExpandNothing("k");
    } else if value[0] != '\\' {
      assert value == [value[0]] + value[1..];
      ExpandFirst(value[0], value[1..], "k");
      assert (slashes + value)[0] == '\\';
    } else if value == ['\\'] {
      ExpandSecond('k', "", "k");
    } else {
      assert value == ['\\', value[1]] + value[2..];
      ExpandSecond(value[1], value[2..], "k");
      if value[1] == '\\' {
        var more := slashes[1..] + ['\\', '\\'];
        BackslashesAreLost(more, value[2..]);
        assert (slashes + value)[1..] == more + value[2..];
        assert result.Some? ==> result.value[1..] == Expand(Escape(value[2..]), "k").value;
      } else if value[1] == '&' {
        assert (slashes + value)[1] == '\\';
        assert result.Some? ==> result.value[1] == 'k';
      } else {
        assert (slashes + value)[..1] == ['\\'];
      }
    }
  }

  lemma ExpandNothing(matched: string)
    ensures Expand("", matched) == Some("")
  {
  }

  lemma {:induction false} OthersAreSpoilt(value: string)
    requires !SedPlain(value) || '#' in value
    ensures Expand(Escape(value), "k") != Some(value)
    decreases |value|
  {
    hide Expand, Escape;
    var c, rest := value[0], value[1..];
    assert value == [c] + rest;
    ExpandFirst(c, rest, "k");
    if c !in {'#', '|', '\n', '\\'} {
      OthersAreSpoilt(rest);
    } else if c == '#' {
      assert Expand(Escape(value), "k").Some? ==> Expand(Escape(value), "k").value[0] == '/';
    } else if value == ['\\'] {
      ExpandSecond('k', "", "k");
    } else if c == '\\' {
      assert value == ['\\', value[1]] + value[2..];
      ExpandSecond(value[1], value[2..], "k");
      if value[1] == '\\' {
        BackslashesAreLost(['\\'], value[2..]);
        assert value == ['\\'] + (['\\'] + value[2..]);
      } else if value[1] == '&' {
        assert Expand(Escape(value), "k").Some? ==> Expand(Escape(value), "k").value[1] == 'k';
      } else {
        assert value[..1] == ['\\'];
      }
    }
  }

  /** Over all values: escaping and expanding is the identity on every matched line exactly for the values without
      hash sign, backslash, vertical bar and line end. */
  lemma EscapingWorksExactlyFor(value: string)
    ensures (forall matched: string :: Expand(Escape(value), matched) == Some(value)) <==>
            SedPlain(value) && '#' !in value
  {
    hide Expand, Escape;
    if SedPlain(value) && '#' !in value {
      forall matched: string ensures Expand(Escape(value), matched) == Some(value) {
        EscapingIsExact(value, matched);
      }
    } else {
      OthersAreSpoilt(value);
    }
  }

  /** Escaping and expanding is the identity, whatever the matched line and with `&` included, exactly for values
      without a hash sign; a hash sign comes out as `/#/`. */
  lemma EscapingIsExact(value: string, matched: string)
    requires SedPlain(value)
    ensures Expand(Escape(value), matched) == Some(Written(value))
    ensures Written(value) == value <==> '#' !in value
  {
    ExpandEscaped(value, matched);
    NothingToReplace(value, '#', "/#/");
    WrittenLength(value);
  }

  /** Literal text in front of a replacement is copied. */
  lemma {:induction false} ExpandLiteral(front: string, rest: string, matched: string)
    requires forall k :: 0 <= k < |front| ==> front[k] !in {'&', '\\', '|', '\n'}
    ensures Expand(front + rest, matched) == Prepend(front, Expand(rest, matched))
  {
    if front == "" {
      assert front + rest == rest;
      assert Expand(rest, matched).Some? ==> front + Expand(rest, matched).value == Expand(rest, matched).value;
    } else {
      assert (front + rest)[1..] == front[1..] + rest;
      ExpandLiteral(front[1..], rest, matched);
      assert [front[0]] + front[1..] == front;
      assert Expand(rest, matched).Some? ==>
          [front[0]] + (front[1..] + Expand(rest, matched).value) == front + Expand(rest, matched).value;
    }
  }

  /******* setup_value and add_or_setup_value *******/

  type Lines = seq<string>

  function Assign(key: string, value: string): string {
    key + "=" + value
  }

  /** `sed "s|^key=.*$|key=value|"` on one line. */
  function SetupLine(key: string, value: string, line: string): (r: string)
    requires IsKey(key) && SedPlain(value)
    ensures r == if Matches(key + "=", line) then Assign(key, Written(value)) else line
  {
    if Matches(key + "=", line) then
      ExpandLiteral(key + "=", Escape(value), line);
      ExpandEscaped(value, line);
      Expand(key + "=" + Escape(value), line).value
    else line
  }

  function Setup(lines: Lines, key: string, value: string): (r: Lines)
    requires IsKey(key) && SedPlain(value)
    ensures |r| == |lines|
    ensures forall k :: 0 <= k < |lines| ==> r[k] == SetupLine(key, value, lines[k])
  {
    if lines == [] then []
    else Setup(lines[..|lines| - 1], key, value) + [SetupLine(key, value, lines[|lines| - 1])]
  }

  /** `grep -q "^pattern"`. */
  predicate Grep(lines: Lines, pattern: string) {
    exists k :: 0 <= k < |lines| && Matches(pattern, lines[k])
  }

  function AddOrSetup(lines: Lines, key: string, value: string): Lines
    requires IsKey(key) && SedPlain(value)
  {
    if Grep(lines, key) then Setup(lines, key, value) else lines + [Assign(key, value)]
  }

  /** A file edited in place. */
  class PropertyFile {
    var lines: Lines

    constructor (lines: Lines)
      ensures this.lines == lines
    {
      this.lines := lines;
    }

    /** Rewrites every line the key pattern matches, and no other. */
    method SetupValue(key: string, value: string)
      requires IsKey(key) && SedPlain(value)
      modifies this
      ensures lines == Setup(old(lines), key, value)
      ensures |lines| == |old(lines)|
      ensures forall k :: 0 <= k < |lines| ==>
                lines[k] == if Matches(key + "=", old(lines)[k]) then Assign(key, Written(value)) else old(lines)[k]
    {
      var i := 0;
      while i < |lines|
        invariant 0 <= i <= |lines| == |old(lines)|
        invariant lines[..i] == Setup(old(lines)[..i], key, value)
        invariant lines[i..] == old(lines)[i..]
      {
        assert lines[i] == old(lines)[i..][0];
        assert old(lines)[..i + 1][..i] == old(lines)[..i];
        lines := lines[i := SetupLine(key, value, lines[i])];
        i := i + 1;
      }
      assert lines[..i] == lines && old(lines)[..i] == old(lines);
    }

    method AddOrSetupValue(key: string, value: string)
      requires IsKey(key) && SedPlain(value)
      modifies this
      ensures lines == AddOrSetup(old(lines), key, value)
    {
      var found := false;
      var i := 0;
      while i < |lines|
        invariant 0 <= i <= |lines|
        invariant !found ==> forall k :: 0 <= k < i ==> !Matches(key, lines[k])
        invariant found ==> Grep(lines, key)
        invariant lines == old(lines)
      {
        if Matches(key, lines[i]) {
          found := true;
        }
        i := i + 1;
      }
      if found {
        SetupValue(key, value);
      } else {
        lines := lines + [Assign(key, value)];
      }
    }
  }

  /******* What a file says about a key *******/

  predicate Assigns(line: string, key: string) {
    key + "=" <= line
  }

  /** The file gives `key` the value, and no other, whichever of its lines a reader goes by. */
  ghost predicate Maps(lines: Lines, key: string, value: string) {
    Assign(key, value) in lines && forall line :: line in lines && Assigns(line, key) ==> line == Assign(key, value)
  }

  lemma AssignsMatches(line: string, key: string)
    requires Assigns(line, key)
    ensures Matches(key + "=", line)
  {
    assert line == key + "=" + line[|key + "="|..];
    PrefixMatches(key + "=", line[|key + "="|..]);
  }

  lemma KeyOfAssign(key: string, value: string, key': string)
    requires IsKey(key) && IsKey(key') && Assigns(Assign(key, value), key')
    ensures key == key'
  {
    var line := Assign(key, value);
    assert line[|key|] == '=' && line[|key'|] == (key' + "=")[|key'|] == '=';
    assert forall k :: 0 <= k < |key| ==> line[k] == key[k] && line[k] != '=';
    assert forall k :: 0 <= k < |key'| ==> line[k] == (key' + "=")[k] == key'[k] && line[k] != '=';
    assert |key| == |key'|;
  }

  /** setup_value sets a key exactly when some line has it for its pattern to match. */
  lemma SetupMaps(lines: Lines, key: string, value: string)
    requires IsKey(key) && SedPlain(value)
    ensures Maps(Setup(lines, key, value), key, Written(value)) <==> Grep(lines, key + "=")
  {
    var after := Setup(lines, key, value);
    forall line | line in after && Assigns(line, key) ensures line == Assign(key, Written(value)) {
      AssignsMatches(line, key);
    }
    if Grep(lines, key + "=") {
      var k :| 0 <= k < |lines| && Matches(key + "=", lines[k]);
      assert after[k] == Assign(key, Written(value));
    } else {
      forall k | 0 <= k < |after| ensures after[k] != Assign(key, Written(value)) {
        PrefixMatches(key + "=", Written(value));
      }
    }
  }

  /** A file that setup_value has gone through gives the key no other value. */
  lemma SetupOnly(lines: Lines, key: string, value: string, value': string)
    requires IsKey(key) && SedPlain(value) && Maps(Setup(lines, key, value), key, value')
    ensures value' == Written(value)
  {
    var after := Setup(lines, key, value);
    var k :| 0 <= k < |after| && after[k] == Assign(key, value');
    PrefixMatches(key + "=", value');
    assert Assign(key, value')[|key + "="|..] == value' && Assign(key, Written(value))[|key + "="|..] == Written(value);
  }

  /** add_or_setup_value sets a key exactly when some line has it for the rewrite to match, or no line even starts
      like it; a key that is only the beginning of other keys is silently not set. The value is the one asked for,
      save that a rewrite spoils a hash sign that an appended line keeps. */
  lemma AddOrSetupMaps(lines: Lines, key: string, value: string)
    requires IsKey(key) && SedPlain(value)
    ensures Maps(AddOrSetup(lines, key, value), key, if Grep(lines, key) then Written(value) else value) <==>
            Grep(lines, key + "=") || !Grep(lines, key)
    ensures Maps(AddOrSetup(lines, key, value), key, value) <==>
            (Grep(lines, key + "=") && '#' !in value) || !Grep(lines, key)
  {
    EscapingIsExact(value, "");
    if Grep(lines, key) {
      SetupMaps(lines, key, value);
      if Maps(Setup(lines, key, value), key, value) {
        SetupOnly(lines, key, value, value);
      }
    } else {
      if Grep(lines, key + "=") {
        var k :| 0 <= k < |lines| && Matches(key + "=", lines[k]);
        LongerMatches(key, "=", lines[k]);
      }
      forall line | line in lines ensures !Assigns(line, key) {
        if Assigns(line, key) {
          AssignsMatches(line, key);
          LongerMatches(key, "=", line);
        }
      }
      assert (lines + [Assign(key, value)])[|lines|] == Assign(key, value);
    }
  }

  /******* Laws of repeated writes *******/

  /** Some position tells the two keys apart, dots being wild. */
  predicate Apart(key: string, key': string) {
    exists d :: 0 <= d < |key| && d < |key'| && key[d] != key'[d] && key[d] != '.' && key'[d] != '.'
  }

  lemma ApartNeverBoth(key: string, key': string, line: string)
    requires Apart(key, key')
    ensures !(Matches(key, line) && Matches(key', line))
  {
  }

  /** Writing a key twice is writing it once with the last value. */
  lemma LastWriteWins(lines: Lines, key: string, value: string, value': string)
    requires IsKey(key) && SedPlain(value) && SedPlain(value')
    ensures Setup(Setup(lines, key, value), key, value') == Setup(lines, key, value')
  {
    var line := Assign(key, Written(value));
    assert line == key + "=" + Written(value);
    PrefixMatches(key + "=", Written(value));
  }

  lemma ApartLines(key: string, value: string, key': string)
    requires Apart(key, key')
    ensures !Matches(key' + "=", Assign(key, value))
  {
    var line := Assign(key, value);
    assert line == key + ("=" + value);
    PrefixMatches(key, "=" + value);
    ApartNeverBoth(key, key', line);
    if Matches(key' + "=", line) {
      LongerMatches(key', "=", line);
    }
  }

  lemma ApartSymmetric(key: string, key': string)
    requires Apart(key, key')
    ensures Apart(key', key)
  {
    var d :| 0 <= d < |key| && d < |key'| && key[d] != key'[d] && key[d] != '.' && key'[d] != '.';
  }

  lemma ApartPatterns(key: string, key': string, line: string)
    requires Apart(key, key')
    ensures !(Matches(key + "=", line) && Matches(key' + "=", line))
  {
    ApartNeverBoth(key, key', line);
    if Matches(key + "=", line) && Matches(key' + "=", line) {
      LongerMatches(key, "=", line);
      LongerMatches(key', "=", line);
    }
  }

  /** Writes to keys that are told apart commute. */
  lemma WritesCommute(lines: Lines, key: string, value: string, key': string, value': string)
    requires IsKey(key) && IsKey(key') && SedPlain(value) && SedPlain(value') && Apart(key, key')
    ensures Setup(Setup(lines, key, value), key', value') == Setup(Setup(lines, key', value'), key, value)
  {
    hide IsKey, SedPlain, Setup, SetupLine, Matches, Apart, Assign, Written;
    ApartLines(key, Written(value), key');
    ApartSymmetric(key, key');
    ApartLines(key', Written(value'), key);
    forall k | 0 <= k < |lines|
      ensures Setup(Setup(lines, key, value), key', value')[k] == Setup(Setup(lines, key', value'), key, value)[k]
    {
      ApartPatterns(key, key', lines[k]);
    }
  }
}
