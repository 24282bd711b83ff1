/** Series of edits to one property file: what of an earlier edit survives the later ones. */
module WriteSeries {
  import opened Basics
  import opened ConfigFile

  /** A call of setup_value or of add_or_setup_value. */
  datatype Write = SetupKey(key: string, value: string) | AddKey(key: string, value: string)

  predicate IsWrite(w: Write) {
    IsKey(w.key) && SedPlain(w.value)
  }

  /** A write that leaves the same text whichever way it takes: an added value is stored as it is, a rewritten one has
      its hash signs spoilt. */
  predicate IsTame(w: Write) {
    w.AddKey? ==> '#' !in w.value
  }

  predicate AreWrites(ws: seq<Write>) {
    forall k :: 0 <= k < |ws| ==> IsWrite(ws[k])
  }

  function Apply(lines: Lines, w: Write): Lines
    requires IsWrite(w)
  {
    if w.SetupKey? then Setup(lines, w.key, w.value) else AddOrSetup(lines, w.key, w.value)
  }

  function ApplyAll(lines: Lines, ws: seq<Write>): Lines
    requires AreWrites(ws)
  {
    if ws == [] then lines else Apply(ApplyAll(lines, ws[..|ws| - 1]), ws[|ws| - 1])
  }

  lemma {:induction false} ApplyAppend(lines: Lines, ws: seq<Write>, more: seq<Write>)
    requires AreWrites(ws) && AreWrites(more)
    ensures AreWrites(ws + more) && ApplyAll(lines, ws + more) == ApplyAll(ApplyAll(lines, ws), more)
  {
    if more == [] {
      assert ws + more == ws;
    } else {
      var n := |more| - 1;
      ApplyAppend(lines, ws, more[..n]);
      assert (ws + more)[..|ws + more| - 1] == ws + more[..n];
    }
  }

  /******* Keys that do not disturb each other *******/

  /** The pattern of `key` cannot match a line that assigns `other`: some position tells them apart, the equals sign
      included. */
  predicate Spares(key: string, other: string) {
    exists d :: 0 <= d <= |key| && d <= |other| && (key + "=")[d] != '.' && (key + "=")[d] != (other + "=")[d]
  }

  lemma ShorterSpares(key: string, other: string)
    requires IsKey(other) && |key| < |other|
    ensures Spares(key, other)
  {
    assert (key + "=")[|key|] == '=' && (other + "=")[|key|] == other[|key|] && IsKeyChar(other[|key|]);
  }

  /** This is exact: a pattern that spares no such position would rewrite some assignment of `other`. */
  lemma SparesIsExact(key: string, other: string)
    requires IsKey(key) && IsKey(other)
    ensures Spares(key, other) <==> forall value: string :: !Matches(key + "=", Assign(other, value))
  {
    if Spares(key, other) {
      forall value: string ensures !Matches(key + "=", Assign(other, value)) {
        var d :| 0 <= d <= |key| && d <= |other| && (key + "=")[d] != '.' && (key + "=")[d] != (other + "=")[d];
        assert Assign(other, value)[d] == (other + "=")[d];
      }
    } else {
      var pattern, target := key + "=", other + "=";
      if |key| < |other| {
        ShorterSpares(key, other);
      }
      var value := pattern[|target|..];
      var line := Assign(other, value);
      forall k | 0 <= k < |pattern| ensures pattern[k] == '.' || pattern[k] == line[k] {
        if k < |target| {
          assert line[k] == target[k];
        } else {
          assert line[k] == value[k - |target|];
        }
      }
      assert Matches(key + "=", Assign(other, value));
    }
  }

  lemma ApartSpares(key: string, other: string)
    requires Apart(key, other)
    ensures Spares(key, other) && Spares(other, key)
  {
    var d :| 0 <= d < |key| && d < |other| && key[d] != other[d] && key[d] != '.' && other[d] != '.';
    assert (key + "=")[d] == key[d] && (other + "=")[d] == other[d];
  }

  /******* What a write keeps *******/

  /** Each line a write leaves was there before or is the write's own. */
  lemma AppliedLines(lines: Lines, w: Write, line: string)
    requires IsWrite(w) && line in Apply(lines, w)
    ensures line in lines || line == Assign(w.key, Written(w.value)) || line == Assign(w.key, w.value)
    ensures IsTame(w) ==> line in lines || line == Assign(w.key, Written(w.value))
  {
    EscapingIsExact(w.value, "");
    var k :| 0 <= k < |Apply(lines, w)| && Apply(lines, w)[k] == line;
    if k < |lines| {
      assert lines[k] in lines;
    }
  }

  lemma AppliedKeeps(lines: Lines, w: Write, line: string)
    requires IsWrite(w) && line in lines && !Matches(w.key + "=", line)
    ensures line in Apply(lines, w)
  {
    var k :| 0 <= k < |lines| && lines[k] == line;
    assert Apply(lines, w)[k] == line;
  }

  /** A write to another key keeps what the file says about this one, if its pattern spares that line. */
  lemma WriteKeeps(lines: Lines, w: Write, key: string, value: string)
    requires IsWrite(w) && IsKey(key) && Maps(lines, key, value)
    requires w.key != key && !Matches(w.key + "=", Assign(key, value))
    ensures Maps(Apply(lines, w), key, value)
  {
    AppliedKeeps(lines, w, Assign(key, value));
    forall line | line in Apply(lines, w) && Assigns(line, key) ensures line == Assign(key, value) {
      AppliedLines(lines, w, line);
      if line == Assign(w.key, Written(w.value)) {
        KeyOfAssign(w.key, Written(w.value), key);
      } else if line == Assign(w.key, w.value) {
        KeyOfAssign(w.key, w.value, key);
      }
    }
  }

  /** The file has an assignment of the key. */
  ghost predicate Has(lines: Lines, key: string) {
    exists line :: line in lines && Assigns(line, key)
  }

  lemma MappedHas(lines: Lines, key: string, value: string)
    requires Maps(lines, key, value)
    ensures Has(lines, key)
  {
    assert Assigns(Assign(key, value), key) by {
      assert Assign(key, value) == key + "=" + value;
    }
  }

  lemma HasGrep(lines: Lines, key: string)
    requires Has(lines, key)
    ensures Grep(lines, key + "=") && Grep(lines, key)
  {
    var line :| line in lines && Assigns(line, key);
    AssignsMatches(line, key);
    LongerMatches(key, "=", line);
    var k :| 0 <= k < |lines| && lines[k] == line;
  }

  lemma WriteKeepsHas(lines: Lines, w: Write, key: string)
    requires IsWrite(w) && IsKey(key) && Has(lines, key) && (w.key == key || Spares(w.key, key))
    ensures Has(Apply(lines, w), key)
  {
    if w.key == key {
      WriteTakes(lines, w);
      MappedHas(Apply(lines, w), key, Written(w.value));
    } else {
      var line :| line in lines && Assigns(line, key);
      var rest := line[|key + "="|..];
      assert line == Assign(key, rest);
      SparesIsExact(w.key, key);
      AppliedKeeps(lines, w, line);
    }
  }

  /** No line even starts like the key. */
  predicate Fresh(lines: Lines, key: string) {
    !Grep(lines, key)
  }

  /** Neither form in which the write may reach the file begins like the key. */
  predicate NeverBegins(w: Write, key: string) {
    !Matches(key, Assign(w.key, Written(w.value))) && !Matches(key, Assign(w.key, w.value))
  }

  lemma WriteKeepsFresh(lines: Lines, w: Write, key: string)
    requires IsWrite(w) && Fresh(lines, key) && NeverBegins(w, key)
    ensures Fresh(Apply(lines, w), key)
  {
    forall k | 0 <= k < |Apply(lines, w)| ensures !Matches(key, Apply(lines, w)[k]) {
      AppliedLines(lines, w, Apply(lines, w)[k]);
    }
  }

  /** A write takes on a file that has the key, and a tame adding one also on a file where the key is fresh. */
  lemma WriteTakes(lines: Lines, w: Write)
    requires IsWrite(w) && (Has(lines, w.key) || (w.AddKey? && IsTame(w) && Fresh(lines, w.key)))
    ensures Maps(Apply(lines, w), w.key, Written(w.value))
  {
    EscapingIsExact(w.value, "");
    if Has(lines, w.key) {
      HasGrep(lines, w.key);
    }
    if w.SetupKey? {
      SetupMaps(lines, w.key, w.value);
    } else {
      AddOrSetupMaps(lines, w.key, w.value);
    }
  }

  /******* Series *******/

  /** The write `earlier` leaves the way free for a later write to `key`. */
  predicate LeavesRoomFor(earlier: Write, key: string) {
    earlier.key != key && Spares(earlier.key, key) && NeverBegins(earlier, key)
  }

  /** The write leaves the assignment of this text to the key alone. */
  predicate Respects(later: Write, key: string, text: string) {
    later.key != key && !Matches(later.key + "=", Assign(key, text))
  }

  lemma {:induction false} RoomKept(lines: Lines, ws: seq<Write>, key: string)
    requires AreWrites(ws) && IsKey(key) && forall k :: 0 <= k < |ws| ==> LeavesRoomFor(ws[k], key)
    ensures Has(lines, key) ==> Has(ApplyAll(lines, ws), key)
    ensures Fresh(lines, key) ==> Fresh(ApplyAll(lines, ws), key)
  {
    if ws != [] {
      var n := |ws| - 1;
      RoomKept(lines, ws[..n], key);
      if Has(lines, key) {
        WriteKeepsHas(ApplyAll(lines, ws[..n]), ws[n], key);
      }
      if Fresh(lines, key) {
        WriteKeepsFresh(ApplyAll(lines, ws[..n]), ws[n], key);
      }
    }
  }

  lemma {:induction false} MappedKept(lines: Lines, ws: seq<Write>, key: string, text: string)
    requires AreWrites(ws) && IsKey(key) && Maps(lines, key, text)
    requires forall k :: 0 <= k < |ws| ==> Respects(ws[k], key, text)
    ensures Maps(ApplyAll(lines, ws), key, text)
  {
    if ws != [] {
      var n := |ws| - 1;
      MappedKept(lines, ws[..n], key, text);
      WriteKeeps(ApplyAll(lines, ws[..n]), ws[n], key, text);
    }
  }

  lemma {:induction false} HasKept(lines: Lines, ws: seq<Write>, key: string)
    requires AreWrites(ws) && IsKey(key) && Has(lines, key)
    requires forall k :: 0 <= k < |ws| ==> ws[k].key == key || Spares(ws[k].key, key)
    ensures Has(ApplyAll(lines, ws), key)
  {
    if ws != [] {
      var n := |ws| - 1;
      HasKept(lines, ws[..n], key);
      WriteKeepsHas(ApplyAll(lines, ws[..n]), ws[n], key);
    }
  }

  /** In a series that keeps a key the file has, the last write of that key is what the final file says about it. */
  lemma LastWriteMaps(lines: Lines, ws: seq<Write>, i: nat)
    requires AreWrites(ws) && i < |ws| && Has(lines, ws[i].key)
    requires forall k :: 0 <= k < i ==> ws[k].key == ws[i].key || Spares(ws[k].key, ws[i].key)
    requires forall k :: i < k < |ws| ==> Respects(ws[k], ws[i].key, Written(ws[i].value))
    ensures Maps(ApplyAll(lines, ws), ws[i].key, Written(ws[i].value))
  {
    hide Apply, Maps, Has, Fresh, Respects, IsKey, SedPlain, Written, Spares;
    var before, after := ws[..i], ws[i + 1..];
    HasKept(lines, before, ws[i].key);
    WriteTakes(ApplyAll(lines, before), ws[i]);
    assert ws[..i + 1][..i] == before && ws == ws[..i + 1] + after;
    ApplyAppend(lines, ws[..i + 1], after);
    MappedKept(ApplyAll(lines, ws[..i + 1]), after, ws[i].key, Written(ws[i].value));
  }

  /** In a series that leaves room for a key no line begins like, the one adding write of that key puts its value into
      the final file as it is. */
  lemma OnlyWriteMaps(lines: Lines, ws: seq<Write>, i: nat)
    requires AreWrites(ws) && i < |ws| && ws[i].AddKey? && Fresh(lines, ws[i].key)
    requires forall k :: 0 <= k < i ==> LeavesRoomFor(ws[k], ws[i].key)
    requires forall k :: i < k < |ws| ==> Respects(ws[k], ws[i].key, ws[i].value)
    ensures Maps(ApplyAll(lines, ws), ws[i].key, ws[i].value)
  {
    hide Apply, Maps, Has, Fresh, LeavesRoomFor, Respects, IsKey, SedPlain, Written;
    var before, after := ws[..i], ws[i + 1..];
    RoomKept(lines, before, ws[i].key);
    FreshTakes(ApplyAll(lines, before), ws[i]);
    assert ws[..i + 1][..i] == before && ws == ws[..i + 1] + after;
    ApplyAppend(lines, ws[..i + 1], after);
    MappedKept(ApplyAll(lines, ws[..i + 1]), after, ws[i].key, ws[i].value);
  }

  lemma FreshTakes(lines: Lines, w: Write)
    requires IsWrite(w) && w.AddKey? && Fresh(lines, w.key)
    ensures Maps(Apply(lines, w), w.key, w.value)
  {
    AddOrSetupMaps(lines, w.key, w.value);
  }

  /** In a series of writes that leave each other room, each tame write is what the final file says about its key. */
  lemma SeriesMaps(lines: Lines, ws: seq<Write>, i: nat)
    requires AreWrites(ws) && i < |ws| && IsTame(ws[i])
    requires Has(lines, ws[i].key) || (ws[i].AddKey? && Fresh(lines, ws[i].key))
    requires forall k :: 0 <= k < i ==> LeavesRoomFor(ws[k], ws[i].key)
    requires forall k :: i < k < |ws| ==> Respects(ws[k], ws[i].key, Written(ws[i].value))
    ensures Maps(ApplyAll(lines, ws), ws[i].key, Written(ws[i].value))
  {
    hide Apply, Maps, Has, Fresh, NeverBegins, Respects, IsKey, SedPlain, Written, Spares;
    if Has(lines, ws[i].key) {
      LastWriteMaps(lines, ws, i);
    } else {
      TameText(ws[i]);
      OnlyWriteMaps(lines, ws, i);
    }
  }

  lemma TameText(w: Write)
    requires IsWrite(w) && IsTame(w)
    ensures w.AddKey? ==> Written(w.value) == w.value
  {
    EscapingIsExact(w.value, "");
  }

  /******* A series of overriding writes *******/

  /** The last value a series gives to the key, if any. */
  function LastFor(ws: seq<Write>, key: string): Option<string> {
    if ws == [] then None
    else if ws[|ws| - 1].key == key then Some(ws[|ws| - 1].value)
    else LastFor(ws[..|ws| - 1], key)
  }

  /** Writes that spare the key override what the file says about it exactly when they name it. */
  lemma {:induction false} OverridesMap(lines: Lines, ws: seq<Write>, key: string, value: string)
    requires AreWrites(ws) && IsKey(key) && Maps(lines, key, Written(value))
    requires forall k :: 0 <= k < |ws| ==> ws[k].key == key || Spares(ws[k].key, key)
    ensures Maps(ApplyAll(lines, ws), key, Written(match LastFor(ws, key) case Some(v) => v case None => value))
  {
    if ws != [] {
      var n := |ws| - 1;
      OverridesMap(lines, ws[..n], key, value);
      var soFar := match LastFor(ws[..n], key) case Some(v) => v case None => value;
      if ws[n].key == key {
        MappedHas(ApplyAll(lines, ws[..n]), key, Written(soFar));
        WriteTakes(ApplyAll(lines, ws[..n]), ws[n]);
      } else {
        SparesIsExact(ws[n].key, key);
        WriteKeeps(ApplyAll(lines, ws[..n]), ws[n], key, Written(soFar));
      }
    }
  }
}
