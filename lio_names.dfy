/** The pure string derivations of the LIO target adapter: the fields it cuts
    out of target names, CHAP strings and provider records, and the scan of
    the tool's target listing (cinder/volume/targets/lio.py). */
module LioNames {
  import opened Common
  import opened PyStr

  /** `c` occurs in `s` exactly when it is counted there. */
  lemma {:induction false} CountIn(s: string, c: char)
    ensures Count(s, c) > 0 <==> c in s
    decreases |s|
  {
    if |s| > 0 {
      CountIn(s[1..], c);
      assert s == [s[0]] + s[1..];
    }
  }

  /** `sep.join([a, b, c])`. */
  lemma Join3(a: string, b: string, c: string, sep: char)
    ensures Join([a, b, c], sep) == a + [sep] + b + [sep] + c
  {
    assert [a, b, c][1..] == [b, c];
    assert [b, c][1..] == [c];
    assert Join([b, c], sep) == b + [sep] + c;
  }

  /** An IQN: the configured prefix followed by a volume name or id. */
  function Iqn(prefix: string, suffix: string): string
  {
    prefix + suffix
  }

  /** `name.split(':')[1]`: the volume id inside a target name (lio.py:97). */
  function VolumeIdOf(name: string): (r: Result<string>)
    ensures r.Ok? <==> ':' in name
    ensures r.Err? ==> r.error == IndexError
    ensures r.Ok? ==> ':' !in r.value
  {
    var fields := Split(name, ':');
    CountIn(name, ':');
    if |fields| >= 2 then Ok(fields[1]) else Err(IndexError)
  }

  /** `s` is `head`, `sep`, `field`, followed by nothing or by more `sep`
      fields: `field` is the second `sep` field of `s`. */
  ghost predicate SecondField(s: string, sep: char, head: string, field: string, tail: string)
  {
    sep !in head && sep !in field && (tail == "" || tail[0] == sep) &&
    s == head + [sep] + field + tail
  }

  /** The volume id of a target name is its second colon field. */
  lemma VolumeIdIsSecondField(name: string)
    requires VolumeIdOf(name).Ok?
    ensures exists head, tail :: SecondField(name, ':', head, VolumeIdOf(name).value, tail)
  {
    var fields := Split(name, ':');
    var tail := if |fields| == 2 then "" else ":" + Join(fields[2..], ':');
    assert fields[1..][1..] == fields[2..];
    assert Join(fields[1..], ':') == fields[1] + tail;
    assert SecondField(name, ':', fields[0], fields[1], tail);
  }

  /** Conversely, the second colon field of a target name is its volume id. */
  lemma SecondFieldIsVolumeId(name: string, head: string, id: string, tail: string)
    requires SecondField(name, ':', head, id, tail)
    ensures VolumeIdOf(name) == Ok(id)
  {
    SplitFirstField(id, tail, ':');
    SplitSecondField(head, id + tail, ':');
    assert name == head + ([':'] + (id + tail));
  }

  /** The prefix ends in a colon and has no other one. */
  ghost predicate OneColonPrefix(prefix: string)
  {
    |prefix| > 0 && prefix[|prefix| - 1] == ':' && ':' !in prefix[..|prefix| - 1]
  }

  /** The volume id cut out of a target name built by `ensure_export` is the
      volume name it started from, whenever the prefix ends in its only
      colon and the name has none. So the IQN `create_iscsi_target` looks
      up after creating is exactly the name it created. */
  lemma IqnRoundTrip(prefix: string, volumeName: string)
    requires OneColonPrefix(prefix)
    requires ':' !in volumeName
    ensures VolumeIdOf(Iqn(prefix, volumeName)) == Ok(volumeName)
    ensures Iqn(prefix, VolumeIdOf(Iqn(prefix, volumeName)).value) == Iqn(prefix, volumeName)
  {
    var head := prefix[..|prefix| - 1];
    assert prefix == head + ":";
    assert Join([head, volumeName], ':') == prefix + volumeName;
    SplitJoin([head, volumeName], ':');
  }

  /** The colon condition on the prefix is needed: when the prefix has a
      colon before its last one, the id cut out is a piece of the prefix. */
  lemma IqnRoundTripNeedsOneColon(org: string, unit: string, volumeName: string)
    requires ':' !in org && ':' !in unit
    ensures VolumeIdOf(Iqn(org + ":" + unit + ":", volumeName)) == Ok(unit)
  {
    var name := Iqn(org + ":" + unit + ":", volumeName);
    assert name == org + ":" + unit + (":" + volumeName);
    SecondFieldIsVolumeId(name, org, unit, ":" + volumeName);
  }

  /** `chap_auth.split(' ')[1:]` unpacked into user and password; no CHAP
      string gives two empty strings (lio.py:101-104). */
  function ChapCredentials(chapAuth: Option<string>): (r: Result<(string, string)>)
    ensures chapAuth.None? ==> r == Ok(("", ""))
    ensures chapAuth.Some? ==> (r.Ok? <==> Count(chapAuth.value, ' ') == 2)
    ensures r.Err? ==> r.error == ValueError
    ensures chapAuth.Some? && r.Ok? ==>
              ' ' !in r.value.0 && ' ' !in r.value.1 &&
              chapAuth.value == Split(chapAuth.value, ' ')[0] + " " + r.value.0 + " " + r.value.1
  {
    match chapAuth
    case None => Ok(("", ""))
    case Some(auth) =>
      var fields := Split(auth, ' ');
      if |fields| == 3 then
        assert fields == [fields[0], fields[1], fields[2]];
        Join3(fields[0], fields[1], fields[2], ' ');
        Ok((fields[1], fields[2]))
      else
        Err(ValueError)
  }

  /** A CHAP string "method user password" yields exactly that user and password. */
  lemma ChapCredentialsOfTriple(authMethod: string, user: string, password: string)
    requires ' ' !in authMethod && ' ' !in user && ' ' !in password
    ensures ChapCredentials(Some(authMethod + " " + user + " " + password)) == Ok((user, password))
  {
    Join3(authMethod, user, password, ' ');
    SplitJoin([authMethod, user, password], ' ');
  }

  /** `provider_auth.split(' ', 3)` unpacked into three names: at most three
      splits, so a fourth space leaves four fields and the unpacking fails;
      `None` has no `split` (lio.py:58-60, 158-159). */
  function AuthFields(auth: Option<string>): (r: Result<(string, string, string)>)
    ensures auth.None? ==> r == Err(AttributeError)
    ensures auth.Some? ==> (r.Ok? <==> Count(auth.value, ' ') == 2)
    ensures auth.Some? && r.Err? ==> r.error == ValueError
    ensures r.Ok? ==> ' ' !in r.value.0 && ' ' !in r.value.1 && ' ' !in r.value.2
    ensures r.Ok? ==> auth.value == r.value.0 + " " + r.value.1 + " " + r.value.2
  {
    match auth
    case None => Err(AttributeError)
    case Some(s) =>
      var fields := SplitMax(s, ' ', 3);
      if |fields| == 3 then
        SplitMaxAgrees(s, ' ', 3);
        assert fields == [fields[0], fields[1], fields[2]];
        Join3(fields[0], fields[1], fields[2], ' ');
        Ok((fields[0], fields[1], fields[2]))
      else
        Err(ValueError)
  }

  /** A provider_auth "method user password" unpacks into exactly those three names. */
  lemma AuthFieldsOfTriple(authMethod: string, user: string, password: string)
    requires ' ' !in authMethod && ' ' !in user && ' ' !in password
    ensures AuthFields(Some(authMethod + " " + user + " " + password)) == Ok((authMethod, user, password))
  {
    var s := authMethod + " " + user + " " + password;
    Join3(authMethod, user, password, ' ');
    SplitJoin([authMethod, user, password], ' ');
    SplitMaxAgrees(s, ' ', 3);
  }

  /** `provider_location.split(' ')[1]`: the target IQN recorded for a volume
      (lio.py:156, 187). */
  function ProviderIqn(location: Option<string>): (r: Result<string>)
    ensures location.None? ==> r == Err(AttributeError)
    ensures location.Some? ==> (r.Ok? <==> ' ' in location.value)
    ensures location.Some? && r.Err? ==> r.error == IndexError
    ensures r.Ok? ==> ' ' !in r.value
  {
    match location
    case None => Err(AttributeError)
    case Some(s) =>
      CountIn(s, ' ');
      var fields := Split(s, ' ');
      if |fields| >= 2 then Ok(fields[1]) else Err(IndexError)
  }

  /** The IQN taken from a provider location is its second space field. */
  lemma ProviderIqnIsSecondField(location: string)
    requires ProviderIqn(Some(location)).Ok?
    ensures exists portal, tail :: SecondField(location, ' ', portal, ProviderIqn(Some(location)).value, tail)
  {
    var fields := Split(location, ' ');
    var tail := if |fields| == 2 then "" else " " + Join(fields[2..], ' ');
    assert fields[1..][1..] == fields[2..];
    assert Join(fields[1..], ' ') == fields[1] + tail;
    assert SecondField(location, ' ', fields[0], fields[1], tail);
  }

  /** Conversely, the second space field of a provider location, however many
      fields follow it, is the IQN taken from it. */
  lemma SecondFieldIsProviderIqn(location: string, portal: string, iqn: string, tail: string)
    requires SecondField(location, ' ', portal, iqn, tail)
    ensures ProviderIqn(Some(location)) == Ok(iqn)
  {
    SplitFirstField(iqn, tail, ' ');
    SplitSecondField(portal, iqn + tail, ' ');
    assert location == portal + ([' '] + (iqn + tail));
  }

  /** A provider location "portal iqn lun" yields its IQN. */
  lemma ProviderIqnOfLocation(portal: string, iqn: string, lun: string)
    requires ' ' !in portal && ' ' !in iqn && ' ' !in lun
    ensures ProviderIqn(Some(portal + " " + iqn + " " + lun)) == Ok(iqn)
  {
    Join3(portal, iqn, lun, ' ');
    SplitJoin([portal, iqn, lun], ' ');
  }

  /** What `_get_target` returns for the listing `lines`: the first line that
      contains `iqn`, or None (lio.py:86-91). */
  function FirstContaining(lines: seq<string>, iqn: string): Option<string>
    decreases |lines|
  {
    if |lines| == 0 then None
    else if Contains(lines[0], iqn) then Some(lines[0])
    else FirstContaining(lines[1..], iqn)
  }

  /** Some line of `lines` contains `iqn`. */
  ghost predicate Listed(lines: seq<string>, iqn: string)
  {
    exists i :: 0 <= i < |lines| && Contains(lines[i], iqn)
  }

  /** Line `i` is the first of `lines` that contains `iqn`. */
  ghost predicate FirstAt(lines: seq<string>, iqn: string, i: int)
  {
    0 <= i < |lines| && Contains(lines[i], iqn) &&
    forall j :: 0 <= j < i ==> !Contains(lines[j], iqn)
  }

  /** FirstContaining finds nothing exactly when no line contains the IQN,
      and otherwise returns the first line that does. */
  lemma {:induction false} FirstContainingSpec(lines: seq<string>, iqn: string)
    ensures FirstContaining(lines, iqn).None? <==> !Listed(lines, iqn)
    ensures FirstContaining(lines, iqn).Some? ==>
              exists i :: FirstAt(lines, iqn, i) && lines[i] == FirstContaining(lines, iqn).value
    decreases |lines|
  {
    if |lines| > 0 && !Contains(lines[0], iqn) {
      FirstContainingSpec(lines[1..], iqn);
      forall i | 0 <= i < |lines| && Contains(lines[i], iqn)
        ensures i >= 1 && Contains(lines[1..][i - 1], iqn)
      {
      }
      if FirstContaining(lines, iqn).Some? {
        var i :| FirstAt(lines[1..], iqn, i) && lines[1..][i] == FirstContaining(lines, iqn).value;
        assert FirstAt(lines, iqn, i + 1);
      }
    } else if |lines| > 0 {
      assert FirstAt(lines, iqn, 0);
    }
  }

  /** An empty IQN is contained in every line, so the lookup then always
      returns the first line of the listing. */
  lemma EmptyIqnMatchesFirstLine(out: string)
    ensures FirstContaining(Split(out, '\n'), "") == Some(Split(out, '\n')[0])
  {
  }
}
