/** ReplaceConfig and the renaming of controllers that goes with it. */
module Chart {
  import opened Text
  import opened Kube
  import opened JsonTree

  // ---------------------------------------------------------------- controller names

  function LastPart(name: string): string {
    var parts := Split(name, '-');
    parts[|parts| - 1]
  }

  /** The part of a canary release's name after its last dash, empty if it has none. */
  function CanarySuffix(name: string): string {
    if |Split(name, '-')| == 1 then "" else LastPart(name)
  }

  /** A last part as long as the suffix is taken for an earlier suffix and replaced; otherwise the suffix is added. */
  function Rebuilt(name: string, suffix: string): string {
    var parts := Split(name, '-');
    if suffix == "" then name
    else if |parts| == 1 || |LastPart(name)| != |suffix| then name + "-" + suffix
    else Join(parts[..|parts| - 1] + [suffix], '-')
  }

  /** rebuildControllerName overwrites the last slice element before it joins the slice again. */
  method RebuildControllerName(name: string, suffix: string) returns (r: string)
    ensures r == Rebuilt(name, suffix)
  {
    if suffix == "" {
      return name;
    }
    var slice := Split(name, '-');
    if |slice| == 1 {
      return name + "-" + suffix;
    }
    var existed := slice[|slice| - 1];
    if |existed| != |suffix| {
      return name + "-" + suffix;
    }
    assert slice[|slice| - 1 := suffix] == slice[..|slice| - 1] + [suffix];
    slice := slice[|slice| - 1 := suffix];
    return Join(slice, '-');
  }

  /** The parts of a name that rebuilding keeps. */
  function KeptParts(name: string, suffix: string): seq<string> {
    var parts := Split(name, '-');
    if |parts| == 1 || |LastPart(name)| != |suffix| then parts else parts[..|parts| - 1]
  }

  /** What a rebuilt name splits into: all parts but a replaced one, then the suffix. */
  lemma RebuiltParts(name: string, suffix: string)
    requires suffix != "" && Free(suffix, '-')
    ensures Split(Rebuilt(name, suffix), '-') == KeptParts(name, suffix) + [suffix]
  {
    var parts := Split(name, '-');
    if |parts| == 1 || |LastPart(name)| != |suffix| {
      SplitAppend(name, suffix, '-');
    } else {
      SplitIsFree(name, '-');
      SplitJoin(parts[..|parts| - 1] + [suffix], '-');
    }
  }

  /** Without a dash a name has no suffix, and otherwise that is what follows its last dash. */
  lemma CanarySuffixExactly(front: string, last: string)
    requires Free(last, '-')
    ensures CanarySuffix(last) == "" && CanarySuffix(front + "-" + last) == last
  {
    SplitFreeText(last, '-');
    SplitAppend(front, last, '-');
    assert front + ['-'] + last == front + "-" + last;
  }

  /** A suffix takes the place of a last part of its length, and is added to any other name; an empty one changes
      nothing. */
  lemma RebuiltExactly(front: string, last: string, suffix: string)
    requires Free(last, '-')
    ensures Rebuilt(last, suffix) == if suffix == "" then last else last + "-" + suffix
    ensures Rebuilt(front + "-" + last, suffix)
         == if suffix == "" then front + "-" + last
         else if |last| == |suffix| then front + "-" + suffix
         else front + "-" + last + "-" + suffix
  {
    SplitFreeText(last, '-');
    SplitAppend(front, last, '-');
    assert front + ['-'] + last == front + "-" + last;
    var parts := Split(front, '-');
    assert (parts + [last])[..|parts|] == parts;
    JoinAppend(parts, suffix, '-');
    JoinSplit(front, '-');
  }

  /** The suffix of a rebuilt name is the one it was given. */
  lemma SuffixOfRebuilt(name: string, suffix: string)
    requires suffix != "" && Free(suffix, '-')
    ensures CanarySuffix(Rebuilt(name, suffix)) == suffix
  {
    RebuiltParts(name, suffix);
  }

  /** Names do not grow over repeated canaries: after a first suffix, one of equal length takes its place. */
  lemma RebuildTwice(name: string, s: string, t: string)
    requires s != "" && |s| == |t| && Free(s, '-') && Free(t, '-')
    ensures Rebuilt(Rebuilt(name, s), t) == Rebuilt(name, t)
  {
    RebuiltParts(name, s);
    RebuiltParts(name, t);
    RebuiltParts(Rebuilt(name, s), t);
    JoinSplit(Rebuilt(name, t), '-');
    JoinSplit(Rebuilt(Rebuilt(name, s), t), '-');
  }

  // ---------------------------------------------------------------- configurations

  const CONFIG := "_config"
  const REVISION: seq<string> := ["_metadata", "revision"]
  const CONTROLLER_NAME: seq<string> := ["controllers", "[0]", "controller", "name"]

  /** Conversion to a signed 64-bit integer, by wrapping around. */
  function Int64(n: int): (r: int)
    ensures -0x8000_0000_0000_0000 <= r < 0x8000_0000_0000_0000
    ensures -0x8000_0000_0000_0000 <= n < 0x8000_0000_0000_0000 ==> r == n
  {
    (n + 0x8000_0000_0000_0000) % 0x1_0000_0000_0000_0000 - 0x8000_0000_0000_0000
  }

  /** A missing revision becomes 2, an integer is incremented, and anything else counts as 0. */
  function NextRevision(current: Option<Json>): int {
    match current
    case None => 2
    case Some(Int(k)) => Int64(k + 1)
    case Some(_) => 1
  }

  /** Where ReplaceConfig looks: the first segment of the path is skipped. */
  function ConfigPath(path: string): seq<string> {
    Split(path, '/')[1..] + [CONFIG]
  }

  /** The new configuration under its next revision; None where the code returns an error. */
  function WithRevision(config: Json, temp: Json): Option<Json> {
    Set(config, Int(NextRevision(Get(temp, REVISION))), REVISION)
  }

  function WithControllerName(config: Json, suffix: string): Option<Json> {
    match Get(config, CONTROLLER_NAME)
    case None => Some(config)
    case Some(Str(name)) =>
      if name == "" then Some(config) else Set(config, Str(Rebuilt(name, suffix)), CONTROLLER_NAME)
    case Some(_) => None
  }

  function ReplaceConfig(origin: Json, path: string, newValue: Json, suffix: string): Option<Json> {
    match (Get(newValue, [CONFIG]), Get(origin, ConfigPath(path)))
    case (Some(config), Some(temp)) =>
      (match WithRevision(config, temp)
       case Some(revised) =>
         (match WithControllerName(revised, suffix)
          case Some(named) => Set(origin, named, ConfigPath(path))
          case None => None)
       case None => None)
    case (_, _) => None
  }

  /** The configuration a successful replacement installs. */
  function Installed(origin: Json, path: string, newValue: Json, suffix: string): Json
    requires ReplaceConfig(origin, path, newValue, suffix).Some?
  {
    WithControllerName(WithRevision(Get(newValue, [CONFIG]).value, Get(origin, ConfigPath(path)).value).value,
                       suffix).value
  }

  /** The first segment of a path is useless; the others lead to the object whose "_config" is meant. */
  lemma ConfigPathOf(first: string, segments: seq<string>)
    requires Free(first, '/') && forall s | s in segments :: Free(s, '/')
    ensures ConfigPath(Join([first] + segments, '/')) == segments + ["_config"]
  {
    SplitJoin([first] + segments, '/');
    assert ([first] + segments)[1..] == segments;
  }

  /** A replacement installs one value at the path, and every disjoint path reads as before. */
  lemma ReplacementIsLocal(origin: Json, path: string, newValue: Json, suffix: string)
    requires ReplaceConfig(origin, path, newValue, suffix).Some?
    ensures var result := ReplaceConfig(origin, path, newValue, suffix).value;
            && (forall q :: Get(result, ConfigPath(path) + q) == Get(Installed(origin, path, newValue, suffix), q))
            && (forall q | Disjoint(ConfigPath(path), q) :: Get(result, q) == Get(origin, q))
  {
    var p, v := ConfigPath(path), Installed(origin, path, newValue, suffix);
    forall q ensures Get(Replace(origin, v, p), p + q) == Get(v, q) {
      GetReplaced(origin, v, p, q);
    }
    forall q | Disjoint(p, q) ensures Get(Replace(origin, v, p), q) == Get(origin, q) {
      GetElsewhere(origin, v, p, q);
    }
  }

  /** The revision has been set, the first controller name rebuilt, and every path disjoint from these two reads as in
      the new configuration; only what a "_metadata" that is no object held is lost. */
  lemma InstalledReads(origin: Json, path: string, newValue: Json, suffix: string)
    requires ReplaceConfig(origin, path, newValue, suffix).Some?
    ensures var installed, config := Installed(origin, path, newValue, suffix), Get(newValue, [CONFIG]).value;
            && Get(installed, REVISION) == Some(Int(NextRevision(Get(origin, ConfigPath(path) + REVISION))))
            && Get(installed, CONTROLLER_NAME) == (match Get(config, CONTROLLER_NAME)
                                                   case Some(Str(name)) =>
                                                     Some(Str(if name == "" then "" else Rebuilt(name, suffix)))
                                                   case other => other)
            && (forall q | Disjoint(REVISION, q) && Disjoint(CONTROLLER_NAME, q)
                && (q[0] != "_metadata" || ObjectsAlong(config, REVISION)) ::
                  Get(installed, q) == Get(config, q))
  {
    var config, temp := Get(newValue, [CONFIG]).value, Get(origin, ConfigPath(path)).value;
    var revised := WithRevision(config, temp).value;
    var revision := Int(NextRevision(Get(temp, REVISION)));
    GetAppend(origin, ConfigPath(path), REVISION);
    GetSet(config, revision, REVISION);
    SetBeside(config, revision, REVISION, CONTROLLER_NAME);
    NameStep(revised, suffix);
    forall q | Disjoint(REVISION, q) && Disjoint(CONTROLLER_NAME, q)
               && (q[0] != "_metadata" || ObjectsAlong(config, REVISION))
      ensures Get(Installed(origin, path, newValue, suffix), q) == Get(config, q)
    {
      if q[0] == "_metadata" {
        SetElsewhere(config, revision, REVISION, q);
      } else {
        SetBeside(config, revision, REVISION, q);
      }
    }
  }

  lemma NameStep(config: Json, suffix: string)
    requires WithControllerName(config, suffix).Some?
    ensures var named := WithControllerName(config, suffix).value;
            && Get(named, CONTROLLER_NAME) == (match Get(config, CONTROLLER_NAME)
                                               case Some(Str(name)) =>
                                                 Some(Str(if name == "" then "" else Rebuilt(name, suffix)))
                                               case other => other)
            && Get(named, REVISION) == Get(config, REVISION)
            && (forall q | Disjoint(CONTROLLER_NAME, q) :: Get(named, q) == Get(config, q))
  {
    match Get(config, CONTROLLER_NAME)
    case Some(Str(name)) =>
      if name != "" {
        var v := Str(Rebuilt(name, suffix));
        GetSet(config, v, CONTROLLER_NAME);
        assert Disjoint(CONTROLLER_NAME, REVISION);
        forall q | Disjoint(CONTROLLER_NAME, q)
          ensures Get(Set(config, v, CONTROLLER_NAME).value, q) == Get(config, q)
        {
          GetElsewhere(config, v, CONTROLLER_NAME, q);
        }
      }
    case _ =>
  }

  /** A replacement for the path first/segments, read path by path: at `segments` + "_config" there is the "_config" of
      the new value, under the next revision and with the first controller's name rebuilt; whatever is beside it reads
      as before. */
  lemma ReplacementReads(origin: Json, first: string, segments: seq<string>, newValue: Json, suffix: string)
    requires Free(first, '/') && forall s | s in segments :: Free(s, '/')
    requires ReplaceConfig(origin, Join([first] + segments, '/'), newValue, suffix).Some?
    ensures var result := ReplaceConfig(origin, Join([first] + segments, '/'), newValue, suffix).value;
            var p, controller := segments + ["_config"], ["controllers", "[0]", "controller", "name"];
            && (forall q | Disjoint(p, q) :: Get(result, q) == Get(origin, q))
            && Get(newValue, ["_config"]).Some?
            && var config := Get(newValue, ["_config"]).value;
               && (match Get(origin, p + ["_metadata", "revision"])
                   case None => Get(result, p + ["_metadata", "revision"]) == Some(Int(2))
                   case Some(Int(k)) =>
                     -0x8000_0000_0000_0000 <= k < 0x7fff_ffff_ffff_ffff ==>
                       Get(result, p + ["_metadata", "revision"]) == Some(Int(k + 1))
                   case Some(_) => Get(result, p + ["_metadata", "revision"]) == Some(Int(1)))
               && (match Get(config, controller)
                   case Some(Str(name)) =>
                     Get(result, p + controller) == Some(Str(if name == "" then "" else Rebuilt(name, suffix)))
                   case other => Get(result, p + controller) == other)
               && (forall q | Disjoint(["_metadata", "revision"], q) && Disjoint(controller, q)
                              && (q[0] != "_metadata" || ObjectsAlong(config, ["_metadata", "revision"])) ::
                     Get(result, p + q) == Get(config, q))
  {
    hide Get, ReplaceConfig, Installed, ObjectsAlong, Disjoint, Rebuilt;
    var path := Join([first] + segments, '/');
    ConfigPathOf(first, segments);
    ReplacementIsLocal(origin, path, newValue, suffix);
    InstalledReads(origin, path, newValue, suffix);
    NewValueIsThere(origin, path, newValue, suffix);
  }

  lemma NewValueIsThere(origin: Json, path: string, newValue: Json, suffix: string)
    requires ReplaceConfig(origin, path, newValue, suffix).Some?
    ensures Get(newValue, ["_config"]).Some?
  {
  }

  /** It succeeds exactly if the new value has an object for its "_config", in which the first controller has a text for
      its name or none, and the path leads to something. */
  lemma ReplaceableExactly(origin: Json, first: string, segments: seq<string>, newValue: Json, suffix: string)
    requires Free(first, '/') && forall s | s in segments :: Free(s, '/')
    ensures ReplaceConfig(origin, Join([first] + segments, '/'), newValue, suffix).Some? <==>
              && Get(origin, segments + ["_config"]).Some?
              && Get(newValue, ["_config"]).Some? && Get(newValue, ["_config"]).value.Obj?
              && var name := Get(Get(newValue, ["_config"]).value, ["controllers", "[0]", "controller", "name"]);
                 name.None? || name.value.Str?
  {
    var path := Join([first] + segments, '/');
    ConfigPathOf(first, segments);
    if Get(newValue, ["_config"]).Some? && Get(origin, segments + ["_config"]).Some? {
      var config, temp := Get(newValue, ["_config"]).value, Get(origin, segments + ["_config"]).value;
      SettableExactly(config, Int(NextRevision(Get(temp, REVISION))));
      if config.Obj? {
        SetBeside(config, Int(NextRevision(Get(temp, REVISION))), REVISION, CONTROLLER_NAME);
      }
    }
  }

  lemma SettableExactly(config: Json, v: Json)
    ensures Set(config, v, REVISION).Some? <==> config.Obj?
  {
  }

  // ---------------------------------------------------------------- revisions over repeated replacements

  datatype Change = Change(newValue: Json, suffix: string)

  /** The result of replacing the configuration at `path` once per change. */
  function ReplaceAll(origin: Json, path: string, changes: seq<Change>): Option<Json> {
    if changes == [] then Some(origin)
    else
      var n := |changes| - 1;
      match ReplaceAll(origin, path, changes[..n])
      case Some(before) => ReplaceConfig(before, path, changes[n].newValue, changes[n].suffix)
      case None => None
  }

  lemma RevisionStep(origin: Json, path: string, c: Change)
    requires ReplaceConfig(origin, path, c.newValue, c.suffix).Some?
    ensures Get(ReplaceConfig(origin, path, c.newValue, c.suffix).value, ConfigPath(path) + REVISION)
         == Some(Int(NextRevision(Get(origin, ConfigPath(path) + REVISION))))
  {
    InstalledReads(origin, path, c.newValue, c.suffix);
    ReplacementIsLocal(origin, path, c.newValue, c.suffix);
  }

  lemma Int64Step(a: int)
    ensures Int64(Int64(a) + 1) == Int64(a + 1)
  {
  }

  /** n replacements count the revision up n times: to n + 1 where there was none, to k + n from an integer k, and to n
      from anything else, all within 64 bits. */
  lemma {:induction false} RevisionsCountUp(origin: Json, path: string, changes: seq<Change>)
    requires changes != [] && ReplaceAll(origin, path, changes).Some?
    ensures var before, after := Get(origin, ConfigPath(path) + REVISION),
                                 Get(ReplaceAll(origin, path, changes).value, ConfigPath(path) + REVISION);
            && (before.None? ==> after == Some(Int(Int64(|changes| + 1))))
            && (before.Some? && before.value.Int? ==> after == Some(Int(Int64(before.value.number + |changes|))))
            && (before.Some? && !before.value.Int? ==> after == Some(Int(Int64(|changes|))))
  {
    hide Get, ReplaceConfig, ConfigPath, Int64;
    var n := |changes| - 1;
    RevisionStep(ReplaceAll(origin, path, changes[..n]).value, path, changes[n]);
    var before := Get(origin, ConfigPath(path) + REVISION);
    if n == 0 {
      assert ReplaceAll(origin, path, changes[..n]) == Some(origin);
      assert Int64(2) == 2 && Int64(1) == 1;
    } else {
      RevisionsCountUp(origin, path, changes[..n]);
      Int64Step(n + 1);
      Int64Step(n);
      if before.Some? && before.value.Int? {
        Int64Step(before.value.number + n);
      }
    }
  }

  lemma RevisionPath(segments: seq<string>)
    ensures segments + ["_config"] + REVISION == segments + ["_config", "_metadata", "revision"]
  {
  }

  lemma RevisionsWithin(origin: Json, path: string, changes: seq<Change>)
    requires changes != [] && ReplaceAll(origin, path, changes).Some?
    ensures var before, after := Get(origin, ConfigPath(path) + REVISION),
                                 Get(ReplaceAll(origin, path, changes).value, ConfigPath(path) + REVISION);
            && (before.None? && |changes| < 0x7fff_ffff_ffff_ffff ==> after == Some(Int(|changes| + 1)))
            && (before.Some? && before.value.Int?
                && -0x8000_0000_0000_0000 <= before.value.number + |changes| < 0x8000_0000_0000_0000 ==>
                  after == Some(Int(before.value.number + |changes|)))
  {
    hide Get, ReplaceAll, ConfigPath, Int64;
    RevisionsCountUp(origin, path, changes);
  }

  /** The same where the path leads. */
  lemma RevisionsCountUpAt(origin: Json, first: string, segments: seq<string>, changes: seq<Change>)
    requires Free(first, '/') && forall s | s in segments :: Free(s, '/')
    requires changes != [] && ReplaceAll(origin, Join([first] + segments, '/'), changes).Some?
    ensures var revision := segments + ["_config", "_metadata", "revision"];
            var before, after := Get(origin, revision),
                                 Get(ReplaceAll(origin, Join([first] + segments, '/'), changes).value, revision);
            && (before.None? && |changes| < 0x7fff_ffff_ffff_ffff ==> after == Some(Int(|changes| + 1)))
            && (before.Some? && before.value.Int?
                && -0x8000_0000_0000_0000 <= before.value.number + |changes| < 0x8000_0000_0000_0000 ==>
                  after == Some(Int(before.value.number + |changes|)))
  {
    hide Get, ReplaceAll, ConfigPath, Join, Free;
    ConfigPathOf(first, segments);
    RevisionPath(segments);
    RevisionsWithin(origin, Join([first] + segments, '/'), changes);
  }

  /** What succeeded once succeeds again on its own result. */
  lemma ReplacementRepeats(origin: Json, path: string, newValue: Json, suffix: string)
    requires ReplaceConfig(origin, path, newValue, suffix).Some?
    ensures ReplaceConfig(ReplaceConfig(origin, path, newValue, suffix).value, path, newValue, suffix).Some?
  {
    var once, config := ReplaceConfig(origin, path, newValue, suffix).value, Get(newValue, [CONFIG]).value;
    ReplacementIsLocal(origin, path, newValue, suffix);
    assert ConfigPath(path) + [] == ConfigPath(path);
    var temp := Get(once, ConfigPath(path)).value;
    SetBeside(config, Int(NextRevision(Get(Get(origin, ConfigPath(path)).value, REVISION))), REVISION, CONTROLLER_NAME);
    SetBeside(config, Int(NextRevision(Get(temp, REVISION))), REVISION, CONTROLLER_NAME);
  }

  /** The same change, `n` times. */
  function Times(c: Change, n: nat): (r: seq<Change>)
    ensures |r| == n && forall i | 0 <= i < n :: r[i] == c
  {
    seq(n, i => c)
  }

  lemma OneMore(origin: Json, path: string, c: Change, n: nat)
    ensures ReplaceAll(origin, path, Times(c, 0)) == Some(origin)
    ensures ReplaceAll(origin, path, Times(c, n)).Some? ==>
              ReplaceAll(origin, path, Times(c, n + 1))
                == ReplaceConfig(ReplaceAll(origin, path, Times(c, n)).value, path, c.newValue, c.suffix)
  {
    assert Times(c, n + 1)[..n] == Times(c, n);
  }

  /** What can be replaced once can be replaced any number of times. */
  lemma {:induction false} ReplaceableAlways(origin: Json, path: string, c: Change, n: nat)
    requires ReplaceConfig(origin, path, c.newValue, c.suffix).Some?
    ensures ReplaceAll(origin, path, Times(c, n)).Some?
    ensures ReplaceConfig(ReplaceAll(origin, path, Times(c, n)).value, path, c.newValue, c.suffix).Some?
  {
    hide ReplaceConfig, ReplaceAll;
    OneMore(origin, path, c, if n == 0 then 0 else n - 1);
    if n > 0 {
      ReplaceableAlways(origin, path, c, n - 1);
      ReplacementRepeats(ReplaceAll(origin, path, Times(c, n - 1)).value, path, c.newValue, c.suffix);
    }
  }
}
