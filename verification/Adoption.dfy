/** How an adopted canary's configuration becomes the release's: in the release itself or, if an application owns the
    release, in the release's vertex of the application. */
module Adoption {
  import opened Kube
  import opened JsonTree
  import opened Chart

  const APPLICATION_API_VERSION := "orchestration.caicloud.io/v1alpha1"
  const APPLICATION_KIND := "Application"

  datatype Vertex = Vertex(name: string, config: Json)

  datatype Application = Application(resourceVersion: nat, vertexes: seq<Vertex>)

  type Applications = map<string, Application>

  /** A release as the lister hands it out; adoption writes its configuration in place. */
  class ReleaseObject {
    const name: string
    const resourceVersion: nat
    const owners: seq<OwnerReference>
    const version: int
    var config: Json

    constructor (name: string, resourceVersion: nat, owners: seq<OwnerReference>, version: int, config: Json)
      ensures this.name == name && this.resourceVersion == resourceVersion && this.owners == owners
      ensures this.version == version && this.config == config
    {
      this.name, this.resourceVersion, this.owners := name, resourceVersion, owners;
      this.version, this.config := version, config;
    }
  }

  /** What the server holds: the release's configuration under its resource version, and the applications. */
  class ReleaseServer {
    const reliable: bool
    var resourceVersion: nat
    var config: Json
    var apps: Applications

    constructor (reliable: bool, resourceVersion: nat, config: Json, apps: Applications)
      ensures this.reliable == reliable && this.resourceVersion == resourceVersion && this.config == config
              && this.apps == apps
    {
      this.reliable, this.resourceVersion, this.config, this.apps := reliable, resourceVersion, config, apps;
    }

    /** An update of the version that the server holds may take effect, reported or not; any other is refused. */
    method UpdateRelease(sent: Json, sentVersion: nat) returns (ok: bool)
      modifies this`config, this`resourceVersion
      ensures if unchanged(this) then !ok
              else sentVersion == old(resourceVersion) && resourceVersion == old(resourceVersion) + 1 && config == sent
      ensures reliable && sentVersion == old(resourceVersion) ==> ok
    {
      var effective: bool, reported: bool := *, *;
      ok := false;
      if sentVersion == resourceVersion && (effective || reliable) {
        config, resourceVersion := sent, resourceVersion + 1;
        ok := reported || reliable;
      }
    }

    method UpdateApplication(app: string, sent: Application) returns (ok: bool)
      modifies this`apps
      ensures if apps == old(apps) then !ok
              else && app in old(apps) && sent.resourceVersion == old(apps)[app].resourceVersion
                   && apps == old(apps)[app := sent.(resourceVersion := sent.resourceVersion + 1)]
      ensures reliable && app in old(apps) && sent.resourceVersion == old(apps)[app].resourceVersion ==> ok
    {
      var effective: bool, reported: bool := *, *;
      ok := false;
      if app in apps && sent.resourceVersion == apps[app].resourceVersion && (effective || reliable) {
        apps := apps[app := sent.(resourceVersion := sent.resourceVersion + 1)];
        ok := reported || reliable;
        assert apps[app].resourceVersion != old(apps)[app].resourceVersion;
      }
    }
  }

  predicate IsApplication(o: OwnerReference) {
    o.apiVersion == APPLICATION_API_VERSION && o.kind == APPLICATION_KIND
  }

  function ControllerOf(owners: seq<OwnerReference>): Option<OwnerReference> {
    if owners == [] then None else if IsApplication(owners[0]) then Some(owners[0]) else ControllerOf(owners[1..])
  }

  /** The first owner that is an Application of the orchestration group is the controller. */
  lemma {:induction false} ControllerOfExactly(owners: seq<OwnerReference>, k: nat)
    requires k <= |owners|
    requires k < |owners| ==>
               owners[k].apiVersion == "orchestration.caicloud.io/v1alpha1" && owners[k].kind == "Application"
    requires forall j | 0 <= j < k ::
               owners[j].apiVersion != "orchestration.caicloud.io/v1alpha1" || owners[j].kind != "Application"
    ensures ControllerOf(owners) == if k < |owners| then Some(owners[k]) else None
  {
    if k > 0 {
      ControllerOfExactly(owners[1..], k - 1);
    }
  }

  method GetControllerOf(owners: seq<OwnerReference>) returns (owner: Option<OwnerReference>)
    ensures owner == ControllerOf(owners)
  {
    for i := 0 to |owners|
      invariant ControllerOf(owners) == ControllerOf(owners[i..])
    {
      assert owners[i..][1..] == owners[i + 1..];
      if IsApplication(owners[i]) {
        return Some(owners[i]);
      }
    }
    owner := None;
  }

  /** The first vertex of a name gets the configuration. */
  function WithVertex(vs: seq<Vertex>, name: string, config: Json): (r: seq<Vertex>)
    ensures |r| == |vs|
  {
    if vs == [] then []
    else if vs[0].name == name then [vs[0].(config := config)] + vs[1..]
    else [vs[0]] + WithVertex(vs[1..], name, config)
  }

  /** The index of the first vertex of a name, or |vs|. */
  function VertexIndex(vs: seq<Vertex>, name: string): (k: nat)
    ensures k <= |vs| && (k < |vs| ==> vs[k].name == name)
    ensures forall j | 0 <= j < k :: vs[j].name != name
  {
    if vs == [] || vs[0].name == name then 0 else 1 + VertexIndex(vs[1..], name)
  }

  /** A vertex of the name, if there is one, is adopted: the first one reads the configuration and no other vertex
      changed.  If there is none, the application stays as it was, and nothing reports that. */
  lemma {:induction false} VertexAdopted(vs: seq<Vertex>, name: string, config: Json)
    ensures var k := VertexIndex(vs, name);
            WithVertex(vs, name, config) == if k < |vs| then vs[k := Vertex(name, config)] else vs
  {
    if vs != [] && vs[0].name != name {
      VertexAdopted(vs[1..], name, config);
      assert vs == [vs[0]] + vs[1..];
    }
  }

  method SetVertex(vs: array<Vertex>, name: string, config: Json)
    modifies vs
    ensures vs[..] == WithVertex(old(vs[..]), name, config)
  {
    hide WithVertex;
    var i := 0;
    while i < vs.Length && vs[i].name != name
      invariant 0 <= i <= vs.Length && vs[..] == old(vs[..])
      invariant forall j | 0 <= j < i :: vs[j].name != name
    {
      i := i + 1;
    }
    VertexAdopted(vs[..], name, config);
    IndexUnique(vs[..], name, i);
    if i < vs.Length {
      vs[i] := vs[i].(config := config);
    }
  }

  lemma {:induction false} IndexUnique(vs: seq<Vertex>, name: string, k: nat)
    requires k <= |vs| && (k < |vs| ==> vs[k].name == name) && forall j | 0 <= j < k :: vs[j].name != name
    ensures VertexIndex(vs, name) == k
  {
  }

  /** The server has accepted `config` for the release, where its owner keeps it. */
  predicate Accepted(server: ReleaseServer, owners: seq<OwnerReference>, name: string,
                     cachedApps: Applications, config: Json)
    reads server
  {
    match ControllerOf(owners)
    case None => server.config == config
    case Some(app) =>
      && app.name in cachedApps && app.name in server.apps
      && server.apps[app.name].vertexes == WithVertex(cachedApps[app.name].vertexes, name, config)
  }

  /** The server has accepted exactly the configuration that replaces `config` by the canary's. */
  predicate AcceptedReplacement(server: ReleaseServer, owners: seq<OwnerReference>, name: string,
                                cachedApps: Applications, config: Json, canaryRelease: string, path: string,
                                newValue: Json)
    reads server
  {
    var replaced := ReplaceConfig(config, path, newValue, CanarySuffix(canaryRelease));
    CanarySuffix(canaryRelease) != "" && replaced.Some? && Accepted(server, owners, name, cachedApps, replaced.value)
  }

  /** With no call failing, an adoption still needs a canary of the release's own naming, a configuration that can be
      replaced, and a cached object at the version that the server has. */
  predicate Adoptable(server: ReleaseServer, release: ReleaseObject, cachedApps: Applications, canaryRelease: string,
                      path: string, newValue: Json)
    reads server, release
  {
    && CanarySuffix(canaryRelease) != ""
    && ReplaceConfig(release.config, path, newValue, CanarySuffix(canaryRelease)).Some?
    && match ControllerOf(release.owners)
       case None => release.resourceVersion == server.resourceVersion
       case Some(app) =>
         app.name in cachedApps && app.name in server.apps
         && cachedApps[app.name].resourceVersion == server.apps[app.name].resourceVersion
  }

  /** The middle part of an adoption.  Success means that the server accepted exactly the replaced configuration; a
      release without an application has been changed in place even if the update failed. */
  method AdoptConfig(server: ReleaseServer, release: ReleaseObject, cachedApps: Applications,
                     canaryRelease: string, path: string, newValue: Json)
    returns (ok: bool)
    modifies server, release`config
    ensures ok ==>
              AcceptedReplacement(server, release.owners, release.name, cachedApps, old(release.config), canaryRelease,
                                  path, newValue)
    ensures release.config ==
              var r := ReplaceConfig(old(release.config), path, newValue, CanarySuffix(canaryRelease));
              if CanarySuffix(canaryRelease) != "" && r.Some? && ControllerOf(release.owners).None? then r.value
              else old(release.config)
    ensures if server.resourceVersion == old(server.resourceVersion) then ok ==> ControllerOf(release.owners).Some?
            else && ControllerOf(release.owners).None? && old(server.resourceVersion) == release.resourceVersion
                 && server.resourceVersion == old(server.resourceVersion) + 1
    ensures server.reliable ==>
              (ok <==> old(Adoptable(server, release, cachedApps, canaryRelease, path, newValue)))
  {
    hide ReplaceConfig;
    var suffix := CanarySuffix(canaryRelease);
    if suffix == "" {
      return false;
    }
    var replaced := ReplaceConfig(release.config, path, newValue, suffix);
    if replaced.None? {
      return false;
    }
    var controller := GetControllerOf(release.owners);
    if controller.None? {
      release.config := replaced.value;
      ok := server.UpdateRelease(release.config, release.resourceVersion);
    } else {
      if controller.value.name !in cachedApps {
        return false;
      }
      var cached := cachedApps[controller.value.name].vertexes;
      var app := new Vertex[|cached|](i requires 0 <= i < |cached| => cached[i]);
      assert app[..] == cached;
      SetVertex(app, release.name, replaced.value);
      ok := server.UpdateApplication(controller.value.name, cachedApps[controller.value.name].(vertexes := app[..]));
    }
  }

  // ---------------------------------------------------------------- attempts that fail

  /** How often the configuration that an attempt sends has been replaced, after so many failed attempts on the same
      cached release. */
  function Replacements(owners: seq<OwnerReference>, failed: nat): nat {
    if ControllerOf(owners).None? then failed + 1 else 1
  }

  function VertexRevision(vs: seq<Vertex>, name: string, path: string): Option<Json> {
    var k := VertexIndex(vs, name);
    if k < |vs| then Get(vs[k].config, ConfigPath(path) + REVISION) else None
  }

  /** The revision that the server holds for the release, where its owner keeps it. */
  function HeldRevision(server: ReleaseServer, owners: seq<OwnerReference>, name: string, path: string): Option<Json>
    reads server
  {
    match ControllerOf(owners)
    case None => Get(server.config, ConfigPath(path) + REVISION)
    case Some(app) =>
      if app.name in server.apps then VertexRevision(server.apps[app.name].vertexes, name, path) else None
  }

  /** The release has its place on the server: itself, or a vertex in the application that the lister shows. */
  predicate HasPlace(owners: seq<OwnerReference>, name: string, cachedApps: Applications) {
    match ControllerOf(owners)
    case None => true
    case Some(app) =>
      app.name in cachedApps && VertexIndex(cachedApps[app.name].vertexes, name) < |cachedApps[app.name].vertexes|
  }

  lemma HeldIsAccepted(server: ReleaseServer, owners: seq<OwnerReference>, name: string,
                       cachedApps: Applications, config: Json, path: string)
    requires Accepted(server, owners, name, cachedApps, config) && HasPlace(owners, name, cachedApps)
    ensures HeldRevision(server, owners, name, path) == Get(config, ConfigPath(path) + REVISION)
  {
    hide Get, ConfigPath;
    if ControllerOf(owners).Some? {
      var vs := cachedApps[ControllerOf(owners).value.name].vertexes;
      var k := VertexIndex(vs, name);
      VertexAdopted(vs, name, config);
      IndexUnique(vs[k := Vertex(name, config)], name, k);
    }
  }

  /** The queue's attempts to adopt one cached release; the application lister may show something new at each.  The
      failed ones have changed a release without an application in place, so the one that succeeds has the server accept
      a configuration that was replaced once more per failure: from an integer revision k it accepts k + 1 exactly if
      the release has an application or nothing failed.  The server refuses the cached release once an update of it took
      effect, so none of the failed ones had. */
  method AdoptWithRetries(server: ReleaseServer, release: ReleaseObject, canaryRelease: string, path: string,
                          newValue: Json, most: nat)
    returns (ok: bool, failed: nat, cachedApps: Applications)
    modifies server, release`config
    ensures ok ==>
              var change := Change(newValue, CanarySuffix(canaryRelease));
              var replaced := ReplaceAll(old(release.config), path,
                                         Times(change, Replacements(release.owners, failed)));
              replaced.Some? && Accepted(server, release.owners, release.name, cachedApps, replaced.value)
    ensures ok && ControllerOf(release.owners).None? ==>
              && old(server.resourceVersion) == release.resourceVersion
              && server.resourceVersion == old(server.resourceVersion) + 1
    ensures ok && HasPlace(release.owners, release.name, cachedApps) ==>
              var before := Get(old(release.config), ConfigPath(path) + REVISION);
              var held := HeldRevision(server, release.owners, release.name, path);
              before.Some? && before.value.Int? && 0 <= before.value.number < 0x7fff_ffff_ffff_ffff - failed ==>
                && held == Some(Int(before.value.number + Replacements(release.owners, failed)))
                && (held == Some(Int(before.value.number + 1)) <==> ControllerOf(release.owners).Some? || failed == 0)
  {
    hide ReplaceConfig, ReplaceAll, ConfigPath, Get, Accepted, HasPlace, HeldRevision, ControllerOf;
    ghost var c, origin := Change(newValue, CanarySuffix(canaryRelease)), release.config;
    ok, failed, cachedApps := false, 0, map[];
    ghost var sent := origin;
    OneMore(origin, path, c, 0);
    while failed < most && !ok
      invariant c.suffix == "" || ReplaceConfig(origin, path, newValue, c.suffix).None?
                || ControllerOf(release.owners).Some? ==>
                  ok || release.config == origin
      invariant c.suffix != "" && ReplaceConfig(origin, path, newValue, c.suffix).Some?
                && ControllerOf(release.owners).None? && !ok ==>
                  ReplaceAll(origin, path, Times(c, failed)) == Some(release.config)
      invariant ok ==>
                  && ReplaceAll(origin, path, Times(c, Replacements(release.owners, failed))) == Some(sent)
                  && Accepted(server, release.owners, release.name, cachedApps, sent)
      invariant ok && server.resourceVersion == old(server.resourceVersion) ==> ControllerOf(release.owners).Some?
      invariant server.resourceVersion == old(server.resourceVersion)
             || (&& ControllerOf(release.owners).None? && old(server.resourceVersion) == release.resourceVersion
                 && server.resourceVersion == old(server.resourceVersion) + 1)
      decreases most - failed, !ok
    {
      cachedApps := *;
      ghost var cached := release.config;
      if ReplaceConfig(origin, path, newValue, c.suffix).Some? {
        ReplaceableAlways(origin, path, c, failed);
      }
      OneMore(origin, path, c, failed);
      ok := AdoptConfig(server, release, cachedApps, canaryRelease, path, newValue);
      if ok {
        sent := ReplaceConfig(cached, path, newValue, c.suffix).value;
      } else {
        failed := failed + 1;
      }
    }
    if ok {
      RevisionAfter(origin, path, c, Replacements(release.owners, failed));
      if HasPlace(release.owners, release.name, cachedApps) {
        HeldIsAccepted(server, release.owners, release.name, cachedApps, sent, path);
      }
    }
  }

  lemma RevisionAfter(origin: Json, path: string, c: Change, n: nat)
    requires n > 0 && ReplaceAll(origin, path, Times(c, n)).Some?
    ensures var before := Get(origin, ConfigPath(path) + REVISION);
            before.Some? && before.value.Int? && 0 <= before.value.number < 0x8000_0000_0000_0000 - n ==>
              Get(ReplaceAll(origin, path, Times(c, n)).value, ConfigPath(path) + REVISION)
                == Some(Int(before.value.number + n))
  {
    hide ReplaceAll, Get, ConfigPath;
    RevisionsCountUp(origin, path, Times(c, n));
  }
}
