/** The API server and nginx as the proxy sees them: every call may fail, before or after it took effect, and between
    any two calls the rest of the cluster goes on.  The log ties what happens here to the runs of the protocol. */
module ApiServer {
  import opened Text
  import opened Kube
  import opened Upstream
  import opened ChangeCheck
  import opened Routing
  import opened Protocol

  datatype CreateResult = Created | AlreadyExists | Failed

  /** What is asked for the original `name`, and the endpoints that its traffic is to be split between. */
  function Own(name: string, ports: seq<CanaryPort>): Column {
    Column("", ports, name + "-forked", name + "-canary")
  }

  /** The configuration splits the traffic of a port of `name` between its own fork and canary service as asked, exactly
      if the port is listed. */
  ghost predicate Covers(config: TemplateConfig, name: string, ports: seq<CanaryPort>) {
    forall p: ServicePort :: (exists e :: InConfig(e, config) && Serves(e, Own(name, ports), p)) <==> Listed(ports, p)
  }

  /** What was asked for when nginx was loaded, service by service. */
  type Asked = map<string, seq<CanaryPort>>

  ghost predicate CoversAll(config: TemplateConfig, names: set<string>, asked: Asked) {
    forall n | n in names :: n in asked && Covers(config, n, asked[n])
  }

  /** Events the proxy has no part in. */
  predicate Foreign(e: Event) {
    e.ProxyObserves? || e.RequestTransition? || e.CreateDeployment? || e.DeleteExtraDeployment? || e.DeleteOnCleanup?
  }

  /** Events that only move the proxy's own position. */
  predicate Internal(e: Event) {
    || e.SyncBegins? || e.ManifestUnchanged? || e.ConfigUnchanged? || e.SyncCompletes? || e.SyncFails?
    || e.CleanupBegins? || e.SkipOriginal? || e.RetryRecovery? || e.RecoverySucceeds? || e.RecoveryFails?
    || e.AdoptionFails? || e.PhaseNotWritten?
  }

  // ---------------------------------------------------------------- objects and protocol states

  type Services = map<string, Service>

  predicate Selects(services: Services, name: string, selector: map<string, string>) {
    name in services && services[name].selector == selector
  }

  predicate Named(services: Services) {
    forall x | x in services :: services[x].name == x
  }

  /** No original is named like the fork or the canary service of one. */
  predicate NoClash(names: set<string>) {
    forall n | n in names :: n + FORKED_SUFFIX !in names && n + CANARY_SUFFIX !in names
  }

  /** The sets of a protocol state say what the services are: who selects the proxy, whose fork and whose canary
      service exist.  Neither forks nor canary services ever select the proxy. */
  predicate Reflects(names: set<string>, selector: map<string, string>, services: Services, s: State) {
    && s.toProxy <= names && s.forks <= names && s.canaries <= names
    && (forall n | n in names :: n in s.toProxy <==> Selects(services, n, selector))
    && (forall n | n in names :: n in s.forks <==> n + FORKED_SUFFIX in services)
    && (forall n | n in names :: n in s.canaries <==> n + CANARY_SUFFIX in services)
    && (forall n | n in names ::
          !Selects(services, n + FORKED_SUFFIX, selector) && !Selects(services, n + CANARY_SUFFIX, selector))
  }

  lemma SuffixedNamesDiffer(a: string, b: string)
    ensures a + FORKED_SUFFIX != b + CANARY_SUFFIX
    ensures a + FORKED_SUFFIX == b + FORKED_SUFFIX ==> a == b
    ensures a + CANARY_SUFFIX == b + CANARY_SUFFIX ==> a == b
  {
    SuffixesDiffer(a + FORKED_SUFFIX);
    if a + FORKED_SUFFIX == b + FORKED_SUFFIX {
      AppendInjective(a, b, FORKED_SUFFIX);
    }
    if a + CANARY_SUFFIX == b + CANARY_SUFFIX {
      AppendInjective(a, b, CANARY_SUFFIX);
    }
    assert EndsWith(a + FORKED_SUFFIX, FORKED_SUFFIX) && EndsWith(b + CANARY_SUFFIX, CANARY_SUFFIX);
  }

  /** A fork or canary service was stored. */
  lemma ReflectsStored(names: set<string>, selector: map<string, string>, services: Services, s: State, name: string,
                       suffix: string, stored: Service, t: State)
    requires Reflects(names, selector, services, s) && NoClash(names) && name in names && stored.selector != selector
    requires suffix == FORKED_SUFFIX || suffix == CANARY_SUFFIX
    requires t.toProxy == s.toProxy
    requires t.forks == (if suffix == FORKED_SUFFIX then s.forks + {name} else s.forks)
    requires t.canaries == (if suffix == CANARY_SUFFIX then s.canaries + {name} else s.canaries)
    ensures Reflects(names, selector, services[name + suffix := stored], t)
  {
    forall n | n in names
      ensures name + suffix != n
              && (n + FORKED_SUFFIX == name + suffix || n + CANARY_SUFFIX == name + suffix ==> n == name)
    {
      SuffixedNamesDiffer(n, name);
      SuffixedNamesDiffer(name, n);
    }
    SuffixedNamesDiffer(name, name);
  }

  /** A fork or canary service was deleted. */
  lemma ReflectsDeleted(names: set<string>, selector: map<string, string>, services: Services, s: State, name: string,
                        suffix: string, t: State)
    requires Reflects(names, selector, services, s) && NoClash(names) && name in names
    requires suffix == FORKED_SUFFIX || suffix == CANARY_SUFFIX
    requires t.toProxy == s.toProxy
    requires t.forks == (if suffix == FORKED_SUFFIX then s.forks - {name} else s.forks)
    requires t.canaries == (if suffix == CANARY_SUFFIX then s.canaries - {name} else s.canaries)
    ensures Reflects(names, selector, services - {name + suffix}, t)
  {
    forall n | n in names
      ensures name + suffix != n
              && (n + FORKED_SUFFIX == name + suffix || n + CANARY_SUFFIX == name + suffix ==> n == name)
    {
      SuffixedNamesDiffer(n, name);
      SuffixedNamesDiffer(name, n);
    }
    SuffixedNamesDiffer(name, name);
  }

  /** An original was updated. */
  lemma ReflectsUpdated(names: set<string>, selector: map<string, string>, services: Services, s: State, name: string,
                        stored: Service, t: State)
    requires Reflects(names, selector, services, s) && NoClash(names) && name in names && name in services
    requires t.toProxy == (if stored.selector == selector then s.toProxy + {name} else s.toProxy - {name})
    requires t.forks == s.forks && t.canaries == s.canaries
    ensures Reflects(names, selector, services[name := stored], t)
  {
  }

  /** The owners of an original were patched. */
  lemma ReflectsOwners(names: set<string>, selector: map<string, string>, services: Services, s: State, name: string,
                       patched: Service)
    requires Reflects(names, selector, services, s) && NoClash(names) && name in names && name in services
    requires patched.selector == services[name].selector
    ensures Reflects(names, selector, services[name := patched], s)
  {
  }

  /** Nothing about services has happened. */
  lemma ReflectsSame(names: set<string>, selector: map<string, string>, services: Services, s: State, t: State)
    requires Reflects(names, selector, services, s) && t.toProxy == s.toProxy && t.forks == s.forks
    requires t.canaries == s.canaries
    ensures Reflects(names, selector, services, t)
  {
  }

  // ---------------------------------------------------------------- canary services

  /** The canary services among `services`. */
  ghost function Canaries(services: Services, names: set<string>): Services {
    map x | x in services && exists n :: n in names && x == n + CANARY_SUFFIX :: services[x]
  }

  lemma CanariesStay(services: Services, names: set<string>, x: string, s: Service)
    requires forall n | n in names :: x != n + CANARY_SUFFIX
    ensures Canaries(services[x := s], names) == Canaries(services, names)
  {
  }

  lemma ForkIsNoCanary(names: set<string>, name: string)
    ensures forall n | n in names :: name + FORKED_SUFFIX != n + CANARY_SUFFIX
  {
    forall n | n in names ensures name + FORKED_SUFFIX != n + CANARY_SUFFIX {
      SuffixedNamesDiffer(name, n);
    }
  }

  /** The release client's check: every one of these is an owner of the object. */
  predicate OwnedBy(s: Service, owners: seq<OwnerReference>) {
    forall o | o in owners ::
      exists r :: r in s.owners && r.apiVersion == o.apiVersion && r.kind == o.kind && r.name == o.name
                  && r.uid == o.uid
  }

  /** Equal but for the owners and the version. */
  predicate Carries(stored: Service, s: Service) {
    stored.(owners := s.owners).SameAs(s)
  }

  /** What the release client makes of canary service `s`, `recorded` being the services of the manifest that was
      recorded last.  One that is not there is created, with the owners added.  One that is there is patched by what has
      changed since that manifest; if that does not have it, it is taken for done, whatever it is. */
  predicate CanaryWritten(before: Services, now: Services, recorded: Services, s: Service,
                          owners: seq<OwnerReference>) {
    var x := s.name;
    && x in now
    && (x !in before ==> now[x].SameAs(s.(owners := s.owners + owners)))
    && (x in before && (x !in recorded || recorded[x] == s) ==> now[x] == before[x])
    && (x in before && x in recorded ==>
          now[x].owners == before[x].owners && (Carries(before[x], recorded[x]) ==> Carries(now[x], s)))
  }

  lemma PatchIsWritten(before: Services, now: Services, recorded: Services, s: Service, owners: seq<OwnerReference>,
                       patched: Service)
    requires s.name in before && s.name in recorded && recorded[s.name] != s
    requires s.name in now && now[s.name].SameAs(patched) && patched.owners == before[s.name].owners
    requires Carries(before[s.name], recorded[s.name]) ==> Carries(patched, s)
    ensures CanaryWritten(before, now, recorded, s, owners)
  {
  }

  lemma CreatedIsWritten(before: Services, now: Services, recorded: Services, s: Service, owners: seq<OwnerReference>)
    requires s.name !in before && s.name in now && now[s.name].SameAs(s.(owners := s.owners + owners))
    ensures CanaryWritten(before, now, recorded, s, owners)
  {
  }

  lemma KeptIsWritten(services: Services, recorded: Services, s: Service, owners: seq<OwnerReference>)
    requires s.name in services && (s.name !in recorded || recorded[s.name] == s)
    ensures CanaryWritten(services, services, recorded, s, owners)
  {
  }

  /** May the release client write the canary service `x`?  Objects it does not own are not touched, and a recorded one
      has to be there. */
  predicate Writable(services: Services, recorded: Services, x: string, owners: seq<OwnerReference>) {
    if x in services then OwnedBy(services[x], owners) else x !in recorded
  }

  ghost predicate OnlyCanariesChanged(start: Services, now: Services, names: set<string>) {
    forall x | (forall n | n in names :: x != n + CANARY_SUFFIX) ::
      (x in now <==> x in start) && (x in now ==> now[x] == start[x])
  }

  lemma NothingMoved(services: Services, x: string)
    ensures OnlyAt(services, services, x)
  {
  }

  lemma NoCanaryChanged(start: Services, names: set<string>)
    ensures OnlyCanariesChanged(start, start, names)
  {
  }

  lemma OneMoreCanary(start: Services, before: Services, now: Services, names: set<string>, n: string)
    requires OnlyCanariesChanged(start, before, names) && n in names && OnlyAt(before, now, n + CANARY_SUFFIX)
    ensures OnlyCanariesChanged(start, now, names)
  {
    forall x | (forall n | n in names :: x != n + CANARY_SUFFIX)
      ensures (x in now <==> x in start) && (x in now ==> now[x] == start[x])
    {
      assert SameAt(before, now, x);
    }
  }

  predicate SameAt(before: Services, now: Services, x: string) {
    (x in before <==> x in now) && (x in before ==> now[x] == before[x])
  }

  ghost predicate OnlyAt(before: Services, now: Services, x: string) {
    forall y | y != x :: SameAt(before, now, y)
  }

  /** Distinct canary services are written one by one: those before `i` are, the others are as before. */
  predicate WrittenUpTo(start: Services, now: Services, recorded: Services, canaries: seq<Service>, i: nat,
                        owners: seq<OwnerReference>, ok: bool)
    requires i <= |canaries|
  {
    && (ok ==> forall j | 0 <= j < i ::
          && Writable(start, recorded, canaries[j].name, owners)
          && CanaryWritten(start, now, recorded, canaries[j], owners))
    && forall j | i <= j < |canaries| :: SameAt(start, now, canaries[j].name)
  }

  predicate AllWritten(start: Services, now: Services, recorded: Services, canaries: seq<Service>,
                       owners: seq<OwnerReference>) {
    forall s | s in canaries :: CanaryWritten(start, now, recorded, s, owners)
  }

  predicate AllWritable(start: Services, recorded: Services, canaries: seq<Service>, owners: seq<OwnerReference>) {
    forall s | s in canaries :: Writable(start, recorded, s.name, owners)
  }

  predicate DistinctlyNamed(services: seq<Service>) {
    forall i, j | 0 <= i < j < |services| :: services[i].name != services[j].name
  }

  lemma NoneWritten(start: Services, recorded: Services, canaries: seq<Service>, owners: seq<OwnerReference>)
    ensures WrittenUpTo(start, start, recorded, canaries, 0, owners, true)
  {
  }

  lemma WrittenMeans(start: Services, now: Services, recorded: Services, canaries: seq<Service>,
                     owners: seq<OwnerReference>)
    requires WrittenUpTo(start, now, recorded, canaries, |canaries|, owners, true)
    ensures AllWritten(start, now, recorded, canaries, owners) && AllWritable(start, recorded, canaries, owners)
  {
  }

  /** Writing canary service `i` leaves the others alone. */
  lemma OneMoreWritten(start: Services, before: Services, now: Services, recorded: Services, canaries: seq<Service>,
                       i: nat, owners: seq<OwnerReference>, ok: bool)
    requires DistinctlyNamed(canaries) && i < |canaries|
    requires WrittenUpTo(start, before, recorded, canaries, i, owners, true)
    requires OnlyAt(before, now, canaries[i].name)
    requires ok ==> CanaryWritten(before, now, recorded, canaries[i], owners)
    requires ok ==> Writable(before, recorded, canaries[i].name, owners)
    ensures WrittenUpTo(start, now, recorded, canaries, i + 1, owners, ok)
    ensures AllWritable(start, recorded, canaries, owners) ==> Writable(before, recorded, canaries[i].name, owners)
  {
    hide OwnedBy;
    assert canaries[i] in canaries && SameAt(start, before, canaries[i].name);
    forall j | 0 <= j < i ensures CanaryWritten(start, now, recorded, canaries[j], owners) {
      assert SameAt(before, now, canaries[j].name);
      WritingOthers(start, before, now, recorded, canaries[j], owners);
    }
    forall j | i < j < |canaries| ensures SameAt(start, now, canaries[j].name) {
      assert SameAt(before, now, canaries[j].name);
    }
  }

  lemma WritingOthers(before: Services, now: Services, next: Services, recorded: Services, s: Service,
                      owners: seq<OwnerReference>)
    requires s.name in now ==> s.name in next && next[s.name] == now[s.name]
    ensures CanaryWritten(before, now, recorded, s, owners) ==> CanaryWritten(before, next, recorded, s, owners)
  {
  }

  class Cluster {
    ghost const names: set<string>
    ghost const found: Found
    const proxySelector: map<string, string>
    /** No call fails on its own; conflicts and missing objects are still refused. */
    const reliable: bool

    var services: Services
    var nginx: Option<TemplateConfig>
    ghost var asked: Asked
    var crs: seq<CanaryRelease>
    var view: nat
    ghost var log: seq<Event>
    /** How many deletions and owner patches were tried. */
    ghost var attempts: nat

    /** Before anything happened: no canary resource exists and no original selects the proxy. */
    constructor (ghost names: set<string>, ghost found: Found, proxySelector: map<string, string>, reliable: bool,
                 services: Services)
      requires NoClash(names) && Named(services) && Reflects(names, proxySelector, services, Init(found))
      ensures Valid() && Careful() && Steady() && log == [] && this.services == services && this.names == names
      ensures this.proxySelector == proxySelector && this.reliable == reliable
    {
      this.reliable := reliable;
      this.names, this.found, this.proxySelector, this.services := names, found, proxySelector, services;
      nginx, asked, crs, view, log := None, map[], [CanaryRelease(NoTransition, NoTransition, NO_MANIFEST)], 0, [];
      attempts := 0;
    }

    ghost function State(): (s: State)
      reads this
      requires After(names, found, log).Reached?
      ensures WellFormed(s)
    {
      After(names, found, log).state
    }

    /** The objects are what the events of the log made of them. */
    ghost predicate Valid()
      reads this
    {
      && After(names, found, log).Reached? && NoClash(names) && Named(services)
      && State().crs == crs && State().view == view
      && Reflects(names, proxySelector, services, State())
      && (State().loaded != {} ==> nginx.Some? && CoversAll(nginx.value, names, asked))
      && (nginx.Some? ==> State().loaded == names)
    }

    /** Everything so far happened with current listers at cleanup and no failed recovery ignored. */
    ghost predicate Careful()
      reads this
      requires Valid()
    {
      Throughout(names, found, log, Protocol.Careful)
    }

    /** The proxy process was only ever started while no original selected it. */
    ghost predicate Steady()
      reads this
      requires Valid()
    {
      Throughout(names, found, log, StartsUnused)
    }

    /** The log has grown along a run of the protocol, only the end of a cleanup has written the phase, and canary
        services are as they were once they were written. */
    twostate predicate Grows()
      reads this
      requires old(Valid())
    {
      && Valid() && old(log) <= log && (old(Careful()) ==> Careful())
      && (Last(crs).phase == old(Last(crs).phase) || (old(State().pc.Clearing?) && State().pc == Idle))
      && (old(State().pc.Forking? || State().pc.Pointing?) ==>
            Canaries(services, names) == old(Canaries(services, names)))
    }

    /** And the proxy process has not been started anew. */
    twostate predicate Advances()
      reads this
      requires old(Valid())
    {
      Grows() && (old(Steady()) ==> Steady())
    }

    /** What every call keeps: also the recorded manifest and the process's configuration, but for the call that records
        the manifest and the end of a cleanup. */
    twostate predicate Continues()
      reads this
      requires old(Valid())
    {
      && Advances()
      && (State().running == old(State().running) || (old(State().pc.Clearing?) && State().pc == Idle))
      && (Last(crs).manifest == old(Last(crs).manifest) || old(State().pc.Syncing?)
          || (old(State().pc.Clearing?) && State().pc == Idle))
    }

    /** nginx still has the configuration it had. */
    twostate predicate SameNginx()
      reads this
    {
      unchanged(`nginx, `asked)
    }

    /** Whether a part of a call works out: on a reliable cluster it does. */
    method Works() returns (yes: bool)
      ensures reliable ==> yes
    {
      yes := *;
      yes := yes || reliable;
    }

    // ---------------------------------------------------------------- the log

    ghost method Append(e: Event)
      requires After(names, found, log).Reached? && Enabled(names, State(), e)
      modifies this`log
      ensures After(names, found, log).Reached? && State() == Step(names, old(State()), e) && log == old(log) + [e]
      ensures old(Throughout(names, found, log, Protocol.Careful)) && Protocol.Careful(old(State()), e) ==>
                Throughout(names, found, log, Protocol.Careful)
      ensures old(Throughout(names, found, log, StartsUnused)) && StartsUnused(old(State()), e) ==>
                Throughout(names, found, log, StartsUnused)
    {
      hide After, Throughout, Enabled, Step, Protocol.Careful;
      var longer, t := Extend(names, found, log, State(), e);
      log := longer;
    }

    /** Records an event that changes no object. */
    ghost method Record(e: Event)
      requires Valid() && Enabled(names, State(), e) && Internal(e)
      modifies this`log
      ensures Valid() && State() == Step(names, old(State()), e) && old(log) <= log
      ensures (old(Careful()) && Protocol.Careful(old(State()), e) ==> Careful()) && (old(Steady()) ==> Steady())
    {
      hide After, Throughout, Canaries, CoversAll, Protocol.Careful, Reflects, HasPrefix, Less, IsLeast;
      ghost var s := State();
      Append(e);
      ReflectsSame(names, proxySelector, services, s, State());
    }

    /** The rest of the cluster: listers catch up, transitions are requested, the controller manages Deployments. */
    method Interfere()
      requires Valid()
      modifies this`crs, this`view, this`log
      ensures Continues() && Last(crs).manifest == old(Last(crs).manifest)
      ensures State() == old(State()).(crs := State().crs, view := State().view, deployments := State().deployments)
    {
      hide After, Throughout, Canaries, CoversAll;
      var rounds: nat := *;
      while rounds > 0
        invariant Continues() && Last(crs).manifest == old(Last(crs).manifest)
        invariant State() == old(State()).(crs := State().crs, view := State().view, deployments := State().deployments)
      {
        InterfereOnce();
        rounds := rounds - 1;
      }
    }

    method InterfereOnce()
      requires Valid()
      modifies this`crs, this`view, this`log
      ensures Continues() && Last(crs).manifest == old(Last(crs).manifest)
      ensures State() == old(State()).(crs := State().crs, view := State().view, deployments := State().deployments)
    {
      hide After, Throughout, Canaries, CoversAll, Reflects, HasPrefix, Less, IsLeast;
      if * {
        ListerAdvances();
      } else if * {
        TransitionIsRequested();
      } else {
        ControllerActs();
      }
    }

    method ListerAdvances()
      requires Valid()
      modifies this`view, this`log
      ensures Continues() && crs == old(crs)
      ensures State() == old(State()).(view := view)
    {
      hide After, Throughout, Canaries, CoversAll, Reflects, HasPrefix, Less, IsLeast;
      ghost var s := State();
      var newer: nat := *;
      if view <= newer < |crs| {
        view := newer;
        Append(ProxyObserves(newer));
      }
      ReflectsSame(names, proxySelector, services, s, State());
    }

    method TransitionIsRequested()
      requires Valid()
      modifies this`crs, this`log
      ensures Continues() && Last(crs).manifest == old(Last(crs).manifest)
      ensures State() == old(State()).(crs := crs)
    {
      hide After, Throughout, Canaries, CoversAll, Reflects, HasPrefix, Less, IsLeast;
      ghost var s := State();
      var request: Transition := *;
      if request != NoTransition {
        crs := crs + [Last(crs).(transition := request)];
        Append(RequestTransition(request));
      }
      ReflectsSame(names, proxySelector, services, s, State());
    }

    method ControllerActs()
      requires Valid()
      modifies this`log
      ensures Continues()
      ensures State() == old(State()).(deployments := State().deployments)
    {
      hide After, Throughout, Canaries, CoversAll, Reflects, HasPrefix, Less, IsLeast;
      ghost var s := State();
      ghost var e: Event := *;
      if Foreign(e) && !e.ProxyObserves? && !e.RequestTransition? && Enabled(names, State(), e) {
        Append(e);
      }
      ReflectsSame(names, proxySelector, services, s, State());
    }

    /** The proxy process starts, perhaps after an earlier one died in the middle of something: nginx is new and has no
        configuration. */
    method StartProxy()
      requires Valid()
      modifies this
      ensures Grows() && services == old(services) && nginx == None && State().pc == Idle
      ensures old(Steady()) && (forall n | n in names :: !Selects(services, n, proxySelector)) ==> Steady()
      ensures Last(crs).phase == old(Last(crs)).phase && Last(crs).manifest == old(Last(crs)).manifest
    {
      hide After, Throughout, Canaries, CoversAll, Reflects, HasPrefix, Less, IsLeast;
      Interfere();
      ghost var s := State();
      nginx, asked := None, map[];
      Append(ProxyRestarts);
      ReflectsSame(names, proxySelector, services, s, State());
    }

    /** deprecate of either process: requests the transition unless one is requested already. */
    method Deprecate(cr: CanaryRelease) returns (ok: bool)
      requires Valid()
      modifies this
      ensures Continues() && services == old(services) && SameNginx() && State().pc == old(State().pc)
      ensures cr.transition != NoTransition ==> ok && unchanged(this)
      ensures cr.transition == NoTransition && ok ==> Last(crs).transition == Deprecated
      ensures reliable ==> ok
    {
      hide After, Throughout, Canaries, CoversAll, Reflects, HasPrefix, Less, IsLeast;
      if cr.transition != NoTransition {
        return true;
      }
      Interfere();
      ghost var s := State();
      var effective := Works();
      ok := false;
      if effective {
        crs := crs + [Last(crs).(transition := Deprecated)];
        Append(RequestTransition(Deprecated));
        ok := Works();
      }
      ReflectsSame(names, proxySelector, services, s, State());
    }

    // ---------------------------------------------------------------- calls about services

    /** The server keeps what it was sent, under a version of its own. */
    twostate predicate StoredAt(name: string, s: Service)
      reads this
    {
      exists v: nat :: services == old(services)[name := s.(resourceVersion := v)]
    }

    twostate predicate Stored(s: Service)
      reads this
    {
      StoredAt(s.name, s)
    }

    /** Fork `s` is stored. */
    method StoreFork(name: string, s: Service)
      requires Valid() && State().pc.Forking? && name in names && s.name == name + FORKED_SUFFIX
      requires s.selector != proxySelector
      modifies this`services, this`log
      ensures Continues() && Stored(s)
      ensures State().pc == Forking(old(State().pc.forked) + {name})
    {
      hide After, Throughout, Canaries, CoversAll, Reflects;
      var version: nat := *;
      ForkIsNoCanary(names, name);
      ReflectsStored(names, proxySelector, services, State(), name, FORKED_SUFFIX, s.(resourceVersion := version),
                     Step(names, State(), Event.CreateFork(name)));
      CanariesStay(services, names, s.name, s.(resourceVersion := version));
      services := services[s.name := s.(resourceVersion := version)];
      Append(Event.CreateFork(name));
    }

    /** Creates the fork of the original `name`. */
    method CreateFork(name: string, s: Service) returns (result: CreateResult)
      requires Valid() && State().pc.Forking? && name in names && s.name == name + FORKED_SUFFIX
      requires s.selector != proxySelector
      modifies this
      ensures Continues() && SameNginx()
      ensures State().pc.Forking? && (result != Failed ==> State().pc.forked == old(State().pc.forked) + {name})
      ensures result == Created ==> s.name !in old(services) && Stored(s)
      ensures result == AlreadyExists ==> s.name in old(services)
      ensures services == old(services) || (s.name !in old(services) && Stored(s))
      ensures reliable ==> result != Failed
    {
      hide After, Throughout, Canaries, CoversAll, Reflects;
      Interfere();
      var effective := Works();
      var reported := Works();
      result := Failed;
      if s.name in services {
        if reported {
          ForkCounted(name);
          result := AlreadyExists;
        }
      } else if effective {
        StoreFork(name, s);
        if reported {
          result := Created;
        }
      }
    }

    ghost method ForkCounted(name: string)
      requires Valid() && State().pc.Forking? && name in names && name + FORKED_SUFFIX in services
      modifies this`log
      ensures Continues() && State().pc == Forking(old(State().pc.forked) + {name})
    {
      hide After, Throughout, Canaries, CoversAll;
      Append(Event.CreateFork(name));
      assert State().forks == old(State().forks);
    }

    /** The update of an original is stored. */
    method StoreOriginal(s: Service)
      requires Valid() && s.name in names && s.name in services
      requires (State().pc.Pointing? && s.selector == proxySelector)
               || (State().pc.Recovering? && s.selector != proxySelector)
      modifies this`services, this`log
      ensures Continues() && Stored(s)
      ensures old(State().pc.Pointing?) ==> State().pc.Pointing?
      ensures old(State().pc.Recovering?) ==>
                State().pc == Recovering(old(State().pc.goal), old(State().pc.handled) + {s.name})
    {
      hide After, Throughout, Canaries, CoversAll, Reflects;
      ghost var e := if s.selector == proxySelector then PointAtProxy(s.name) else RecoverOriginal(s.name);
      ReflectsUpdated(names, proxySelector, services, State(), s.name, s.(resourceVersion := s.resourceVersion + 1),
                      Step(names, State(), e));
      CanariesStay(services, names, s.name, s.(resourceVersion := s.resourceVersion + 1));
      services := services[s.name := s.(resourceVersion := s.resourceVersion + 1)];
      Append(e);
    }

    /** Updates an original, to point it at the proxy or, during a recovery, away from it. */
    method UpdateService(s: Service) returns (ok: bool)
      requires Valid() && s.name in names
      requires (State().pc.Pointing? && s.selector == proxySelector)
               || (State().pc.Recovering? && s.selector != proxySelector)
      modifies this
      ensures Continues() && SameNginx()
      ensures old(State().pc.Pointing?) ==> State().pc.Pointing?
      ensures old(State().pc.Recovering?) ==> State().pc.Recovering? && State().pc.goal == old(State().pc.goal)
      ensures old(State().pc.Recovering?) ==> State().pc.handled <= old(State().pc.handled) + {s.name}
      ensures old(State().pc.Recovering?) && ok ==> State().pc.handled == old(State().pc.handled) + {s.name}
      ensures ok ==> s.name in old(services) && Stored(s)
      ensures services == old(services) || (s.name in old(services) && Stored(s))
      ensures s.name in old(services) && old(services)[s.name].resourceVersion != s.resourceVersion ==>
                !ok && services == old(services)
      ensures reliable && s.name in old(services) && old(services)[s.name].resourceVersion == s.resourceVersion ==> ok
    {
      hide After, Throughout, Canaries, CoversAll, Reflects;
      Interfere();
      var effective := Works();
      var reported := Works();
      ok := false;
      if s.name in services && services[s.name].resourceVersion == s.resourceVersion && effective {
        StoreOriginal(s);
        ok := reported;
      }
    }

    /** Only the canary services of originals have changed. */
    twostate predicate OnlyCanaries()
      reads this
    {
      OnlyCanariesChanged(old(services), services, names)
    }

    /** Canary service `s` is stored. */
    method StoreCanary(name: string, s: Service)
      requires Valid() && State().pc.Syncing? && State().pc.rendered != State().pc.seen
      requires name in names && s.name == name + CANARY_SUFFIX && s.selector != proxySelector
      modifies this`services, this`log
      ensures Continues() && State().pc == old(State().pc)
      ensures OnlyAt(old(services), services, s.name) && s.name in services && services[s.name].SameAs(s)
      ensures old(State().canaries) <= State().canaries && name in State().canaries
    {
      hide After, Throughout, Canaries, CoversAll, Reflects;
      var version: nat := *;
      ghost var e := Event.WriteCanary(name);
      ReflectsStored(names, proxySelector, services, State(), name, CANARY_SUFFIX, s.(resourceVersion := version),
                     Step(names, State(), e));
      services := services[s.name := s.(resourceVersion := version)];
      Append(e);
    }

    /** What a patch by the difference between `last` and `s` makes of a canary service.  It is left open of one that is
        not as `last` has it. */
    method PatchedBy(last: Service, s: Service) returns (patched: Service)
      requires s.name in services && s.selector != proxySelector
      ensures patched.name == s.name && patched.selector != proxySelector
      ensures patched.owners == services[s.name].owners
      ensures Carries(services[s.name], last) ==> Carries(patched, s)
    {
      patched := *;
      if patched.selector == proxySelector || Carries(services[s.name], last) {
        patched := s;
      }
      patched := patched.(name := s.name, owners := services[s.name].owners);
    }

    /** The release client's treatment of one canary service.  What a patch makes of one that is not as the recorded
        manifest has it is left open. */
    method WriteCanary(name: string, s: Service, recorded: Services, owners: seq<OwnerReference>) returns (ok: bool)
      requires Valid() && State().pc.Syncing? && State().pc.rendered != State().pc.seen
      requires name in names && s.name == name + CANARY_SUFFIX && s.selector != proxySelector
      modifies this
      ensures Continues() && SameNginx() && State().pc == old(State().pc)
      ensures OnlyAt(old(services), services, s.name)
      ensures old(State().canaries) <= State().canaries && (ok ==> name in State().canaries)
      ensures ok ==> CanaryWritten(old(services), services, recorded, s, owners)
      ensures ok ==> Writable(old(services), recorded, s.name, owners)
      ensures reliable && Writable(old(services), recorded, s.name, owners) ==> ok
    {
      hide After, Throughout, Canaries, CoversAll, Reflects, OwnedBy, CanaryWritten, Carries, OnlyAt;
      NothingMoved(services, s.name);
      Interfere();
      var effective := Works();
      var reported := Works();
      ok := false;
      if s.name !in services {
        if s.name !in recorded && effective {
          StoreCanary(name, s.(owners := s.owners + owners));
          CreatedIsWritten(old(services), services, recorded, s, owners);
          ok := reported;
        }
      } else if OwnedBy(services[s.name], owners) {
        CanaryIsThere(name);
        if s.name !in recorded || recorded[s.name] == s {
          KeptIsWritten(services, recorded, s, owners);
          ok := reported;
        } else if effective {
          var patched := PatchedBy(recorded[s.name], s);
          StoreCanary(name, patched);
          PatchIsWritten(old(services), services, recorded, s, owners, patched);
          ok := reported;
        }
      }
    }

    lemma CanaryIsThere(name: string)
      requires Valid() && name in names && name + CANARY_SUFFIX in services
      ensures name in State().canaries
    {
    }

    /** The release client creates or updates the objects of the manifest, of which only the canary services take part
        here. */
    method WriteManifest(originals: seq<string>, canaries: seq<Service>, recorded: Services,
                         owners: seq<OwnerReference>)
      returns (ok: bool)
      requires Valid() && State().pc.Syncing? && State().pc.rendered != State().pc.seen
      requires |originals| == |canaries| && (forall n :: n in originals <==> n in names)
      requires forall i | 0 <= i < |canaries| ::
                 canaries[i].name == originals[i] + CANARY_SUFFIX && canaries[i].selector != proxySelector
      modifies this
      ensures Continues() && SameNginx() && OnlyCanaries()
      ensures State().pc == old(State().pc) && (ok ==> names <= State().canaries)
      ensures ok && DistinctlyNamed(canaries) ==>
                && AllWritten(old(services), services, recorded, canaries, owners)
                && AllWritable(old(services), recorded, canaries, owners)
      ensures reliable && DistinctlyNamed(canaries) && AllWritable(old(services), recorded, canaries, owners) ==> ok
    {
      hide After, Throughout, Canaries, CoversAll, Reflects, CanaryWritten, Writable, WrittenUpTo, AllWritten,
           AllWritable, DistinctlyNamed, OnlyCanariesChanged, OnlyAt;
      ok := true;
      var i := 0;
      NoneWritten(services, recorded, canaries, owners);
      NoCanaryChanged(services, names);
      while i < |canaries| && ok
        invariant 0 <= i <= |canaries| && Continues() && SameNginx() && OnlyCanaries() && State().pc == old(State().pc)
        invariant ok ==> forall j | 0 <= j < i :: originals[j] in State().canaries
        invariant DistinctlyNamed(canaries) ==>
                    WrittenUpTo(old(services), services, recorded, canaries, i, owners, ok)
        invariant reliable && DistinctlyNamed(canaries) && AllWritable(old(services), recorded, canaries, owners) ==> ok
      {
        assert originals[i] in originals;
        ghost var before := services;
        ok := WriteCanary(originals[i], canaries[i], recorded, owners);
        OneMoreCanary(old(services), before, services, names, originals[i]);
        if DistinctlyNamed(canaries) {
          OneMoreWritten(old(services), before, services, recorded, canaries, i, owners, ok);
        }
        i := i + 1;
      }
      if ok && DistinctlyNamed(canaries) {
        WrittenMeans(old(services), services, recorded, canaries, owners);
      }
      var reported := Works();
      ok := ok && reported;
    }

    /** The status patch that records the manifest. */
    method RecordManifest(manifest: Manifest) returns (ok: bool)
      requires Valid() && State().pc.Syncing? && State().pc.rendered != State().pc.seen && names <= State().canaries
      requires manifest == State().pc.rendered
      modifies this
      ensures Continues() && SameNginx() && services == old(services)
      ensures State().pc == old(State().pc) || State().pc == Forking({})
      ensures State().pc == Forking({}) ==> Last(crs).manifest == manifest
      ensures ok ==> State().pc == Forking({})
      ensures reliable ==> ok
    {
      hide After, Throughout, Canaries, CoversAll, Reflects, HasPrefix, Less, IsLeast;
      Interfere();
      ghost var s := State();
      var effective := Works();
      ok := false;
      if effective {
        crs := crs + [Last(crs).(manifest := manifest)];
        Append(Event.RecordManifest);
        ok := Works();
      }
      ReflectsSame(names, proxySelector, services, s, State());
    }

    /** OnUpdate: nginx loads the configuration or keeps the one it has. */
    method Reload(config: TemplateConfig, ghost ports: Asked) returns (ok: bool)
      requires Valid() && State().pc == Forking(names) && CoversAll(config, names, ports)
      modifies this
      ensures Continues() && services == old(services)
      ensures ok ==> State().pc == Pointing && nginx == Some(config) && asked == ports
      ensures !ok ==> State().pc == Forking(names) && SameNginx()
      ensures reliable ==> ok
    {
      hide After, Throughout, Canaries, CoversAll, Reflects, HasPrefix, Less, IsLeast;
      Interfere();
      ghost var s := State();
      ok := Works();
      if ok {
        nginx, asked := Some(config), ports;
        Append(ReloadNginx);
      }
      ReflectsSame(names, proxySelector, services, s, State());
    }

    /** A fork or canary service is removed. */
    method Remove(ghost name: string, suffix: string, service: string)
      requires Valid() && State().pc.Clearing? && name in names && (suffix == FORKED_SUFFIX || suffix == CANARY_SUFFIX)
      requires service == name + suffix
      modifies this`services, this`log
      ensures Continues() && State().pc == old(State().pc) && services == old(services) - {service}
    {
      hide After, Throughout, Canaries, CoversAll, Reflects;
      ghost var e := if suffix == FORKED_SUFFIX then DeleteFork(name) else DeleteCanary(name);
      ReflectsDeleted(names, proxySelector, services, State(), name, suffix, Step(names, State(), e));
      services := services - {service};
      Append(e);
    }

    /** Deletes the fork or the canary service of the original `name`. */
    method DeleteService(service: string, ghost name: string, suffix: string) returns (ok: bool)
      requires Valid() && State().pc.Clearing? && name in names && (suffix == FORKED_SUFFIX || suffix == CANARY_SUFFIX)
      requires service == name + suffix
      modifies this
      ensures Continues() && SameNginx() && State().pc == old(State().pc)
      ensures services == old(services) || services == old(services) - {service}
      ensures ok ==> service !in services
      ensures reliable ==> ok
      ensures attempts == old(attempts) + 1
    {
      hide After, Throughout, Canaries, CoversAll, Reflects;
      attempts := attempts + 1;
      Interfere();
      var effective := Works();
      var reported := Works();
      ok := effective && reported;
      if effective {
        Remove(name, suffix, service);
      }
    }

    /** A merge patch of metadata.ownerReferences, which replaces the whole list. */
    method PatchOwners(name: string, owners: seq<OwnerReference>) returns (ok: bool)
      requires Valid() && name in names
      modifies this
      ensures Continues() && SameNginx() && State().pc == old(State().pc)
      ensures services == old(services)
              || (name in old(services) && StoredAt(name, old(services)[name].(owners := owners)))
      ensures ok ==> name in old(services) && StoredAt(name, old(services)[name].(owners := owners))
      ensures reliable && name in old(services) ==> ok
      ensures attempts == old(attempts) + 1
    {
      hide After, Throughout, Canaries, CoversAll, Reflects;
      attempts := attempts + 1;
      Interfere();
      var effective := Works();
      var reported := Works();
      ok := false;
      if name in services && effective {
        var patched := services[name].(owners := owners).(resourceVersion := services[name].resourceVersion + 1);
        ReflectsOwners(names, proxySelector, services, State(), name, patched);
        CanariesStay(services, names, name, patched);
        services := services[name := patched];
        ok := reported;
      }
    }

    /** The last patch of a cleanup; its error is ignored. */
    method WritePhase(phase: Transition) returns (written: bool)
      requires Valid() && State().pc == Clearing(phase)
      modifies this
      ensures Continues() && SameNginx() && services == old(services) && State().pc == Idle
      ensures Last(crs).phase == if written then phase else old(Last(crs).phase)
      ensures written ==> Last(crs).manifest == NO_MANIFEST
      ensures reliable ==> written
    {
      hide After, Throughout, Canaries, CoversAll, Reflects, HasPrefix, Less, IsLeast;
      Interfere();
      ghost var s := State();
      written := Works();
      if written {
        crs := crs + [Last(crs).(phase := phase, manifest := NO_MANIFEST)];
      }
      Append(if written then Event.WritePhase else PhaseNotWritten);
      ReflectsSame(names, proxySelector, services, s, State());
    }
  }
}
