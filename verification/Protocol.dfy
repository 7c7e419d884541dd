/** The canary takeover and cleanup protocol of the two processes, as a state machine.

    One event is one API call that took effect, one lister update, or one return of a sync.  A call that fails
    without effect is no event; a call that took effect but reported an error is its event followed by the
    event that abandons the sync.  Nothing orders the events of the two processes, of the user and of the
    listers, so a run is any interleaving of them.
 */
module Protocol {
  import opened Text

  /** The transition a CanaryRelease asks for, and the phase it has finished. */
  datatype Transition = NoTransition | Adopted | Deprecated

  /** The text of the rendered canary resources. */
  type Manifest = string

  const NO_MANIFEST: Manifest := ""

  /** What both processes read of the CanaryRelease, and the manifest that the proxy recorded in its status. */
  datatype CanaryRelease = CanaryRelease(transition: Transition, phase: Transition, manifest: Manifest)

  /** Where the proxy's only worker stands. */
  datatype Pc =
    | Idle
    | Syncing(rendered: Manifest, seen: Manifest)              // rendered, and the lister's manifest read
    | Forking(forked: set<string>)                             // creating the forks
    | Pointing                                                 // nginx reloaded, updating the originals
    | Recovering(goal: Transition, handled: set<string>)       // one attempt of the recovery loop
    | Clearing(goal: Transition)                               // recovery is over

  /** `toProxy`, `forks` and `canaries` hold names of original services: those that select the proxy, those whose
      fork exists, those whose canary service exists.  `loaded` holds the names in the configuration nginx
      accepted last, `running` says whether the process has a runningConfig.  `crs` and `deployments` hold every
      version so far, the newest last; `view` is the CanaryRelease version in the proxy's lister; `expected` is the
      prefix that names of proxy Deployments are expected to have. */
  datatype State = State(
    toProxy: set<string>,
    forks: set<string>,
    canaries: set<string>,
    loaded: set<string>,
    running: bool,
    pc: Pc,
    crs: seq<CanaryRelease>,
    view: nat,
    expected: string,
    deployments: seq<set<string>>)

  datatype Event =
    // the proxy
    | ProxyObserves(version: nat)
    | SyncBegins(rendered: Manifest)
    | ManifestUnchanged
    | WriteCanary(name: string)
    | RecordManifest
    | ConfigUnchanged
    | CreateFork(name: string)
    | ReloadNginx
    | PointAtProxy(name: string)
    | SyncCompletes
    | SyncFails
    | CleanupBegins
    | RecoverOriginal(name: string)
    | SkipOriginal(name: string)
    | RetryRecovery
    | RecoverySucceeds
    | RecoveryFails
    | AdoptionFails
    | DeleteFork(name: string)
    | DeleteCanary(name: string)
    | WritePhase
    | PhaseNotWritten
    | ProxyRestarts
    // the user, or either process calling deprecate
    | RequestTransition(transition: Transition)
    // the controller, each call computed from versions its listers have shown
    | CreateDeployment(crVersion: nat, seen: nat)
    | DeleteExtraDeployment(crVersion: nat, seen: nat, deployment: string)
    | DeleteOnCleanup(crVersion: nat, seen: nat, deployment: string)

  function Last<T>(s: seq<T>): T
    requires s != []
  {
    s[|s| - 1]
  }

  predicate WellFormed(s: State) {
    s.crs != [] && s.view < |s.crs| && s.deployments != []
  }

  /** The Deployment that a sync which sees `ds` keeps. */
  predicate IsLeast(d: string, ds: set<string>, expected: string) {
    d in ds && HasPrefix(d, expected) && forall x | x in ds && HasPrefix(x, expected) :: !Less(x, d)
  }

  /** The services whose target a recovery towards `goal` copies from. */
  function Targets(s: State, goal: Transition): set<string> {
    if goal == Adopted then s.canaries else s.forks
  }

  /** May `e` be the next event?  The guards are the control flow of the two programs. */
  predicate Enabled(names: set<string>, s: State, e: Event)
    requires WellFormed(s)
  {
    match e
    case ProxyObserves(v) => s.view <= v < |s.crs|
    case SyncBegins(_) => s.pc == Idle && s.crs[s.view].transition == NoTransition
    // a sync goes no further if it rendered the manifest that its lister shows as recorded
    case ManifestUnchanged => s.pc.Syncing? && s.pc.rendered == s.pc.seen
    case WriteCanary(n) => s.pc.Syncing? && s.pc.rendered != s.pc.seen && n in names
    // the release client reports success only after it wrote every object of the manifest
    case RecordManifest => s.pc.Syncing? && s.pc.rendered != s.pc.seen && names <= s.canaries
    case ConfigUnchanged => s.pc == Forking({}) && s.running
    case CreateFork(n) => s.pc.Forking? && n in names
    case ReloadNginx => s.pc == Forking(names)
    case PointAtProxy(n) => s.pc == Pointing && n in names
    case SyncCompletes => s.pc == Pointing
    case SyncFails => s.pc.Syncing? || s.pc.Forking? || s.pc.Pointing?
    case CleanupBegins =>
      s.pc == Idle && s.crs[s.view].transition != NoTransition && s.crs[s.view].phase == NoTransition
    case RecoverOriginal(n) => s.pc.Recovering? && n in names
    case SkipOriginal(n) => s.pc.Recovering? && n in names
    case RetryRecovery => s.pc.Recovering?
    case RecoverySucceeds => s.pc.Recovering? && s.pc.handled == names
    case RecoveryFails => s.pc.Recovering?
    case AdoptionFails => s.pc == Clearing(Adopted)
    case DeleteFork(n) => s.pc.Clearing? && n in names
    case DeleteCanary(n) => s.pc.Clearing? && n in names
    case WritePhase => s.pc.Clearing?
    case PhaseNotWritten => s.pc.Clearing?
    case ProxyRestarts => true
    case RequestTransition(t) => t != NoTransition
    case CreateDeployment(u, w) =>
      && u < |s.crs| && w < |s.deployments| && s.crs[u].phase == NoTransition
      && forall d | d in s.deployments[w] :: !HasPrefix(d, s.expected)
    case DeleteExtraDeployment(u, w, d) =>
      && u < |s.crs| && w < |s.deployments| && s.crs[u].phase == NoTransition
      && d in s.deployments[w] && !IsLeast(d, s.deployments[w], s.expected)
    case DeleteOnCleanup(u, w, d) =>
      u < |s.crs| && w < |s.deployments| && s.crs[u].phase != NoTransition && d in s.deployments[w]
  }

  function Step(names: set<string>, s: State, e: Event): State
    requires WellFormed(s) && Enabled(names, s, e)
  {
    match e
    case ProxyObserves(v) => s.(view := v)
    case SyncBegins(m) => s.(pc := Syncing(m, s.crs[s.view].manifest))
    case ManifestUnchanged => s.(pc := Idle)
    case WriteCanary(n) => s.(canaries := s.canaries + {n})
    case RecordManifest => s.(crs := s.crs + [Last(s.crs).(manifest := s.pc.rendered)], pc := Forking({}))
    case ConfigUnchanged => s.(pc := Idle)
    case CreateFork(n) => s.(forks := s.forks + {n}, pc := Forking(s.pc.forked + {n}))
    case ReloadNginx => s.(loaded := names, pc := Pointing)
    case PointAtProxy(n) => s.(toProxy := s.toProxy + {n})
    case SyncCompletes => s.(running := true, pc := Idle)
    case SyncFails => s.(pc := Idle)
    case CleanupBegins => s.(pc := Recovering(s.crs[s.view].transition, {}))
    case RecoverOriginal(n) => s.(toProxy := s.toProxy - {n}, pc := Recovering(s.pc.goal, s.pc.handled + {n}))
    case SkipOriginal(n) => s.(pc := Recovering(s.pc.goal, s.pc.handled + {n}))
    case RetryRecovery => s.(pc := Recovering(s.pc.goal, {}))
    case RecoverySucceeds => s.(pc := Clearing(s.pc.goal))
    // an adopting cleanup returns the error; a deprecating one logs it and goes on
    case RecoveryFails => s.(pc := if s.pc.goal == Adopted then Idle else Clearing(s.pc.goal))
    case AdoptionFails => s.(pc := Idle)
    case DeleteFork(n) => s.(forks := s.forks - {n})
    case DeleteCanary(n) => s.(canaries := s.canaries - {n})
    case WritePhase =>
      s.(crs := s.crs + [Last(s.crs).(phase := s.pc.goal, manifest := NO_MANIFEST)], running := false, pc := Idle)
    case PhaseNotWritten => s.(running := false, pc := Idle)
    case ProxyRestarts => s.(running := false, pc := Idle, loaded := {})
    case RequestTransition(t) => s.(crs := s.crs + [Last(s.crs).(transition := t)])
    case CreateDeployment(_, _) => s.(deployments := s.deployments + [Last(s.deployments) + {s.expected}])
    case DeleteExtraDeployment(_, _, d) => s.(deployments := s.deployments + [Last(s.deployments) - {d}])
    case DeleteOnCleanup(_, _, d) => s.(deployments := s.deployments + [Last(s.deployments) - {d}])
  }

  /** What there is at the beginning: the name that a proxy Deployment is generated under, and the Deployments that
      the CanaryRelease claims. */
  datatype Found = Found(expected: string, deployments: set<string>)

  /** The state before anything happened. */
  function Init(found: Found): State {
    State({}, {}, {}, {}, false, Idle, [CanaryRelease(NoTransition, NoTransition, NO_MANIFEST)], 0, found.expected,
          [found.deployments])
  }

  /** The state after the events of a run, or None where some event was not possible. */
  datatype Outcome = Impossible | Reached(state: State)

  function After(names: set<string>, found: Found, run: seq<Event>): (o: Outcome)
    ensures o.Reached? ==> WellFormed(o.state)
  {
    if run == [] then Reached(Init(found))
    else
      var before := After(names, found, run[..|run| - 1]);
      if before.Reached? && Enabled(names, before.state, Last(run))
      then Reached(Step(names, before.state, Last(run)))
      else Impossible
  }

  /** Every prefix of a possible run is a possible run. */
  lemma {:induction false} PrefixReached(names: set<string>, found: Found, run: seq<Event>, k: nat)
    requires After(names, found, run).Reached? && k <= |run|
    ensures After(names, found, run[..k]).Reached?
  {
    if k == |run| {
      assert run[..k] == run;
    } else {
      PrefixReached(names, found, run[..|run| - 1], k);
      assert run[..|run| - 1][..k] == run[..k];
    }
  }

  // ---------------------------------------------------------------- what must hold in every state

  /** An original that selects the proxy has its fork and its canary service behind the proxy, and no original
      selects the proxy once the CanaryRelease says the transition is finished. */
  predicate Safe(s: State)
    requires WellFormed(s)
  {
    && s.toProxy <= s.forks
    && s.toProxy <= s.canaries
    && (Last(s.crs).phase != NoTransition ==> s.toProxy == {})
  }

  predicate AlwaysSafe(names: set<string>, found: Found, run: seq<Event>)
    requires After(names, found, run).Reached?
    decreases |run|
  {
    && Safe(After(names, found, run).state)
    && (run == [] || AlwaysSafe(names, found, run[..|run| - 1]))
  }

  /** A fork or canary service is deleted only after its original stopped selecting the proxy, and the phase is
      written only after all of them did. */
  predicate Guarded(s: State, e: Event) {
    match e
    case DeleteFork(n) => n !in s.toProxy
    case DeleteCanary(n) => n !in s.toProxy
    case WritePhase => s.toProxy == {}
    case _ => true
  }

  /** At cleanup the listers are current, so that an original that selects the proxy is passed over only when its
      target is really gone, and no failed recovery was logged and then ignored. */
  predicate Careful(s: State, e: Event) {
    match e
    case SkipOriginal(n) => s.pc.Recovering? && n in s.toProxy ==> n !in Targets(s, s.pc.goal)
    case RecoveryFails => s.pc.Recovering? ==> s.pc.goal == Adopted
    case _ => true
  }

  predicate Throughout(names: set<string>, found: Found, run: seq<Event>, rule: (State, Event) -> bool)
    requires After(names, found, run).Reached?
    decreases |run|
  {
    run == [] ||
    var before := After(names, found, run[..|run| - 1]);
    Throughout(names, found, run[..|run| - 1], rule) && rule(before.state, Last(run))
  }

  // ---------------------------------------------------------------- invariants

  /** A transition that was asked for stays asked for, a phase that was written stays written. */
  predicate Monotone(crs: seq<CanaryRelease>) {
    && (forall i, j | 0 <= i < j < |crs| :: crs[i].transition != NoTransition ==> crs[j].transition != NoTransition)
    && (forall i, j | 0 <= i < j < |crs| :: crs[i].phase != NoTransition ==> crs[j].phase != NoTransition)
  }

  /** What the position of the worker says about the cluster. */
  predicate PcInvariant(names: set<string>, s: State)
    requires WellFormed(s)
  {
    match s.pc
    case Idle => true
    case Syncing(_, _) => Last(s.crs).phase == NoTransition
    case Forking(done) => Last(s.crs).phase == NoTransition && names <= s.canaries && done <= s.forks && done <= names
    case Pointing => Last(s.crs).phase == NoTransition && names <= s.canaries && names <= s.forks
    case Recovering(goal, done) => goal != NoTransition && s.crs[s.view].transition != NoTransition
    case Clearing(goal) => goal != NoTransition && s.crs[s.view].transition != NoTransition
  }

  predicate NeverUndercut(d: string, versions: seq<set<string>>, expected: string) {
    forall j, x | 0 <= j < |versions| && x in versions[j] && HasPrefix(x, expected) :: !Less(x, d)
  }

  predicate NoneExpected(versions: seq<set<string>>, expected: string) {
    forall j, x | 0 <= j < |versions| && x in versions[j] :: !HasPrefix(x, expected)
  }

  /** Until the phase is written, the least expected proxy Deployment there ever was is still there. */
  predicate LeastSurvives(s: State)
    requires WellFormed(s)
  {
    Last(s.crs).phase == NoTransition ==>
      || NoneExpected(s.deployments, s.expected)
      || (exists d ::
            d in Last(s.deployments) && HasPrefix(d, s.expected) && NeverUndercut(d, s.deployments, s.expected))
  }

  predicate Invariant(names: set<string>, s: State) {
    && WellFormed(s)
    && s.toProxy <= names
    && Safe(s)
    && Monotone(s.crs)
    && (Last(s.crs).phase != NoTransition ==> s.crs[s.view].transition != NoTransition)
    && PcInvariant(names, s)
    && LeastSurvives(s)
  }

  lemma PrefixNeverUndercut(versions: seq<set<string>>, expected: string)
    ensures HasPrefix(expected, expected) && NeverUndercut(expected, versions, expected)
  {
    forall j, x | 0 <= j < |versions| && x in versions[j] && HasPrefix(x, expected) ensures !Less(x, expected) {
      PrefixIsLeast(x, expected);
    }
  }

  lemma LeastSurvivesStep(names: set<string>, s: State, e: Event)
    requires Invariant(names, s) && Enabled(names, s, e)
    ensures LeastSurvives(Step(names, s, e))
  {
    hide HasPrefix, Less;
    var t := Step(names, s, e);
    if Last(t.crs).phase == NoTransition && t.deployments != s.deployments {
      match e
      case CreateDeployment(_, _) =>
        PrefixNeverUndercut(t.deployments, t.expected);
        assert t.expected in Last(t.deployments);
      case DeleteExtraDeployment(_, w, d) =>
        if NoneExpected(s.deployments, s.expected) {
          assert NoneExpected(t.deployments, t.expected);
        } else {
          var least :| least in Last(s.deployments) && HasPrefix(least, s.expected)
                       && NeverUndercut(least, s.deployments, s.expected);
          assert IsLeast(least, s.deployments[w], s.expected) || least !in s.deployments[w];
          assert least in Last(t.deployments) && NeverUndercut(least, t.deployments, t.expected);
        }
      case DeleteOnCleanup(_, _, _) =>
        assert false;
    }
  }

  lemma InvariantStep(names: set<string>, s: State, e: Event)
    requires Invariant(names, s) && Enabled(names, s, e) && Guarded(s, e)
    ensures Invariant(names, Step(names, s, e))
  {
    hide HasPrefix, Less, LeastSurvives;
    LeastSurvivesStep(names, s, e);
  }

  lemma {:induction false} GuardedInvariant(names: set<string>, found: Found, run: seq<Event>)
    requires After(names, found, run).Reached?
    requires Throughout(names, found, run, Guarded)
    ensures Invariant(names, After(names, found, run).state)
    decreases |run|
  {
    if run == [] {
      LeastFound(found);
    } else {
      GuardedInvariant(names, found, run[..|run| - 1]);
      InvariantStep(names, After(names, found, run[..|run| - 1]).state, Last(run));
    }
  }

  lemma LeastFound(found: Found)
    ensures LeastSurvives(Init(found))
  {
    hide HasPrefix, Less;
    var expected := set d | d in found.deployments && HasPrefix(d, found.expected);
    if expected == {} {
      assert forall x | x in found.deployments :: HasPrefix(x, found.expected) ==> x in expected;
      assert NoneExpected([found.deployments], found.expected);
    } else {
      var least := Least(expected);
      assert NeverUndercut(least, [found.deployments], found.expected);
    }
  }

  lemma Least(ds: set<string>) returns (d: string)
    requires ds != {}
    ensures d in ds && forall x | x in ds :: !Less(x, d)
    decreases |ds|
  {
    hide Less;
    d :| d in ds;
    var rest := ds - {d};
    LessTotal(d, d);
    if rest != {} {
      var y := Least(rest);
      LessTotal(y, d);
      if Less(y, d) {
        d := y;
      } else {
        forall x | x in ds ensures !Less(x, d) {
          if x in rest {
            LessTransitive(d, y, x);
          }
        }
      }
    }
  }

  // ---------------------------------------------------------------- results

  /** Exactly the runs whose deletions and phase writes are guarded are safe in every state. */
  lemma {:induction false} SafeExactlyWhenGuarded(names: set<string>, found: Found, run: seq<Event>)
    requires After(names, found, run).Reached?
    ensures AlwaysSafe(names, found, run) <==> Throughout(names, found, run, Guarded)
    decreases |run|
  {
    if run != [] {
      var init := run[..|run| - 1];
      SafeExactlyWhenGuarded(names, found, init);
      var s := After(names, found, init).state;
      if Throughout(names, found, init, Guarded) {
        GuardedInvariant(names, found, init);
        if Guarded(s, Last(run)) {
          InvariantStep(names, s, Last(run));
        }
      }
    }
  }

  /** In a careful run a recovered original stays recovered until the attempt is over. */
  predicate CarefulInvariant(s: State) {
    match s.pc
    case Recovering(_, handled) => handled !! s.toProxy
    case Clearing(_) => s.toProxy == {}
    case _ => true
  }

  lemma CarefulStep(names: set<string>, s: State, e: Event)
    requires Invariant(names, s) && CarefulInvariant(s) && Enabled(names, s, e) && Careful(s, e)
    ensures Guarded(s, e) && CarefulInvariant(Step(names, s, e))
  {
  }

  /** With current listers at cleanup and no failed recovery ignored, every state of every run is safe. */
  lemma {:induction false} CarefulRunsAreSafe(names: set<string>, found: Found, run: seq<Event>)
    requires After(names, found, run).Reached?
    requires Throughout(names, found, run, Careful)
    ensures Throughout(names, found, run, Guarded) && AlwaysSafe(names, found, run)
    ensures CarefulInvariant(After(names, found, run).state)
    decreases |run|
  {
    if run != [] {
      CarefulRunsAreSafe(names, found, run[..|run| - 1]);
      GuardedInvariant(names, found, run[..|run| - 1]);
      CarefulStep(names, After(names, found, run[..|run| - 1]).state, Last(run));
    }
    SafeExactlyWhenGuarded(names, found, run);
  }

  lemma LastDeploymentIsLeast(names: set<string>, s: State, e: Event)
    requires Invariant(names, s) && (e.DeleteExtraDeployment? || e.DeleteOnCleanup?) && Enabled(names, s, e)
    requires Last(s.deployments) == {e.deployment}
    ensures Last(s.crs).phase == NoTransition ==> e.DeleteExtraDeployment? && !HasPrefix(e.deployment, s.expected)
  {
  }

  /** Whatever versions the controller's listers have shown it, its next call removes the last proxy Deployment from
      under an original that selects the proxy only if that one is unexpectedly named and the call comes from a sync,
      which deletes such a one before it creates another. */
  lemma LastDeploymentOutlivesTraffic(names: set<string>, found: Found, run: seq<Event>, e: Event)
    requires After(names, found, run).Reached? && Throughout(names, found, run, Careful)
    requires e.DeleteExtraDeployment? || e.DeleteOnCleanup?
    requires Enabled(names, After(names, found, run).state, e)
    requires Last(After(names, found, run).state.deployments) == {e.deployment}
    ensures || After(names, found, run).state.toProxy == {}
            || (e.DeleteExtraDeployment? && !HasPrefix(e.deployment, found.expected))
  {
    hide HasPrefix, Enabled, Step, Invariant;
    CarefulRunsAreSafe(names, found, run);
    GuardedInvariant(names, found, run);
    ExpectedStays(names, found, run);
    SafeAtPhase(names, After(names, found, run).state);
    LastDeploymentIsLeast(names, After(names, found, run).state, e);
  }

  lemma SafeAtPhase(names: set<string>, s: State)
    requires Invariant(names, s)
    ensures Last(s.crs).phase != NoTransition ==> s.toProxy == {}
  {
  }

  lemma {:induction false} ExpectedStays(names: set<string>, found: Found, run: seq<Event>)
    requires After(names, found, run).Reached?
    ensures After(names, found, run).state.expected == found.expected
    decreases |run|
  {
    if run != [] {
      ExpectedStays(names, found, run[..|run| - 1]);
    }
  }

  // ---------------------------------------------------------------- what nginx has loaded

  /** Since the proxy process last started: has a sync rendered a manifest other than the one its lister showed? */
  predicate ChangedSinceStart(names: set<string>, found: Found, run: seq<Event>)
    requires After(names, found, run).Reached?
    decreases |run|
  {
    && run != [] && !Last(run).ProxyRestarts?
    && var s := After(names, found, run[..|run| - 1]).state;
       || (Last(run).SyncBegins? && Last(run).rendered != s.crs[s.view].manifest)
       || ChangedSinceStart(names, found, run[..|run| - 1])
  }

  /** Since the proxy process last started: has no sync failed before it had loaded nginx? */
  predicate SmoothSinceStart(names: set<string>, found: Found, run: seq<Event>)
    requires After(names, found, run).Reached?
    decreases |run|
  {
    || run == [] || Last(run).ProxyRestarts?
    || (&& (Last(run).SyncFails? ==> After(names, found, run[..|run| - 1]).state.pc.Pointing?)
        && SmoothSinceStart(names, found, run[..|run| - 1]))
  }

  /** What a run says about the loaded configuration: `changed` that a sync found another manifest than the recorded
      one, `smooth` that none failed before nginx was loaded. */
  predicate LoadedInvariant(names: set<string>, s: State, changed: bool, smooth: bool) {
    && (s.loaded == names || s.loaded == {})
    && (s.running || s.pc.Pointing? ==> s.loaded == names)
    && (!changed ==>
          && s.loaded == {} && !s.running && !s.pc.Forking? && !s.pc.Pointing?
          && (s.pc.Syncing? ==> s.pc.rendered == s.pc.seen))
    && (changed && smooth ==> s.loaded == names || s.pc.Forking? || (s.pc.Syncing? && s.pc.rendered != s.pc.seen))
  }

  lemma LoadedStep(names: set<string>, s: State, e: Event, changed: bool, smooth: bool)
    requires WellFormed(s) && Enabled(names, s, e) && LoadedInvariant(names, s, changed, smooth)
    ensures LoadedInvariant(names, Step(names, s, e),
                            !e.ProxyRestarts? && ((e.SyncBegins? && e.rendered != s.crs[s.view].manifest) || changed),
                            e.ProxyRestarts? || ((e.SyncFails? ==> s.pc.Pointing?) && smooth))
  {
    hide HasPrefix, Less, IsLeast;
  }

  lemma {:induction false} LoadedByChange(names: set<string>, found: Found, run: seq<Event>)
    requires After(names, found, run).Reached?
    ensures LoadedInvariant(names, After(names, found, run).state, ChangedSinceStart(names, found, run),
                            SmoothSinceStart(names, found, run))
    decreases |run|
  {
    hide Enabled, Step, LoadedInvariant;
    if run == [] {
      LoadedAtFirst(names, found);
    } else {
      LoadedByChange(names, found, run[..|run| - 1]);
      LoadedStep(names, After(names, found, run[..|run| - 1]).state, Last(run),
                 ChangedSinceStart(names, found, run[..|run| - 1]), SmoothSinceStart(names, found, run[..|run| - 1]));
    }
  }

  lemma LoadedAtFirst(names: set<string>, found: Found)
    ensures LoadedInvariant(names, Init(found), false, true)
  {
  }

  /** With current listers at cleanup and no sync that failed before it had loaded nginx since the process started, in
      every state but those before that loading in a sync: every original that selects the proxy is in the configuration
      nginx has loaded exactly if there is none, or some sync since the start rendered a manifest other than the
      recorded one. */
  lemma ConfiguredExactlyWhenManifestChanged(names: set<string>, found: Found, run: seq<Event>)
    requires After(names, found, run).Reached? && Throughout(names, found, run, Careful)
    requires !After(names, found, run).state.pc.Syncing? && !After(names, found, run).state.pc.Forking?
    requires SmoothSinceStart(names, found, run)
    ensures var s := After(names, found, run).state;
            s.toProxy <= s.loaded <==> (s.toProxy == {} || ChangedSinceStart(names, found, run))
  {
    hide Enabled, Step;
    LoadedByChange(names, found, run);
    CarefulRunsAreSafe(names, found, run);
    GuardedInvariant(names, found, run);
  }

  /** The proxy starts only while no original selects it. */
  predicate StartsUnused(s: State, e: Event) {
    e.ProxyRestarts? ==> s.toProxy == {}
  }

  /** In every state, every original that selects the proxy is in the configuration nginx has loaded. */
  predicate AlwaysConfigured(names: set<string>, found: Found, run: seq<Event>)
    requires After(names, found, run).Reached?
    decreases |run|
  {
    && After(names, found, run).state.toProxy <= After(names, found, run).state.loaded
    && (run == [] || AlwaysConfigured(names, found, run[..|run| - 1]))
  }

  predicate TrafficIsLoaded(names: set<string>, s: State) {
    s.toProxy <= names && (s.toProxy != {} || s.pc.Pointing? ==> s.loaded == names)
  }

  lemma TrafficIsLoadedStep(names: set<string>, s: State, e: Event)
    requires WellFormed(s) && Enabled(names, s, e) && TrafficIsLoaded(names, s) && StartsUnused(s, e)
    ensures TrafficIsLoaded(names, Step(names, s, e))
  {
    hide HasPrefix, Less, IsLeast;
  }

  /** Whatever failed and whatever listers showed: nginx has every original that selects the proxy configured, in every
      state of the run, exactly if the proxy process was only ever started while none selected it. */
  lemma {:induction false} ConfiguredExactlyWhenStartsUnused(names: set<string>, found: Found, run: seq<Event>)
    requires After(names, found, run).Reached?
    ensures AlwaysConfigured(names, found, run) <==> Throughout(names, found, run, StartsUnused)
    ensures Throughout(names, found, run, StartsUnused) ==> TrafficIsLoaded(names, After(names, found, run).state)
    decreases |run|
  {
    hide Enabled, TrafficIsLoaded;
    if run == [] {
      NothingIsLoaded(names, found);
    } else {
      var init := run[..|run| - 1];
      var s := After(names, found, init).state;
      ConfiguredExactlyWhenStartsUnused(names, found, init);
      if Throughout(names, found, init, StartsUnused) {
        if StartsUnused(s, Last(run)) {
          TrafficIsLoadedStep(names, s, Last(run));
        }
      }
      LoadedMeans(names, After(names, found, run).state);
    }
  }

  lemma NothingIsLoaded(names: set<string>, found: Found)
    ensures TrafficIsLoaded(names, Init(found))
  {
  }

  lemma LoadedMeans(names: set<string>, s: State)
    ensures TrafficIsLoaded(names, s) ==> s.toProxy <= s.loaded
  {
  }

  // ---------------------------------------------------------------- whether a retry takes a rollout up

  /** No version that the proxy's lister can still show has another manifest and no transition. */
  predicate Settled(s: State, m: Manifest)
    requires WellFormed(s)
  {
    forall i | s.view <= i < |s.crs| :: s.crs[i].manifest == m || s.crs[i].transition != NoTransition
  }

  /** Syncs that render manifest `m`, and no cleanup. */
  predicate OnlyRenders(run: seq<Event>, m: Manifest) {
    forall e | e in run :: !e.CleanupBegins? && (e.SyncBegins? ==> e.rendered == m)
  }

  /** What a sync of the recorded manifest leaves alone. */
  predicate NotResumed(s: State, t: State, m: Manifest)
    requires WellFormed(t)
  {
    && t.toProxy == s.toProxy && t.forks == s.forks && t.canaries == s.canaries
    && (t.loaded == s.loaded || t.loaded == {})
    && Settled(t, m) && (t.pc == Idle || t.pc == Syncing(m, m))
  }

  lemma NotResumedStep(names: set<string>, s: State, t: State, e: Event, m: Manifest)
    requires WellFormed(t) && NotResumed(s, t, m) && Enabled(names, t, e)
    requires !e.CleanupBegins? && (e.SyncBegins? ==> e.rendered == m)
    ensures NotResumed(s, Step(names, t, e), m) && !e.ReloadNginx?
  {
    hide HasPrefix, Less, IsLeast;
  }

  /** As long as syncs render `m` and no cleanup begins, whatever else happens: no original is pointed, no fork is
      created and nginx loads nothing. */
  lemma {:induction false} SettledRolloutIsNotResumed(names: set<string>, found: Found, run: seq<Event>,
                                                      more: seq<Event>, m: Manifest)
    requires After(names, found, run).Reached? && After(names, found, run + more).Reached?
    requires After(names, found, run).state.pc == Idle && Settled(After(names, found, run).state, m)
    requires OnlyRenders(more, m)
    ensures NotResumed(After(names, found, run).state, After(names, found, run + more).state, m) && ReloadNginx !in more
    decreases |more|
  {
    hide Enabled, Step;
    if more == [] {
      assert run + more == run;
    } else {
      var init := more[..|more| - 1];
      assert (run + more)[..|run + more| - 1] == run + init && Last(run + more) == Last(more);
      SettledRolloutIsNotResumed(names, found, run, init, m);
      assert more == init + [Last(more)];
      NotResumedStep(names, After(names, found, run).state, After(names, found, run + init).state, Last(more), m);
    }
  }

  /** The run can go on so that a sync of `m` loads nginx. */
  ghost predicate Resumable(names: set<string>, found: Found, run: seq<Event>, m: Manifest) {
    exists more :: OnlyRenders(more, m) && ReloadNginx in more && After(names, found, run + more).Reached?
  }

  /** One more event of a retry. */
  lemma Retried(names: set<string>, found: Found, run: seq<Event>, s: State, e: Event, since: seq<Event>, m: Manifest)
    returns (longer: seq<Event>, t: State, more: seq<Event>)
    requires After(names, found, run + since) == Reached(s) && Enabled(names, s, e) && OnlyRenders(since, m)
    requires !e.CleanupBegins? && (e.SyncBegins? ==> e.rendered == m)
    ensures t == Step(names, s, e) && more == since + [e] && longer == run + more
    ensures After(names, found, longer) == Reached(t) && OnlyRenders(more, m)
    ensures Throughout(names, found, run + since, Careful) && Careful(s, e) ==>
              Throughout(names, found, longer, Careful)
  {
    hide Enabled, Step, After, Throughout;
    longer, t := Extend(names, found, run + since, s, e);
    more := since + [e];
    assert run + since + [e] == run + more;
  }

  lemma {:induction false} CanariesCanBeWritten(names: set<string>, found: Found, run: seq<Event>, s: State,
                                                since: seq<Event>, m: Manifest, left: set<string>)
    returns (t: State, more: seq<Event>)
    requires After(names, found, run + since) == Reached(s) && OnlyRenders(since, m)
    requires left <= names <= s.canaries + left
    requires s.pc.Syncing? && s.pc.rendered != s.pc.seen
    ensures After(names, found, run + more) == Reached(t) && OnlyRenders(more, m)
    ensures names <= t.canaries && t == s.(canaries := t.canaries)
    ensures Throughout(names, found, run + since, Careful) ==> Throughout(names, found, run + more, Careful)
    decreases |left|
  {
    hide After, Throughout, OnlyRenders, HasPrefix, Less, IsLeast;
    t, more := s, since;
    if left != {} {
      var n :| n in left;
      var longer;
      longer, t, more := Retried(names, found, run, s, WriteCanary(n), since, m);
      t, more := CanariesCanBeWritten(names, found, run, t, more, m, left - {n});
    }
  }

  lemma {:induction false} ForksCanBeCreated(names: set<string>, found: Found, run: seq<Event>, s: State,
                                             since: seq<Event>, m: Manifest, left: set<string>)
    returns (t: State, more: seq<Event>)
    requires After(names, found, run + since) == Reached(s) && OnlyRenders(since, m)
    requires s.pc.Forking? && s.pc.forked <= names && left == names - s.pc.forked
    ensures After(names, found, run + more) == Reached(t) && OnlyRenders(more, m)
    ensures t == s.(forks := t.forks, pc := Forking(names))
    ensures Throughout(names, found, run + since, Careful) ==> Throughout(names, found, run + more, Careful)
    decreases |left|
  {
    hide After, Throughout, OnlyRenders, HasPrefix, Less, IsLeast;
    t, more := s, since;
    if left == {} {
      assert s.pc.forked == names;
    } else {
      var n :| n in left;
      var longer;
      longer, t, more := Retried(names, found, run, s, Event.CreateFork(n), since, m);
      t, more := ForksCanBeCreated(names, found, run, t, more, m, left - {n});
    }
  }

  /** A lister that shows another manifest, and no transition, lets a sync go as far as to load nginx. */
  lemma RolloutCanLoad(names: set<string>, found: Found, run: seq<Event>, s: State, since: seq<Event>, m: Manifest)
    returns (t: State, more: seq<Event>)
    requires After(names, found, run + since) == Reached(s) && OnlyRenders(since, m)
    requires s.pc == Idle && s.crs[s.view].manifest != m && s.crs[s.view].transition == NoTransition
    ensures After(names, found, run + more) == Reached(t) && OnlyRenders(more, m) && ReloadNginx in more
    ensures t.pc == Pointing && s.crs <= t.crs && t.deployments == s.deployments && t.expected == s.expected
    ensures Throughout(names, found, run + since, Careful) ==> Throughout(names, found, run + more, Careful)
  {
    hide After, Throughout, OnlyRenders, HasPrefix, Less, IsLeast;
    var longer;
    longer, t, more := Retried(names, found, run, s, SyncBegins(m), since, m);
    t, more := CanariesCanBeWritten(names, found, run, t, more, m, names);
    longer, t, more := Retried(names, found, run, t, RecordManifest, more, m);
    t, more := ForksCanBeCreated(names, found, run, t, more, m, names);
    longer, t, more := Retried(names, found, run, t, ReloadNginx, more, m);
  }

  /** A lister that still shows another manifest, and no transition, lets a retry go all the way. */
  lemma UnsettledRolloutResumes(names: set<string>, found: Found, run: seq<Event>, m: Manifest)
    requires After(names, found, run).Reached? && After(names, found, run).state.pc == Idle
    requires !Settled(After(names, found, run).state, m)
    ensures Resumable(names, found, run, m)
  {
    hide After, HasPrefix, Less, IsLeast;
    var s := After(names, found, run).state;
    var i :| s.view <= i < |s.crs| && s.crs[i].manifest != m && s.crs[i].transition == NoTransition;
    var longer, more := run, [];
    assert run + more == run;
    longer, s, more := Retried(names, found, run, s, ProxyObserves(i), more, m);
    s, more := RolloutCanLoad(names, found, run, s, more, m);
  }

  /** Between rounds, after a rollout of `m` failed at whatever point: some retry can take it up exactly if the proxy's
      lister can still show a version with another manifest and no transition. */
  lemma RolloutResumesExactly(names: set<string>, found: Found, run: seq<Event>, m: Manifest)
    requires After(names, found, run).Reached? && After(names, found, run).state.pc == Idle
    ensures var s := After(names, found, run).state;
            Resumable(names, found, run, m) <==>
              exists i :: s.view <= i < |s.crs| && s.crs[i].manifest != m && s.crs[i].transition == NoTransition
  {
    hide After, OnlyRenders;
    if Settled(After(names, found, run).state, m) {
      forall more | OnlyRenders(more, m) && After(names, found, run + more).Reached? ensures ReloadNginx !in more {
        SettledRolloutIsNotResumed(names, found, run, more, m);
      }
    } else {
      UnsettledRolloutResumes(names, found, run, m);
    }
  }

  // ---------------------------------------------------------------- runs that fail

  /** One more event at the end of a run. */
  lemma Extend(names: set<string>, found: Found, run: seq<Event>, s: State,
               e: Event) returns (longer: seq<Event>, t: State)
    requires After(names, found, run) == Reached(s) && Enabled(names, s, e)
    ensures longer == run + [e] && t == Step(names, s, e) && After(names, found, longer) == Reached(t)
    ensures Throughout(names, found, run, Careful) && Careful(s, e) ==> Throughout(names, found, longer, Careful)
    ensures Throughout(names, found, run, StartsUnused) && StartsUnused(s, e) ==>
              Throughout(names, found, longer, StartsUnused)
  {
    longer, t := run + [e], Step(names, s, e);
    assert longer[..|longer| - 1] == run;
  }

  lemma EmptyRun(names: set<string>, found: Found)
    ensures After(names, found, []) == Reached(Init(found)) && Throughout(names, found, [], Careful)
  {
  }

  const WEB: set<string> := {"web"}
  const NEW: Found := Found("p", {})
  const M: Manifest := "m"

  const FORKED: seq<Event> := [CreateDeployment(0, 0), SyncBegins(M), WriteCanary("web"), RecordManifest,
                               CreateFork("web")]
  const TAKEOVER: seq<Event> := FORKED + [ReloadNginx, PointAtProxy("web"), SyncCompletes, ProxyObserves(1)]
  const DEPRECATION: seq<Event> := TAKEOVER + [RequestTransition(Deprecated), ProxyObserves(2), CleanupBegins]

  const BEFORE := CanaryRelease(NoTransition, NoTransition, NO_MANIFEST)
  const WRITTEN := CanaryRelease(NoTransition, NoTransition, M)

  lemma ForkedRun() returns (s: State)
    ensures After(WEB, NEW, FORKED) == Reached(s) && Throughout(WEB, NEW, FORKED, Careful)
    ensures s == State({}, WEB, WEB, {}, false, Forking(WEB), [BEFORE, WRITTEN], 0, "p", [{}, {"p"}])
  {
    hide After, Throughout, HasPrefix, Less;
    EmptyRun(WEB, NEW);
    var run: seq<Event>;
    run, s := Extend(WEB, NEW, [], Init(NEW), CreateDeployment(0, 0));
    run, s := Extend(WEB, NEW, run, s, SyncBegins(M));
    run, s := Extend(WEB, NEW, run, s, WriteCanary("web"));
    run, s := Extend(WEB, NEW, run, s, RecordManifest);
    run, s := Extend(WEB, NEW, run, s, CreateFork("web"));
    assert run == FORKED;
    assert s.canaries == s.forks == s.pc.forked == WEB && s.deployments[1] == {"p"};
  }

  /** A completed takeover of the single service "web" by a newly created proxy. */
  lemma TakeoverRun() returns (s: State)
    ensures After(WEB, NEW, TAKEOVER) == Reached(s) && Throughout(WEB, NEW, TAKEOVER, Careful)
    ensures s == State(WEB, WEB, WEB, WEB, true, Idle, [BEFORE, WRITTEN], 1, "p", [{}, {"p"}])
  {
    hide After, Throughout, HasPrefix, Less;
    s := ForkedRun();
    var run := FORKED;
    run, s := Extend(WEB, NEW, run, s, ReloadNginx);
    run, s := Extend(WEB, NEW, run, s, PointAtProxy("web"));
    run, s := Extend(WEB, NEW, run, s, SyncCompletes);
    run, s := Extend(WEB, NEW, run, s, ProxyObserves(1));
    assert run == TAKEOVER;
  }

  /** The takeover is deprecated, and the proxy's lister has shown that. */
  lemma DeprecationRun() returns (s: State)
    ensures After(WEB, NEW, DEPRECATION) == Reached(s)
    ensures s
              == State(WEB, WEB, WEB, WEB, true, Recovering(Deprecated, {}),
                       [BEFORE, WRITTEN, WRITTEN.(transition := Deprecated)], 2,
                       "p", [{}, {"p"}])
  {
    hide After, Throughout, HasPrefix, Less;
    s := TakeoverRun();
    var run := TAKEOVER;
    run, s := Extend(WEB, NEW, run, s, RequestTransition(Deprecated));
    run, s := Extend(WEB, NEW, run, s, ProxyObserves(2));
    run, s := Extend(WEB, NEW, run, s, CleanupBegins);
    assert run == DEPRECATION;
  }

  /** A failed recovery is logged and ignored: the fork is deleted, the phase written and the last proxy
      Deployment removed while "web" still selects the proxy. */
  lemma IgnoredFailureStrandsTraffic() returns (s: State)
    ensures After(WEB, NEW, DEPRECATION + [RecoveryFails] + [DeleteFork("web")] + [WritePhase]
                            + [DeleteOnCleanup(3, 1, "p")]) == Reached(s)
    ensures s.toProxy == WEB && s.forks == {} && Last(s.crs).phase == Deprecated && Last(s.deployments) == {}
  {
    hide After, Throughout, HasPrefix, Less;
    s := DeprecationRun();
    var run := DEPRECATION;
    run, s := Extend(WEB, NEW, run, s, RecoveryFails);
    run, s := Extend(WEB, NEW, run, s, DeleteFork("web"));
    run, s := Extend(WEB, NEW, run, s, WritePhase);
    run, s := Extend(WEB, NEW, run, s, DeleteOnCleanup(3, 1, "p"));
  }

  /** A lister that does not show the fork yet has the same effect, although the recovery returns no error. */
  lemma StaleListerStrandsTraffic() returns (s: State)
    ensures After(WEB, NEW, DEPRECATION + [SkipOriginal("web")] + [RecoverySucceeds] + [WritePhase]
                            + [DeleteOnCleanup(3, 1, "p")]) == Reached(s)
    ensures s.toProxy == WEB && Last(s.crs).phase == Deprecated && Last(s.deployments) == {}
  {
    hide After, Throughout, HasPrefix, Less;
    s := DeprecationRun();
    var run := DEPRECATION;
    run, s := Extend(WEB, NEW, run, s, SkipOriginal("web"));
    run, s := Extend(WEB, NEW, run, s, RecoverySucceeds);
    run, s := Extend(WEB, NEW, run, s, WritePhase);
    run, s := Extend(WEB, NEW, run, s, DeleteOnCleanup(3, 1, "p"));
  }

  /** A restarted proxy renders the recorded manifest, so its sync ends before nginx is loaded and leaves "web" on an
      nginx without configuration. */
  lemma RestartLosesConfiguration() returns (s: State)
    ensures After(WEB, NEW, TAKEOVER + [ProxyRestarts, SyncBegins(M), ManifestUnchanged]) == Reached(s)
    ensures Throughout(WEB, NEW, TAKEOVER + [ProxyRestarts, SyncBegins(M), ManifestUnchanged], Careful)
    ensures s.pc == Idle && s.toProxy == WEB && s.loaded == {}
  {
    hide After, Throughout, HasPrefix, Less;
    s := TakeoverRun();
    var run := TAKEOVER;
    run, s := Extend(WEB, NEW, run, s, ProxyRestarts);
    run, s := Extend(WEB, NEW, run, s, SyncBegins(M));
    run, s := Extend(WEB, NEW, run, s, ManifestUnchanged);
    assert run == TAKEOVER + [ProxyRestarts, SyncBegins(M), ManifestUnchanged];
  }

  const OLD: Found := Found("p", {"q"})
  const FORKED_BY_OLD: seq<Event> := [SyncBegins(M), WriteCanary("web"), RecordManifest, CreateFork("web")]
  const TAKEOVER_BY_OLD: seq<Event> := FORKED_BY_OLD + [ReloadNginx, PointAtProxy("web"), SyncCompletes]

  lemma ForkedByOldRun() returns (s: State)
    ensures After(WEB, OLD, FORKED_BY_OLD) == Reached(s) && Throughout(WEB, OLD, FORKED_BY_OLD, Careful)
    ensures s == State({}, WEB, WEB, {}, false, Forking(WEB), [BEFORE, WRITTEN], 0, "p", [{"q"}])
  {
    hide After, Throughout, HasPrefix, Less;
    EmptyRun(WEB, OLD);
    var run: seq<Event>;
    run, s := Extend(WEB, OLD, [], Init(OLD), SyncBegins(M));
    run, s := Extend(WEB, OLD, run, s, WriteCanary("web"));
    run, s := Extend(WEB, OLD, run, s, RecordManifest);
    run, s := Extend(WEB, OLD, run, s, CreateFork("web"));
    assert run == FORKED_BY_OLD;
    assert s.canaries == s.forks == s.pc.forked == WEB;
  }

  /** A claimed Deployment without the expected prefix is deleted although it is the only one and "web" selects the
      proxy it runs. */
  lemma UnexpectedDeploymentStrandsTraffic() returns (s: State)
    ensures After(WEB, OLD, TAKEOVER_BY_OLD + [DeleteExtraDeployment(0, 0, "q")]) == Reached(s)
    ensures Throughout(WEB, OLD, TAKEOVER_BY_OLD + [DeleteExtraDeployment(0, 0, "q")], Careful)
    ensures s.toProxy == WEB && Last(s.deployments) == {}
  {
    hide After, Throughout, Less;
    s := ForkedByOldRun();
    var run := FORKED_BY_OLD;
    run, s := Extend(WEB, OLD, run, s, ReloadNginx);
    run, s := Extend(WEB, OLD, run, s, PointAtProxy("web"));
    run, s := Extend(WEB, OLD, run, s, SyncCompletes);
    assert run == TAKEOVER_BY_OLD;
    assert "q"[..1][0] == 'q' && "p"[0] == 'p';
    run, s := Extend(WEB, OLD, run, s, DeleteExtraDeployment(0, 0, "q"));
  }

  // ---------------------------------------------------------------- when the last Deployment can go

  /** After a careful run, the controller's next call would remove the last proxy Deployment from under an original that
      selects the proxy. */
  predicate Strands(names: set<string>, found: Found, run: seq<Event>, e: Event) {
    && After(names, found, run).Reached? && Throughout(names, found, run, Careful)
    && (e.DeleteExtraDeployment? || e.DeleteOnCleanup?)
    && var s := After(names, found, run).state;
       Enabled(names, s, e) && Last(s.deployments) == {e.deployment} && s.toProxy != {}
  }

  /** The first version of the Deployments is what was found, and each one since was found or has the expected
      prefix. */
  predicate FoundOrExpected(names: set<string>, found: Found, s: State)
    requires WellFormed(s)
  {
    && s.toProxy <= names && s.deployments[0] == found.deployments && s.expected == found.expected
    && forall d | d in Last(s.deployments) :: d in found.deployments || HasPrefix(d, found.expected)
  }

  lemma FoundOrExpectedStep(names: set<string>, found: Found, s: State, e: Event)
    requires WellFormed(s) && Enabled(names, s, e) && FoundOrExpected(names, found, s)
    ensures FoundOrExpected(names, found, Step(names, s, e))
  {
    hide HasPrefix, Less, IsLeast;
    PrefixNeverUndercut([], found.expected);
  }

  lemma {:induction false} DeploymentsAreFoundOrExpected(names: set<string>, found: Found, run: seq<Event>)
    requires After(names, found, run).Reached?
    ensures FoundOrExpected(names, found, After(names, found, run).state)
    decreases |run|
  {
    hide Enabled, Step;
    if run != [] {
      DeploymentsAreFoundOrExpected(names, found, run[..|run| - 1]);
      FoundOrExpectedStep(names, found, After(names, found, run[..|run| - 1]).state, Last(run));
    }
  }

  /** So one that can go under traffic was found, and no found one is expected. */
  lemma StrandingNeedsUnexpected(names: set<string>, found: Found, run: seq<Event>, e: Event)
    requires Strands(names, found, run, e)
    ensures names != {} && found.deployments != {} && forall d | d in found.deployments :: !HasPrefix(d, found.expected)
  {
    hide After, Throughout, HasPrefix, Less, IsLeast, Enabled;
    var s := After(names, found, run).state;
    CarefulRunsAreSafe(names, found, run);
    GuardedInvariant(names, found, run);
    DeploymentsAreFoundOrExpected(names, found, run);
    LastDeploymentOutlivesTraffic(names, found, run, e);
    assert e.deployment in Last(s.deployments) && e.deployment in found.deployments;
    forall d | d in found.deployments ensures !HasPrefix(d, found.expected) {
      assert d in s.deployments[0];
    }
  }

  /** A first sync can take an original over before the controller did anything. */
  lemma TakeoverBeforeDeployment(names: set<string>, found: Found) returns (run: seq<Event>, s: State)
    requires names != {}
    ensures After(names, found, run) == Reached(s) && Throughout(names, found, run, Careful)
    ensures s.toProxy != {} && s.crs[0].phase == NoTransition
    ensures s.deployments == [found.deployments] && s.expected == found.expected
  {
    hide After, Throughout, OnlyRenders, HasPrefix, Less, IsLeast;
    EmptyRun(names, found);
    NothingRendered(M);
    var none: seq<Event> := [];
    assert none + none == none;
    s, run := RolloutCanLoad(names, found, none, Init(found), none, M);
    assert none + run == run;
    var n :| n in names;
    run, s := Extend(names, found, run, s, PointAtProxy(n));
  }

  lemma NothingRendered(m: Manifest)
    ensures OnlyRenders([], m)
  {
  }

  /** All Deployments but one can then be deleted as extra ones. */
  lemma {:induction false} ExtrasCanBeDeleted(names: set<string>, found: Found, run: seq<Event>, s: State, d: string,
                                              left: set<string>)
    returns (longer: seq<Event>, t: State)
    requires After(names, found, run) == Reached(s) && Throughout(names, found, run, Careful)
    requires forall x | x in found.deployments :: !HasPrefix(x, found.expected)
    requires s.crs[0].phase == NoTransition && s.deployments[0] == found.deployments && s.expected == found.expected
    requires left <= found.deployments && d !in left && Last(s.deployments) == left + {d}
    ensures After(names, found, longer) == Reached(t) && Throughout(names, found, longer, Careful)
    ensures Last(t.deployments) == {d} && t == s.(deployments := t.deployments)
    ensures t.deployments[0] == found.deployments
    decreases |left|
  {
    hide After, Throughout, HasPrefix, Less;
    longer, t := run, s;
    if left == {} {
      assert left + {d} == {d};
    } else {
      var x :| x in left;
      longer, t := Extend(names, found, run, s, DeleteExtraDeployment(0, 0, x));
      assert left + {d} - {x} == (left - {x}) + {d};
      longer, t := ExtrasCanBeDeleted(names, found, longer, t, d, left - {x});
    }
  }

  lemma StrandsNow(names: set<string>, found: Found, run: seq<Event>, s: State, d: string)
    requires After(names, found, run) == Reached(s) && Throughout(names, found, run, Careful)
    requires d in found.deployments && !HasPrefix(d, found.expected)
    requires s.crs[0].phase == NoTransition && s.deployments[0] == found.deployments && s.expected == found.expected
    requires Last(s.deployments) == {d} && s.toProxy != {}
    ensures Strands(names, found, run, DeleteExtraDeployment(0, 0, d))
  {
    hide After, Throughout, HasPrefix, Less;
  }

  /** The last proxy Deployment can be removed from under an original that selects the proxy exactly if Deployments were
      found and none of them has the expected prefix. */
  lemma LastDeploymentGoesExactly(names: set<string>, found: Found)
    ensures (exists run, e :: Strands(names, found, run, e)) <==>
              && names != {} && found.deployments != {}
              && forall d | d in found.deployments :: !HasPrefix(d, found.expected)
  {
    hide After, Throughout, HasPrefix, Less, Strands;
    forall run, e | Strands(names, found, run, e)
      ensures names != {} && found.deployments != {}
      ensures forall d | d in found.deployments :: !HasPrefix(d, found.expected)
    {
      StrandingNeedsUnexpected(names, found, run, e);
    }
    if && names != {} && found.deployments != {}
       && forall d | d in found.deployments :: !HasPrefix(d, found.expected) {
      var d :| d in found.deployments;
      var run, s := TakeoverBeforeDeployment(names, found);
      assert found.deployments - {d} + {d} == found.deployments;
      run, s := ExtrasCanBeDeleted(names, found, run, s, d, found.deployments - {d});
      StrandsNow(names, found, run, s, d);
    }
  }
}
