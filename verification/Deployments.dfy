/** The controller's side: it keeps exactly one proxy Deployment while a CanaryRelease is in progress, and removes all
    of them once its phase is written.  Its calls are events of the protocol, as the proxy's are. */
module Deployments {
  import opened Text
  import opened Sequences
  import opened Allocator
  import opened Protocol

  const PROXY_NAME_SUFFIX := "-proxy"

  /** The name of the Deployment that is generated, and the prefix of all expected ones. */
  function ProxyName(canaryRelease: string): string {
    canaryRelease + PROXY_NAME_SUFFIX
  }

  // ---------------------------------------------------------------- the one to keep

  /** The index of the first name with the prefix, or |names|. */
  function FirstExpected(names: seq<string>, prefix: string): (k: nat)
    ensures k <= |names| && (k < |names| ==> HasPrefix(names[k], prefix))
    ensures forall j | 0 <= j < k :: !HasPrefix(names[j], prefix)
  {
    if names == [] || HasPrefix(names[0], prefix) then 0 else 1 + FirstExpected(names[1..], prefix)
  }

  lemma FirstExpectedUnique(names: seq<string>, prefix: string, k: nat)
    requires k <= |names| && (k < |names| ==> HasPrefix(names[k], prefix))
    requires forall j | 0 <= j < k :: !HasPrefix(names[j], prefix)
    ensures FirstExpected(names, prefix) == k
  {
  }

  /** The Deployment that a sync leaves: the first expected one, or else the generated one. */
  function Active(names: seq<string>, canaryRelease: string): string {
    var k := FirstExpected(names, ProxyName(canaryRelease));
    if k < |names| then names[k] else ProxyName(canaryRelease)
  }

  /** In a sorted list the first expected name is the least one. */
  lemma ActiveIsLeast(names: seq<string>, canaryRelease: string)
    requires SortedNames(names)
    ensures forall n | n in names && HasPrefix(n, ProxyName(canaryRelease)) :: !Less(n, Active(names, canaryRelease))
    ensures HasPrefix(Active(names, canaryRelease), ProxyName(canaryRelease))
    ensures Active(names, canaryRelease) in names || forall n | n in names :: !HasPrefix(n, ProxyName(canaryRelease))
  {
    var prefix := ProxyName(canaryRelease);
    var k := FirstExpected(names, prefix);
    forall n | n in names && HasPrefix(n, prefix) ensures !Less(n, Active(names, canaryRelease)) {
      var i :| 0 <= i < |names| && names[i] == n;
      LessTotal(n, n);
    }
  }

  /** What a sync deletes among the expected ones is never the least of them, as the protocol demands. */
  lemma DeletedIsNotLeast(names: seq<string>, canaryRelease: string, n: string)
    requires SortedNames(names) && n in names && HasPrefix(n, ProxyName(canaryRelease))
    requires n != Active(names, canaryRelease)
    ensures Active(names, canaryRelease) in names && Less(Active(names, canaryRelease), n)
  {
    ActiveIsLeast(names, canaryRelease);
    LessTotal(n, Active(names, canaryRelease));
  }

  /** Neither is an unexpected one. */
  lemma DeletedMayGo(names: seq<string>, canaryRelease: string, n: string)
    requires SortedNames(names) && n in names
             && (HasPrefix(n, ProxyName(canaryRelease)) ==> n != Active(names, canaryRelease))
    ensures !IsLeast(n, Elements(names), ProxyName(canaryRelease))
  {
    hide SortedNames, HasPrefix, Less, Active;
    if HasPrefix(n, ProxyName(canaryRelease)) {
      DeletedIsNotLeast(names, canaryRelease, n);
      ActiveIsLeast(names, canaryRelease);
    }
  }

  // ---------------------------------------------------------------- the server

  predicate ControllerCall(e: Event) {
    e.CreateDeployment? || e.DeleteExtraDeployment? || e.DeleteOnCleanup?
  }

  /** The cluster as the controller sees it.  Between any two of its calls the proxy, the users and the listers go on,
      with current listers at cleanup and no recovery given up if `careful` is set; nothing else touches its
      Deployments. */
  class DeploymentServer {
    const names: set<string>
    const found: Found
    const careful: bool
    const reliable: bool
    var state: State
    var calls: nat
    ghost var log: seq<Event>

    constructor (names: set<string>, found: Found, careful: bool, reliable: bool)
      ensures Valid() && log == [] && this.names == names && this.found == found && this.careful == careful
      ensures Live() == found.deployments && this.reliable == reliable
    {
      this.names, this.found, this.careful, this.reliable := names, found, careful, reliable;
      state, calls, log := Init(found), 0, [];
    }

    /** The log is a run that leads to the present state. */
    ghost predicate Valid()
      reads this
    {
      After(names, found, log) == Reached(state) && WellFormed(state)
      && (careful ==> Throughout(names, found, log, Careful))
    }

    /** The Deployments there are. */
    function Live(): set<string>
      reads this
      requires state.deployments != []
    {
      Last(state.deployments)
    }

    /** The log has grown, and so have the versions. */
    twostate predicate Continues()
      reads this
    {
      Valid() && old(log) <= log && old(state.crs) <= state.crs && old(state.deployments) <= state.deployments
    }

    method Take(e: Event)
      requires Valid() && Enabled(names, state, e) && (careful ==> Careful(state, e))
      modifies this`state, this`log
      ensures Continues() && state == Step(names, old(state), e) && log == old(log) + [e]
      ensures !ControllerCall(e) ==> state.deployments == old(state.deployments)
    {
      hide After, Throughout, HasPrefix, Less, IsLeast, Careful;
      ghost var longer, t := Extend(names, found, log, state, e);
      StepGrows(names, state, e);
      state := Step(names, state, e);
      log := longer;
    }

    /** The rest of the cluster. */
    method Interfere()
      requires Valid()
      modifies this`state, this`log
      ensures Continues() && state.deployments == old(state.deployments)
    {
      hide After, Throughout, HasPrefix, Less, IsLeast, Careful;
      var rounds: nat := *;
      while rounds > 0
        invariant Continues() && state.deployments == old(state.deployments)
      {
        var e: Event := *;
        if !ControllerCall(e) && Enabled(names, state, e) && (!careful || Careful(state, e)) {
          Take(e);
        }
        rounds := rounds - 1;
      }
    }

    /** Deletes a Deployment that was listed at version `w`, for what the CanaryRelease was at version `u`. */
    method Delete(u: nat, w: nat, name: string) returns (ok: bool)
      requires Valid() && u < |state.crs| && w < |state.deployments| && name in state.deployments[w]
      requires state.crs[u].phase == NoTransition ==> !IsLeast(name, state.deployments[w], state.expected)
      modifies this
      ensures Continues() && calls == old(calls) + 1
      ensures Live() == old(Live()) - {name} || (!ok && Live() == old(Live()))
      ensures reliable ==> ok
    {
      hide After, Throughout, HasPrefix, Less, IsLeast;
      ghost var expected := state.expected;
      ExpectedStays(names, found, log);
      calls := calls + 1;
      Interfere();
      ExpectedStays(names, found, log);
      ok := *;
      ok := ok || reliable;
      var effective: bool := *;
      if ok || effective {
        Take(if state.crs[u].phase == NoTransition then DeleteExtraDeployment(u, w, name)
             else DeleteOnCleanup(u, w, name));
      }
    }

    /** Creates the generated Deployment, after none that was listed at version `w` was expected. */
    method Create(u: nat, w: nat) returns (ok: bool)
      requires Valid() && u < |state.crs| && w < |state.deployments| && state.crs[u].phase == NoTransition
      requires forall d | d in state.deployments[w] :: !HasPrefix(d, state.expected)
      modifies this
      ensures Continues() && calls == old(calls) + 1
      ensures ok ==> found.expected !in old(Live()) && Live() == old(Live()) + {found.expected}
      ensures Live() == old(Live()) || Live() == old(Live()) + {found.expected}
      ensures reliable && found.expected !in old(Live()) ==> ok
    {
      hide After, Throughout, HasPrefix, Less, IsLeast;
      ExpectedStays(names, found, log);
      calls := calls + 1;
      Interfere();
      ExpectedStays(names, found, log);
      ok := false;
      var effective: bool, reported: bool := *, *;
      if found.expected !in Live() && (effective || reliable) {
        Take(CreateDeployment(u, w));
        ok := reported || reliable;
      }
    }

    /** deprecate: requests the transition unless version `u` has one requested. */
    method Deprecate(u: nat) returns (ok: bool)
      requires Valid() && u < |state.crs|
      modifies this`state, this`log
      ensures Continues() && Live() == old(Live())
      ensures state.crs[u].transition != NoTransition ==> ok && unchanged(this)
      ensures state.crs[u].transition == NoTransition && ok ==> Last(state.crs).transition == Deprecated
      ensures reliable ==> ok
    {
      hide After, Throughout, HasPrefix, Less, IsLeast;
      if state.crs[u].transition != NoTransition {
        return true;
      }
      Interfere();
      ok := false;
      var effective: bool, reported: bool := *, *;
      if effective || reliable {
        Take(RequestTransition(Deprecated));
        ok := reported || reliable;
      }
    }
  }

  lemma StepGrows(names: set<string>, s: State, e: Event)
    requires WellFormed(s) && Enabled(names, s, e)
    ensures var t := Step(names, s, e);
            WellFormed(t) && s.crs <= t.crs && s.deployments <= t.deployments
            && (!ControllerCall(e) ==> t.deployments == s.deployments)
  {
    hide HasPrefix, Less, IsLeast;
  }

  // ---------------------------------------------------------------- sync and cleanup

  predicate HasExpected(names: seq<string>, prefix: string) {
    FirstExpected(names, prefix) < |names|
  }

  lemma NoneListed(canaryRelease: string)
    ensures Active([], canaryRelease) == ProxyName(canaryRelease) && !HasExpected([], ProxyName(canaryRelease))
  {
  }

  lemma ActiveIsListed(names: seq<string>, canaryRelease: string)
    ensures Active(names, canaryRelease) in names <==> HasExpected(names, ProxyName(canaryRelease))
    ensures HasPrefix(Active(names, canaryRelease), ProxyName(canaryRelease))
  {
  }

  /** The first expected name of a prefix of the list is the first of the list. */
  lemma ExpectedRest(names: seq<string>, i: nat, prefix: string)
    requires i <= |names|
    ensures FirstExpected(names[..i], prefix) < i ==> FirstExpected(names, prefix) == FirstExpected(names[..i], prefix)
  {
  }

  lemma {:induction false} NextExpected(names: seq<string>, name: string, prefix: string)
    ensures FirstExpected(names + [name], prefix)
         == if FirstExpected(names, prefix) < |names| then FirstExpected(names, prefix)
            else if HasPrefix(name, prefix) then |names| else |names| + 1
  {
    var k := FirstExpected(names, prefix);
    var all := names + [name];
    FirstExpectedUnique(all, prefix, if k < |names| || HasPrefix(name, prefix) then k else |names| + 1);
  }

  /** Name `i` of a sorted list is an extra one, which may go, or the active one. */
  lemma NextIsExtra(names: seq<string>, i: nat, canaryRelease: string)
    requires SortedNames(names) && NoRepeats(names) && i < |names|
    ensures var prefix, before, after := ProxyName(canaryRelease), names[..i], names[..i + 1];
            if !HasPrefix(names[i], prefix) || HasExpected(before, prefix)
            then && Active(after, canaryRelease) == Active(before, canaryRelease)
                    && (HasExpected(after, prefix) <==> HasExpected(before, prefix))
                 && !IsLeast(names[i], Elements(names), prefix) && names[i] in Elements(names)
                 && Elements(after) - {Active(after, canaryRelease)}
                      == Elements(before) - {Active(before, canaryRelease)} + {names[i]}
            else && Active(after, canaryRelease) == names[i] && HasExpected(after, prefix)
                 && Elements(after) - {names[i]} == Elements(before) - {Active(before, canaryRelease)}
    ensures names == [Active(names, canaryRelease)] ==>
              HasPrefix(names[i], ProxyName(canaryRelease)) && !HasExpected(names[..i], ProxyName(canaryRelease))
  {
    hide SortedNames, HasPrefix, Less, IsLeast, FirstExpected;
    var prefix, before, after := ProxyName(canaryRelease), names[..i], names[..i + 1];
    PrefixNext(names, i);
    NextExpected(before, names[i], prefix);
    ActiveIsListed(before, canaryRelease);
    ActiveIsListed(names, canaryRelease);
    assert names[i] !in before;
    assert Elements(after) == Elements(before) + {names[i]};
    if !HasPrefix(names[i], prefix) || HasExpected(before, prefix) {
      ExpectedRest(names, i, prefix);
      DeletedMayGo(names, canaryRelease, names[i]);
    }
  }

  /** The loop over the listed Deployments: all go but the first expected one. */
  method DeleteExtras(server: DeploymentServer, canaryRelease: string, u: nat, w: nat, dps: seq<string>)
    returns (updated: bool, active: string, clean: bool)
    requires server.Valid() && server.found.expected == ProxyName(canaryRelease) && u < |server.state.crs|
    requires w < |server.state.deployments|
    requires server.state.crs[u].phase == NoTransition
    requires SortedNames(dps) && NoRepeats(dps) && Elements(dps) == server.state.deployments[w]
    modifies server
    ensures server.Continues() && active == Active(dps, canaryRelease)
            && (updated <==> HasExpected(dps, ProxyName(canaryRelease)))
    ensures old(server.Live()) - (Elements(dps) - {active}) <= server.Live() <= old(server.Live())
    ensures clean ==> server.Live() == old(server.Live()) - (Elements(dps) - {active})
    ensures active in dps <==> updated
    ensures dps == [active] ==> unchanged(server)
    ensures server.reliable ==> clean
    ensures server.calls == old(server.calls) + |dps| - if updated then 1 else 0
  {
    hide After, Throughout, HasPrefix, Less, IsLeast, SortedNames, Active, HasExpected, NoRepeats;
    var prefix := ProxyName(canaryRelease);
    updated, active, clean := false, prefix, true;
    var i := 0;
    ghost var gone: set<string> := {};
    NoneListed(canaryRelease);
    assert dps[..0] == [];
    while i < |dps|
      invariant 0 <= i <= |dps| && server.Continues()
      invariant active == Active(dps[..i], canaryRelease) && (updated <==> HasExpected(dps[..i], prefix))
      invariant gone == Elements(dps[..i]) - {active}
      invariant old(server.Live()) - gone <= server.Live() <= old(server.Live())
      invariant clean ==> server.Live() == old(server.Live()) - gone
      invariant dps == [Active(dps, canaryRelease)] ==> unchanged(server)
      invariant server.reliable ==> clean
      invariant server.calls == old(server.calls) + i - if updated then 1 else 0
    {
      NextIsExtra(dps, i, canaryRelease);
      if !HasPrefix(dps[i], prefix) || updated {
        ExpectedStays(server.names, server.found, server.log);
        var deleted := server.Delete(u, w, dps[i]);
        clean := clean && deleted;
        gone := gone + {dps[i]};
      } else {
        updated, active := true, dps[i];
      }
      i := i + 1;
    }
    assert dps[..i] == dps;
    ActiveIsListed(dps, canaryRelease);
  }

  /** The controller's sync for version `u` of the CanaryRelease over the Deployments listed at version `w`, sorted by
      name. Whatever calls fail, no Deployment goes but listed ones that are not the active one, and none comes but the
      generated one, and that only if no listed one was expected; if all calls succeed, of the listed and the generated
      ones just the active one is left. */
  method SyncDeployments(server: DeploymentServer, canaryRelease: string, u: nat, w: nat, dps: seq<string>)
    returns (ok: bool, active: string, clean: bool)
    requires server.Valid() && server.found.expected == ProxyName(canaryRelease) && u < |server.state.crs|
    requires w < |server.state.deployments|
    requires server.state.crs[u].phase == NoTransition
    requires SortedNames(dps) && NoRepeats(dps) && Elements(dps) == server.state.deployments[w]
    modifies server
    ensures server.Continues() && active == Active(dps, canaryRelease)
    ensures old(server.Live()) - (Elements(dps) - {active}) <= server.Live() <= old(server.Live()) + {active}
    ensures active in server.Live() && active !in old(server.Live()) ==>
              active == canaryRelease + "-proxy" && active !in dps
    ensures ok && clean ==>
              server.Live() == old(server.Live()) - (Elements(dps) - {active}) + if active in dps then {} else {active}
    ensures ok && clean && w == old(|server.state.deployments|) - 1 ==> server.Live() == {active}
    ensures if active in dps then ok else ok ==> active in server.Live()
    ensures dps == [active] ==> unchanged(server)
    ensures server.reliable && w == old(|server.state.deployments|) - 1 ==>
              ok && clean && server.Live() == {active}
  {
    hide After, Throughout, HasPrefix, Less, IsLeast, SortedNames, NoRepeats, FirstExpected;
    var updated;
    updated, active, clean := DeleteExtras(server, canaryRelease, u, w, dps);
    ok := true;
    if !updated {
      ExpectedStays(server.names, server.found, server.log);
      assert forall d | d in Elements(dps) :: d in dps;
      ok := server.Create(u, w);
    }
  }

  /** After a successful sync of current listings the next listing has one entry, the active one, so that the next sync
      neither creates nor deletes anything. */
  lemma SecondSyncFindsOne(dps: seq<string>, canaryRelease: string, next: seq<string>)
    requires NoRepeats(next) && Elements(next) == {Active(dps, canaryRelease)}
    ensures next == [Active(next, canaryRelease)] && Active(next, canaryRelease) == Active(dps, canaryRelease)
  {
    var active := Active(dps, canaryRelease);
    assert forall n | n in next :: n in Elements(next);
    assert |next| > 0 by {
      assert active in Elements(next);
    }
    assert next[0] in next && next[|next| - 1] in next;
    assert |next| == 1;
    assert HasPrefix(active, ProxyName(canaryRelease));
  }

  /** The controller's cleanup for version `u`, whose phase is written, stops at the first error; a nil error means that
      none of the listed ones is left. */
  method CleanupDeployments(server: DeploymentServer, u: nat, w: nat, dps: seq<string>) returns (ok: bool)
    requires server.Valid() && u < |server.state.crs| && w < |server.state.deployments|
    requires server.state.crs[u].phase != NoTransition && Elements(dps) == server.state.deployments[w]
    modifies server
    ensures server.Continues()
    ensures old(server.Live()) - Elements(dps) <= server.Live() <= old(server.Live())
    ensures ok ==> server.Live() == old(server.Live()) - Elements(dps)
    ensures server.reliable ==> ok
  {
    hide After, Throughout, HasPrefix, Less, IsLeast;
    for i := 0 to |dps|
      invariant server.Continues() && server.Live() == old(server.Live()) - Elements(dps[..i])
    {
      PrefixNext(dps, i);
      assert Elements(dps[..i + 1]) == Elements(dps[..i]) + {dps[i]};
      assert Elements(dps[..i + 1]) <= Elements(dps);
      assert dps[i] in Elements(dps);
      ok := server.Delete(u, w, dps[i]);
      if !ok {
        return;
      }
    }
    assert dps[..|dps|] == dps;
    ok := true;
  }

  // ---------------------------------------------------------------- one round of the worker

  datatype Lookup = Gone | OtherVersion | Matching

  /** What the worker does with version `u` of the CanaryRelease, which its lister shows, and with the Deployments it
      lists at version `w`: clean up once the phase is written; otherwise delete the CanaryRelease if the release is
      gone, request deprecation if it is at another version, and keep one Deployment if it matches. */
  method SyncCanaryRelease(server: DeploymentServer, canaryRelease: string, u: nat, w: nat, dps: seq<string>,
                           release: Lookup)
    returns (ok: bool)
    requires server.Valid() && server.found.expected == ProxyName(canaryRelease) && u < |server.state.crs|
    requires w < |server.state.deployments|
    requires SortedNames(dps) && NoRepeats(dps) && Elements(dps) == server.state.deployments[w]
    modifies server
    ensures server.Continues()
    ensures var active := Active(dps, canaryRelease);
            if old(server.state.crs[u]).phase != NoTransition
            then && server.Live() <= old(server.Live()) && (ok ==> server.Live() == old(server.Live()) - Elements(dps))
            else if release == Matching
            then && old(server.Live()) - (Elements(dps) - {active}) <= server.Live() <= old(server.Live()) + {active}
                 && (ok && active !in dps ==> active in server.Live())
            else && server.Live() == old(server.Live())
                 && (ok && release == OtherVersion ==>
                       old(server.state.crs[u]).transition != NoTransition
                       || Last(server.state.crs).transition == Deprecated)
    ensures server.reliable && w == old(|server.state.deployments|) - 1 ==>
              && (old(server.state.crs[u]).phase != NoTransition ==> ok && server.Live() == {})
              && (old(server.state.crs[u]).phase == NoTransition && release == Matching ==>
                    ok && server.Live() == {Active(dps, canaryRelease)})
              && (old(server.state.crs[u]).phase == NoTransition && release == OtherVersion ==> ok)
    ensures server.careful && server.state.toProxy != {} ==>
              || NoneExpected(server.state.deployments, server.found.expected)
              || exists d :: d in server.Live() && HasPrefix(d, server.found.expected)
  {
    hide After, Throughout, HasPrefix, Less, IsLeast, SortedNames, FirstExpected, NoneExpected;
    if server.state.crs[u].phase != NoTransition {
      ok := CleanupDeployments(server, u, w, dps);
    } else if release == Gone {
      // the deletion of the CanaryRelease is not modelled
      ok := *;
    } else if release == OtherVersion {
      ok := server.Deprecate(u);
    } else {
      var active, clean;
      ok, active, clean := SyncDeployments(server, canaryRelease, u, w, dps);
    }
    if server.careful && server.state.toProxy != {} {
      TrafficHasDeployment(server);
    }
  }

  /** In every careful run that the controller takes part in, while an original selects the proxy there is an expected
      proxy Deployment, unless there never was one. */
  lemma TrafficHasDeployment(server: DeploymentServer)
    requires server.Valid() && server.careful && server.state.toProxy != {}
    ensures || NoneExpected(server.state.deployments, server.found.expected)
            || exists d :: d in server.Live() && HasPrefix(d, server.found.expected)
  {
    hide HasPrefix, Less, Enabled, Step, After, Throughout;
    CarefulRunsAreSafe(server.names, server.found, server.log);
    GuardedInvariant(server.names, server.found, server.log);
    ExpectedStays(server.names, server.found, server.log);
  }
}
