/** UpdateCRWithRetries: a compare-and-swap loop shared by the controller and the proxy, on an object that both and
    the user also change by unconditional merge patches (RFC 7396, section 2). */
module OptimisticUpdate {
  import opened Kube
  import opened Protocol

  datatype Condition = Condition(reason: string, message: string)

  datatype PodPhase = PodNormal | PodTransition | PodError

  datatype PodStatus = PodStatus(ready: bool, phase: PodPhase, reason: string)

  datatype ProxyStatus = ProxyStatus(deployment: string, pods: seq<PodStatus>)

  /** The fields of a CanaryRelease that anybody writes. */
  datatype Object = Object(transition: Transition, manifest: Option<string>, phase: Transition,
                           conditions: seq<Condition>, proxy: ProxyStatus)

  // ---------------------------------------------------------------- writes

  datatype Patch =
    | SetManifest(manifest: string)
    | SetPhase(phase: Transition)          // also removes the manifest
    | SetTransition(transition: Transition)

  function ApplyPatch(p: Patch, o: Object): Object {
    match p
    case SetManifest(m) => o.(manifest := Some(m))
    case SetPhase(x) => o.(manifest := None, phase := x)
    case SetTransition(t) => o.(transition := t)
  }

  /** The functions that are run through the retry loop. */
  datatype Update =
    | AddCondition(condition: Condition)
    | SetProxy(status: ProxyStatus)

  const REASON_ERROR := "Error"

  /** The condition that a proxy status adds: the reason of its first failing pod. */
  function ErrorCondition(pods: seq<PodStatus>): seq<Condition> {
    if pods == [] then []
    else if pods[0].phase == PodError then [Condition(REASON_ERROR, "proxy error: " + pods[0].reason)]
    else ErrorCondition(pods[1..])
  }

  function Added(u: Update): seq<Condition> {
    match u
    case AddCondition(c) => [c]
    case SetProxy(status) => ErrorCondition(status.pods)
  }

  function ApplyUpdate(u: Update, o: Object): Object {
    match u
    case AddCondition(c) => o.(conditions := o.conditions + [c])
    case SetProxy(status) => o.(proxy := status, conditions := o.conditions + ErrorCondition(status.pods))
  }

  /** The first failing pod is the one that is told of. */
  lemma {:induction false} ErrorConditionExactly(pods: seq<PodStatus>, k: nat)
    requires k <= |pods| && (k < |pods| ==> pods[k].phase == PodError)
    requires forall j | 0 <= j < k :: pods[j].phase != PodError
    ensures ErrorCondition(pods)
         == if k < |pods| then [Condition("Error", "proxy error: " + pods[k].reason)] else []
  {
    if k > 0 {
      ErrorConditionExactly(pods[1..], k - 1);
    }
  }

  /** The update closures: a condition is appended; or the proxy status is set, and a condition with the reason of its
      first failing pod is appended. */
  method RunUpdate(u: Update, o: Object) returns (r: Object)
    ensures r == ApplyUpdate(u, o)
    ensures r == o.(proxy := r.proxy, conditions := r.conditions) && o.conditions <= r.conditions
    ensures u.AddCondition? ==> r.proxy == o.proxy && r.conditions == o.conditions + [u.condition]
    ensures u.SetProxy? ==> r.proxy == u.status
    ensures u.SetProxy? ==>
              forall k | 0 <= k < |u.status.pods| && u.status.pods[k].phase == PodError
                         && (forall j | 0 <= j < k :: u.status.pods[j].phase != PodError) ::
                r.conditions == o.conditions + [Condition("Error", "proxy error: " + u.status.pods[k].reason)]
    ensures u.SetProxy? && (forall k | 0 <= k < |u.status.pods| :: u.status.pods[k].phase != PodError) ==>
              r.conditions == o.conditions
  {
    r := o;
    match u
    case AddCondition(c) =>
      r := r.(conditions := r.conditions + [c]);
    case SetProxy(status) =>
      r := r.(proxy := status);
      var statusErr, reason := false, "";
      var i := 0;
      while i < |status.pods| && !statusErr
        invariant 0 <= i <= |status.pods|
        invariant forall j | 0 <= j < i && !(statusErr && j == i - 1) :: status.pods[j].phase != PodError
        invariant statusErr ==> i > 0 && status.pods[i - 1].phase == PodError && reason == status.pods[i - 1].reason
        invariant ErrorCondition(status.pods)
               == if statusErr then [Condition(REASON_ERROR, "proxy error: " + reason)]
               else ErrorCondition(status.pods[i..])
      {
        assert status.pods[i..][1..] == status.pods[i + 1..];
        if status.pods[i].phase == PodError {
          statusErr, reason := true, status.pods[i].reason;
        }
        i := i + 1;
      }
      if statusErr {
        r := r.(conditions := r.conditions + [Condition(REASON_ERROR, "proxy error: " + reason)]);
      }
  }

  // ---------------------------------------------------------------- histories

  /** A write that took effect: a patch, or the full object that the call `author` computed from version `base`. */
  datatype Write = Patched(patch: Patch) | Updated(base: nat, update: Update, author: nat)

  /** Version i+1 is what write i made: a patch of version i, or the update of the version its author had read. */
  predicate Recorded(versions: seq<Object>, writes: seq<Write>) {
    && |versions| == |writes| + 1
    && forall i | 0 <= i < |writes| ::
         match writes[i]
         case Patched(p) => versions[i + 1] == ApplyPatch(p, versions[i])
         case Updated(base, u, _) => base < |versions| && versions[i + 1] == ApplyUpdate(u, versions[base])
  }

  /** The server accepted full objects only from authors that had read the version before. */
  predicate UpToDate(writes: seq<Write>) {
    forall i | 0 <= i < |writes| && writes[i].Updated? :: writes[i].base == i
  }

  function AllAdded(writes: seq<Write>): seq<Condition> {
    if writes == [] then []
    else
      var w := writes[|writes| - 1];
      AllAdded(writes[..|writes| - 1]) + if w.Updated? then Added(w.update) else []
  }

  /** The object with the patches alone applied, in order. */
  function PatchedOnly(o: Object, writes: seq<Write>): Object {
    if writes == [] then o
    else
      var before, w := PatchedOnly(o, writes[..|writes| - 1]), writes[|writes| - 1];
      if w.Patched? then ApplyPatch(w.patch, before) else before
  }

  predicate PrefixOf(a: seq<Condition>, b: seq<Condition>) {
    |a| <= |b| && b[..|a|] == a
  }

  function Written(o: Object, w: Write): Object {
    match w
    case Patched(p) => ApplyPatch(p, o)
    case Updated(_, u, _) => ApplyUpdate(u, o)
  }

  lemma LastWrite(versions: seq<Object>, writes: seq<Write>)
    requires Recorded(versions, writes) && UpToDate(writes) && writes != []
    ensures var n := |writes| - 1;
            && versions[n + 1] == Written(versions[n], writes[n])
            && Recorded(versions[..n + 1], writes[..n]) && UpToDate(writes[..n])
  {
  }

  lemma WrittenMeans(o: Object, w: Write)
    ensures Written(o, w).conditions == o.conditions + if w.Updated? then Added(w.update) else []
    ensures w.Updated? ==>
              Written(o, w).manifest == o.manifest && Written(o, w).phase == o.phase
              && Written(o, w).transition == o.transition
  {
  }

  /** No lost updates: the conditions are those of the first version followed by every condition any accepted update
      added, in order; and manifest, phase and transition are what the accepted patches alone would have made them. */
  lemma {:induction false} NoLostUpdates(versions: seq<Object>, writes: seq<Write>)
    requires Recorded(versions, writes) && UpToDate(writes)
    ensures var last, patched := versions[|writes|], PatchedOnly(versions[0], writes);
            && last.conditions == versions[0].conditions + AllAdded(writes)
            && last.manifest == patched.manifest && last.phase == patched.phase && last.transition == patched.transition
  {
    hide Recorded, UpToDate, Added, ApplyUpdate;
    VersionCount(versions, writes);
    if writes != [] {
      var n := |writes| - 1;
      LastWrite(versions, writes);
      WrittenMeans(versions[n], writes[n]);
      NoLostUpdates(versions[..n + 1], writes[..n]);
      assert versions[..n + 1][n] == versions[n] && versions[..n + 1][0] == versions[0];
    }
  }

  predicate SetsPhase(w: Write) {
    w.Patched? && w.patch.SetPhase?
  }

  predicate SetsTransition(w: Write) {
    w.Patched? && w.patch.SetTransition?
  }

  predicate SetsManifest(w: Write) {
    w.Patched? && (w.patch.SetManifest? || w.patch.SetPhase?)
  }

  predicate SetsProxy(w: Write) {
    w.Updated? && w.update.SetProxy?
  }

  /** No write of the kind comes after write `i`. */
  ghost predicate LastOf(writes: seq<Write>, i: nat, kind: Write -> bool)
    requires i <= |writes|
  {
    forall j | i <= j < |writes| :: !kind(writes[j])
  }

  lemma LastOfNext(writes: seq<Write>, kind: Write -> bool)
    requires writes != []
    ensures var n := |writes| - 1;
            forall i | 0 <= i <= n :: LastOf(writes, i, kind) <==> LastOf(writes[..n], i, kind) && !kind(writes[n])
  {
  }

  /** Over every history, whoever wrote in between: phase, transition and proxy status are what was set last; so is the
      manifest, which setting the phase removes; and what was never set is as at first. */
  lemma {:induction false} FieldsAreSetLast(versions: seq<Object>, writes: seq<Write>, i: nat)
    requires Recorded(versions, writes) && UpToDate(writes) && i <= |writes|
    ensures var last, first := versions[|writes|], versions[0];
            && (LastOf(writes, i, SetsPhase) ==>
                  if i == 0 then last.phase == first.phase
                  else SetsPhase(writes[i - 1]) ==> last.phase == writes[i - 1].patch.phase)
            && (LastOf(writes, i, SetsTransition) ==>
                  if i == 0 then last.transition == first.transition
                  else SetsTransition(writes[i - 1]) ==> last.transition == writes[i - 1].patch.transition)
            && (LastOf(writes, i, SetsProxy) ==>
                  if i == 0 then last.proxy == first.proxy
                  else SetsProxy(writes[i - 1]) ==> last.proxy == writes[i - 1].update.status)
            && (LastOf(writes, i, SetsManifest) ==>
                  if i == 0 then last.manifest == first.manifest
                  else SetsManifest(writes[i - 1]) ==>
                         last.manifest == match writes[i - 1].patch
                                          case SetManifest(m) => Some(m)
                                          case _ => None)
    decreases |writes|
  {
    hide Recorded, UpToDate, ErrorCondition, LastOf;
    VersionCount(versions, writes);
    if i < |writes| {
      var n := |writes| - 1;
      LastWrite(versions, writes);
      FieldsAreSetLast(versions[..n + 1], writes[..n], i);
      LastOfNext(writes, SetsPhase);
      LastOfNext(writes, SetsTransition);
      LastOfNext(writes, SetsProxy);
      LastOfNext(writes, SetsManifest);
      assert versions[..n + 1][n] == versions[n] && versions[..n + 1][0] == versions[0];
    } else if i > 0 {
      LastWrite(versions, writes);
    }
  }

  lemma VersionCount(versions: seq<Object>, writes: seq<Write>)
    requires Recorded(versions, writes)
    ensures |versions| == |writes| + 1
  {
  }

  /** Every condition list is a prefix of every later one. */
  lemma {:induction false} ConditionsOnlyGrow(versions: seq<Object>, writes: seq<Write>, i: nat, j: nat)
    requires Recorded(versions, writes) && UpToDate(writes) && i <= j <= |writes|
    ensures PrefixOf(versions[i].conditions, versions[j].conditions)
    decreases j
  {
    if i < j {
      ConditionsOnlyGrow(versions, writes, i, j - 1);
      assert match writes[j - 1]
             case Patched(p) => versions[j] == ApplyPatch(p, versions[j - 1])
             case Updated(_, u, _) => versions[j] == ApplyUpdate(u, versions[j - 1]);
    }
  }

  /** The guard is needed: a server that took a full object from an older version would undo every patch since, unless
      the patch had changed nothing. */
  lemma UnguardedLosesPatch(o: Object, p: Patch, u: Update, author: nat)
    ensures Recorded([o, ApplyPatch(p, o), ApplyUpdate(u, o)], [Patched(p), Updated(0, u, author)])
    ensures var last, patched := ApplyUpdate(u, o), PatchedOnly(o, [Patched(p), Updated(0, u, author)]);
            last.manifest == patched.manifest && last.phase == patched.phase && last.transition == patched.transition
            <==> ApplyPatch(p, o) == o
  {
    var writes := [Patched(p), Updated(0, u, author)];
    assert writes[..1] == [Patched(p)] && writes[..1][..0] == [];
    assert PatchedOnly(o, writes[..1]) == ApplyPatch(p, PatchedOnly(o, []));
    assert PatchedOnly(o, writes) == PatchedOnly(o, writes[..1]);
  }

  // ---------------------------------------------------------------- the server

  /** How many of the writes are full updates by `me`. */
  function CountBy(writes: seq<Write>, me: nat): nat {
    if writes == [] then 0
    else
      var w := writes[|writes| - 1];
      CountBy(writes[..|writes| - 1], me) + if w.Updated? && w.author == me then 1 else 0
  }

  lemma CountNext(writes: seq<Write>, w: Write, me: nat)
    ensures CountBy(writes + [w], me) == CountBy(writes, me) + if w.Updated? && w.author == me then 1 else 0
  {
  }

  datatype UpdateResult = Accepted | Conflict | OtherError

  /** A version number is the position in the history. */
  class Server {
    const reliable: bool
    var versions: seq<Object>
    ghost var writes: seq<Write>

    constructor (first: Object, reliable: bool)
      ensures Valid() && versions == [first] && writes == [] && this.reliable == reliable
    {
      this.reliable := reliable;
      versions, writes := [first], [];
    }

    ghost predicate Valid()
      reads this
    {
      versions != [] && Recorded(versions, writes) && UpToDate(writes)
    }

    twostate predicate Continues()
      reads this
    {
      Valid() && old(versions) <= versions && old(writes) <= writes
    }

    /** One more version, based on the newest. */
    method Store(next: Object, ghost w: Write, ghost me: nat)
      requires Valid() && next == Written(versions[|versions| - 1], w) && (w.Updated? ==> w.base == |versions| - 1)
      modifies this
      ensures Continues() && versions == old(versions) + [next] && writes == old(writes) + [w]
      ensures |versions| == |writes| + 1 >= 2
      ensures CountBy(writes, me) == old(CountBy(writes, me)) + if w.Updated? && w.author == me then 1 else 0
    {
      hide CountBy;
      CountNext(writes, w, me);
      versions, writes := versions + [next], writes + [w];
    }

    /** Everybody else: the other process, the user, and other calls of this process. */
    method Interfere(ghost me: nat)
      requires Valid()
      modifies this
      ensures Continues() && CountBy(writes, me) == old(CountBy(writes, me))
    {
      hide CountBy, Recorded, UpToDate;
      var rounds: nat := *;
      while rounds > 0
        invariant Continues() && CountBy(writes, me) == old(CountBy(writes, me))
      {
        var last := Newest();
        var patch: Patch := *;
        var update: Update := *;
        ghost var author: nat := *;
        if * {
          Store(ApplyPatch(patch, last), Patched(patch), me);
        } else {
          if author == me {
            author := me + 1;
          }
          Store(ApplyUpdate(update, last), Updated(|versions| - 1, update, author), me);
        }
        rounds := rounds - 1;
      }
    }

    function Newest(): Object
      requires versions != []
      reads this
    {
      versions[|versions| - 1]
    }

    /** A full update, refused as a conflict unless it is based on the newest version.  An accepted one may still
        report another error. */
    method SendUpdate(base: nat, sent: Object, ghost update: Update, ghost me: nat) returns (r: UpdateResult)
      requires Valid() && base < |versions| && sent == ApplyUpdate(update, versions[base])
      modifies this
      ensures Continues()
      ensures r == Accepted ==> CountBy(writes, me) == old(CountBy(writes, me)) + 1 && LastWriteIs(update, me)
      ensures r == Conflict ==> CountBy(writes, me) == old(CountBy(writes, me))
      ensures r == OtherError ==> old(CountBy(writes, me)) <= CountBy(writes, me) <= old(CountBy(writes, me)) + 1
      ensures reliable ==> r != OtherError
      ensures r == Conflict ==> base < |versions| - 1
    {
      hide CountBy, Recorded, UpToDate, ApplyUpdate;
      Interfere(me);
      if base != |versions| - 1 {
        return Conflict;
      }
      var effective: bool, reported: bool := *, *;
      r := OtherError;
      if effective || reliable {
        Store(sent, Updated(base, update, me), me);
        r := if reported || reliable then Accepted else OtherError;
      }
    }

    /** The newest version is what the call `me` made of the one before. */
    ghost predicate LastWriteIs(update: Update, me: nat)
      reads this
    {
      |writes| >= 1 && writes[|writes| - 1] == Updated(|writes| - 1, update, me)
    }

    /** A merge patch, which never conflicts. */
    method SendPatch(p: Patch) returns (ok: bool)
      requires Valid()
      modifies this
      ensures Continues()
      ensures ok ==> |versions| >= 2 && Newest() == ApplyPatch(p, versions[|versions| - 2])
    {
      hide CountBy, Recorded, UpToDate;
      Interfere(0);
      var effective: bool := *;
      ok := false;
      if effective {
        Store(ApplyPatch(p, Newest()), Patched(p), 0);
        ok := *;
      }
    }
  }

  // ---------------------------------------------------------------- the client

  const STEPS := 5

  /** The lister returns any version there has been, or fails. */
  method ReadLister(server: Server) returns (version: Option<nat>)
    requires server.Valid()
    ensures version.Some? ==> version.value < |server.versions|
    ensures server.reliable ==> version.Some?
  {
    var v: nat := *;
    version := if v < |server.versions| then Some(v) else if server.reliable then Some(0) else None;
  }

  /** Up to five attempts; only a conflict is retried.  A nil error means exactly one accepted update by this call, the
      last write of the history at that moment; an error means at most one.  If nothing but conflicts goes wrong, it
      gives up after the fifth. */
  method UpdateWithRetries(server: Server, update: Update, ghost me: nat) returns (ok: bool, ghost attempts: nat)
    requires server.Valid() && CountBy(server.writes, me) == 0
    modifies server
    ensures server.Continues() && CountBy(server.writes, me) <= 1
    ensures ok ==> CountBy(server.writes, me) == 1 && server.LastWriteIs(update, me)
    ensures attempts <= 5 && (server.reliable ==> ok || attempts == 5)
  {
    ok, attempts := false, 0;
    var step := 0;
    while step < STEPS && !ok
      invariant server.Continues() && CountBy(server.writes, me) == if ok then 1 else 0
      invariant ok ==> server.LastWriteIs(update, me)
      invariant attempts == step <= STEPS
    {
      var version := ReadLister(server);
      if version.None? {
        return false, attempts;
      }
      var cr := RunUpdate(update, server.versions[version.value]);
      var result := server.SendUpdate(version.value, cr, update, me);
      attempts := attempts + 1;
      if result == OtherError {
        return false, attempts;
      }
      ok := result == Accepted;
      step := step + 1;
    }
  }

  /** addCondition of either process: a nil error means that the condition, and nothing else, was appended to the
      conditions there were. */
  method AddConditionTo(server: Server, condition: Condition, ghost me: nat) returns (ok: bool)
    requires server.Valid() && CountBy(server.writes, me) == 0
    modifies server
    ensures server.Continues() && CountBy(server.writes, me) <= 1
    ensures ok ==>
              var n := |server.versions| - 1;
              && CountBy(server.writes, me) == 1 && n >= 1
              && server.versions[n]
                   == server.versions[n - 1].(conditions := server.versions[n - 1].conditions + [condition])
              && PrefixOf(old(server.versions)[old(|server.versions|) - 1].conditions,
                          server.versions[n - 1].conditions)
  {
    ghost var before := server.versions;
    ghost var attempts;
    ok, attempts := UpdateWithRetries(server, AddCondition(condition), me);
    if ok {
      ghost var n := |server.writes| - 1;
      Lasting(before, old(server.writes), server.versions, server.writes, me);
      ConditionsOnlyGrow(server.versions, server.writes, |before| - 1, n);
    }
  }

  /** A write of `me` that was not there before is a later write. */
  lemma Lasting(before: seq<Object>, earlier: seq<Write>, versions: seq<Object>, writes: seq<Write>, me: nat)
    requires |before| == |earlier| + 1 && before <= versions && earlier <= writes && |versions| == |writes| + 1
    requires CountBy(earlier, me) == 0 && CountBy(writes, me) == 1
    ensures |before| < |versions| && versions[|before| - 1] == before[|before| - 1]
  {
    assert |writes| == |earlier| ==> writes == earlier;
  }
}
