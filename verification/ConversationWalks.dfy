/** The trusted-device evidence walk over the stored conversations, page by page. */
module ConversationWalks {
  import opened Wrappers
  import opened Paging

  const MAX_TRUSTED_DEVICE_EVIDENCE: nat := 4096

  datatype Binding = Binding(device: nat, root: nat, repeatPairing: bool)
  datatype Channel = Channel(operator: nat, requester: nat)
  datatype Conversation = Conversation(members: seq<nat>, bindings: seq<Binding>, service: Option<Channel>)
  datatype Evidence = Evidence(conversation: nat, device: nat, root: nat, repeatPairing: bool)
  datatype Walk = Found(evidence: seq<Evidence>) | StateMismatch | CapacityExceeded

  type Store = map<nat, Conversation>

  // ------------------------------------------------------------------ what the walk must return

  predicate Wanted(device: nat, local: nat, targets: set<nat>) {
    device != local && device in targets
  }

  function FindBinding(bindings: seq<Binding>, device: nat): (r: Option<Binding>)
    ensures r.Some? ==> r.value in bindings && r.value.device == device
    ensures r.None? <==> forall b :: b in bindings ==> b.device != device
  {
    if bindings == [] then None
    else if bindings[0].device == device then Some(bindings[0])
    else FindBinding(bindings[1..], device)
  }

  predicate SupportsRepeatPairing(c: Conversation) {
    forall m :: m in c.members ==> exists b :: b in c.bindings && b.device == m && b.repeatPairing
  }

  /** The evidence one bound member yields. */
  function EvidenceFor(id: nat, c: Conversation, device: nat): Evidence {
    var b := FindBinding(c.bindings, device);
    Evidence(id, device, if b.Some? then b.value.root else 0, SupportsRepeatPairing(c))
  }

  /** Evidence from the first `n` members of one conversation, in member order. */
  function FromMembers(id: nat, c: Conversation, local: nat, targets: set<nat>, n: nat): (e: seq<Evidence>)
    requires n <= |c.members|
  {
    if n == 0 then []
    else
      var before := FromMembers(id, c, local, targets, n - 1);
      if Wanted(c.members[n - 1], local, targets) then before + [EvidenceFor(id, c, c.members[n - 1])] else before
  }

  function FromConversation(id: nat, c: Conversation, local: nat, targets: set<nat>): seq<Evidence> {
    if local in c.members then FromMembers(id, c, local, targets, |c.members|) else []
  }

  function FromAll(store: Store, ids: seq<nat>, local: nat, targets: set<nat>): seq<Evidence>
    requires forall i :: 0 <= i < |ids| ==> ids[i] in store
  {
    if ids == [] then []
    else
      var last := ids[|ids| - 1];
      FromAll(store, ids[..|ids| - 1], local, targets) + FromConversation(last, store[last], local, targets)
  }

  /** Every wanted member of a conversation that includes the local device has a binding. */
  ghost predicate Bound(c: Conversation, local: nat, targets: set<nat>) {
    local in c.members ==>
      forall m :: m in c.members && Wanted(m, local, targets) ==> FindBinding(c.bindings, m).Some?
  }

  // ------------------------------------------------------------------ the walk

  method SupportsRepeat(c: Conversation) returns (r: bool)
    ensures r == SupportsRepeatPairing(c)
  {
    for i := 0 to |c.members|
      invariant forall k :: 0 <= k < i ==> exists b :: b in c.bindings && b.device == c.members[k] && b.repeatPairing
    {
      var found := false;
      for j := 0 to |c.bindings|
        invariant found <==>
                    exists k :: 0 <= k < j && c.bindings[k].device == c.members[i] && c.bindings[k].repeatPairing
      {
        if c.bindings[j].device == c.members[i] && c.bindings[j].repeatPairing {
          found := true;
        }
      }
      if !found {
        assert c.members[i] in c.members;
        return false;
      }
    }
    r := true;
  }

  /** Appends one conversation's evidence, stopping at a missing binding or at capacity. */
  method ScanConversation(evidence: seq<Evidence>, id: nat, c: Conversation, local: nat, targets: set<nat>)
      returns (r: Walk)
    requires |evidence| <= MAX_TRUSTED_DEVICE_EVIDENCE
    ensures r.Found? ==>
              && r.evidence == evidence + FromConversation(id, c, local, targets)
              && |r.evidence| <= MAX_TRUSTED_DEVICE_EVIDENCE && Bound(c, local, targets)
    ensures r.StateMismatch? ==> !Bound(c, local, targets)
    ensures r.CapacityExceeded? ==> |evidence| + |FromConversation(id, c, local, targets)| > MAX_TRUSTED_DEVICE_EVIDENCE
  {
    if local !in c.members {
      return Found(evidence);
    }
    var repeat := SupportsRepeat(c);
    var result := evidence;
    for n := 0 to |c.members|
      invariant result == evidence + FromMembers(id, c, local, targets, n)
      invariant |result| <= MAX_TRUSTED_DEVICE_EVIDENCE
      invariant forall k :: 0 <= k < n && Wanted(c.members[k], local, targets) ==>
          FindBinding(c.bindings, c.members[k]).Some?
    {
      var device := c.members[n];
      if device != local && device in targets {
        var binding := FindBinding(c.bindings, device);
        if binding.None? {
          return StateMismatch;
        }
        if |result| == MAX_TRUSTED_DEVICE_EVIDENCE {
          FromMembersGrows(id, c, local, targets, n + 1, |c.members|);
          return CapacityExceeded;
        }
        result := result + [Evidence(id, device, binding.value.root, repeat)];
      }
    }
    r := Found(result);
  }

  lemma {:induction false} FromMembersGrows(id: nat, c: Conversation, local: nat, targets: set<nat>, n: nat, m: nat)
    requires n <= m <= |c.members|
    ensures |FromMembers(id, c, local, targets, n)| <= |FromMembers(id, c, local, targets, m)|
  {
    if n < m {
      FromMembersGrows(id, c, local, targets, n, m - 1);
    }
  }

  ghost predicate AllBound(store: Store, local: nat, targets: set<nat>) {
    forall id :: id in store ==> Bound(store[id], local, targets)
  }

  /** `evidence` is what the visited conversations yield, all of them bound. */
  ghost predicate Collected(store: Store, ids: seq<nat>, evidence: seq<Evidence>, local: nat, targets: set<nat>) {
    && (forall i :: 0 <= i < |ids| ==> ids[i] in store)
    && (forall i :: 0 <= i < |ids| ==> Bound(store[ids[i]], local, targets))
    && evidence == FromAll(store, ids, local, targets)
    && |evidence| <= MAX_TRUSTED_DEVICE_EVIDENCE
  }

  /** How a walk that visited `ids`, last of them `at`, may have ended. */
  ghost predicate Explains(r: Walk, store: Store, ids: seq<nat>, at: Option<nat>, local: nat, targets: set<nat>) {
    match r
    case Found(evidence) => Collected(store, ids, evidence, local, targets)
    case StateMismatch => !AllBound(store, local, targets)
    case CapacityExceeded =>
      && Visited(ids, store.Keys, at)
      && (forall i :: 0 <= i < |ids| ==> ids[i] in store)
      && |FromAll(store, ids, local, targets)| > MAX_TRUSTED_DEVICE_EVIDENCE
  }

  lemma CollectedExtends(store: Store, ids: seq<nat>, evidence: seq<Evidence>, local: nat, targets: set<nat>, id: nat)
    requires Collected(store, ids, evidence, local, targets) && id in store
    ensures forall i :: 0 <= i < |ids + [id]| ==> (ids + [id])[i] in store
    ensures FromAll(store, ids + [id], local, targets) == evidence + FromConversation(id, store[id], local, targets)
    ensures var more := evidence + FromConversation(id, store[id], local, targets);
            |more| <= MAX_TRUSTED_DEVICE_EVIDENCE && Bound(store[id], local, targets) ==>
              Collected(store, ids + [id], more, local, targets)
  {
  }

  /** One conversation of a page: the walk goes on, or ends with an explanation. */
  method ScanNext(store: Store, id: nat, evidence: seq<Evidence>, local: nat, targets: set<nat>, ghost ids: seq<nat>)
      returns (r: Walk)
    requires Collected(store, ids, evidence, local, targets) && id in store
    requires Visited(ids + [id], store.Keys, Some(id))
    ensures Explains(r, store, ids + [id], Some(id), local, targets)
  {
    CollectedExtends(store, ids, evidence, local, targets, id);
    r := ScanConversation(evidence, id, store[id], local, targets);
  }

  method ScanPage(
    store: Store, page: seq<nat>, collected: seq<Evidence>, local: nat, targets: set<nat>, ghost before: seq<nat>,
        ghost after: Option<nat>, ghost limit: nat)
    returns (r: Walk, ghost ids: seq<nat>, ghost at: Option<nat>)
    requires Visited(before, store.Keys, after) && IsPage(page, store.Keys, after, limit)
    requires Collected(store, before, collected, local, targets)
    ensures Explains(r, store, ids, at, local, targets)
    ensures r.Found? ==> ids == before + page
  {
    r, ids, at := Found(collected), before, after;
    for k := 0 to |page|
      invariant ids == before + page[..k]
      invariant r.Found? && Collected(store, ids, r.evidence, local, targets)
    {
      WalkInto(before, store.Keys, after, page, limit, k);
      r := ScanNext(store, page[k], r.evidence, local, targets, ids);
      ids, at := ids + [page[k]], Some(page[k]);
      if !r.Found? {
        return;
      }
    }
    assert page[..|page|] == page;
  }

  /** The walk. On success `ids` is the whole store in order; on a capacity error it is an
      initial part of the store that alone yields too much. */
  method WalkEvidence(store: Store, local: nat, targets: set<nat>, pageSize: nat)
    returns (r: Walk, ghost ids: seq<nat>, ghost at: Option<nat>)
    requires 1 <= pageSize
    ensures Explains(r, store, ids, at, local, targets)
    ensures r.Found? && targets != {} ==> Enumerates(ids, store.Keys)
    ensures targets == {} ==> r == Found([])
  {
    r, ids, at := Found([]), [], None;
    if targets == {} {
      return;
    }
    var after := None;
    while true
      invariant r.Found? && Visited(ids, store.Keys, after) && Collected(store, ids, r.evidence, local, targets)
      decreases Left(store.Keys, after)
    {
      var page := ReadPage(store.Keys, after, pageSize);
      WalkOn(ids, store.Keys, after, page, pageSize);
      if page == [] {
        assert ids + page == ids;
        return;
      }
      r, ids, at := ScanPage(store, page, r.evidence, local, targets, ids, after, pageSize);
      if !r.Found? || |page| < pageSize {
        return;
      }
      LeftShrinks(store.Keys, after, page, pageSize);
      after := Some(page[|page| - 1]);
    }
  }

  // ------------------------------------------------------------------ the comprehension it refines

  /** `e` is the evidence of a wanted member of a stored conversation that includes the local device. */
  ghost predicate Belongs(store: Store, e: Evidence, local: nat, targets: set<nat>) {
    && e.conversation in store
    && var c := store[e.conversation];
       && local in c.members && e.device in c.members && Wanted(e.device, local, targets)
       && e == EvidenceFor(e.conversation, c, e.device)
  }

  lemma {:induction false} FromMembersIs(id: nat, c: Conversation, local: nat, targets: set<nat>, n: nat, e: Evidence)
    requires n <= |c.members|
    ensures e in FromMembers(id, c, local, targets, n) <==>
              exists k :: 0 <= k < n && Wanted(c.members[k], local, targets) && e == EvidenceFor(id, c, c.members[k])
  {
    if n > 0 {
      FromMembersIs(id, c, local, targets, n - 1, e);
    }
  }

  lemma FromConversationIs(id: nat, c: Conversation, local: nat, targets: set<nat>, e: Evidence)
    ensures e in FromConversation(id, c, local, targets) <==>
              local in c.members && e.device in c.members && Wanted(e.device, local, targets)
                  && e == EvidenceFor(id, c, e.device)
  {
    FromMembersIs(id, c, local, targets, |c.members|, e);
  }

  lemma {:induction false} FromAllIs(store: Store, ids: seq<nat>, local: nat, targets: set<nat>, e: Evidence)
    requires forall i :: 0 <= i < |ids| ==> ids[i] in store
    ensures e in FromAll(store, ids, local, targets) <==> e.conversation in ids && Belongs(store, e, local, targets)
  {
    if ids != [] {
      var last := ids[|ids| - 1];
      FromAllIs(store, ids[..|ids| - 1], local, targets, e);
      FromConversationIs(last, store[last], local, targets, e);
      assert ids == ids[..|ids| - 1] + [last];
    }
  }

  ghost predicate DistinctMembers(c: Conversation) {
    forall i, j :: 0 <= i < j < |c.members| ==> c.members[i] != c.members[j]
  }

  /** No conversation lists a member twice. */
  ghost predicate Distinct(store: Store) {
    forall id :: id in store ==> DistinctMembers(store[id])
  }

  /** In conversation order, and no two entries for the same conversation and device. */
  ghost predicate OrderedOnce(e: seq<Evidence>) {
    forall i, j :: 0 <= i < j < |e| ==>
      e[i].conversation <= e[j].conversation && !(e[i].conversation == e[j].conversation && e[i].device == e[j].device)
  }

  lemma {:induction false} FromMembersOnce(id: nat, c: Conversation, local: nat, targets: set<nat>, n: nat)
    requires n <= |c.members| && DistinctMembers(c)
    ensures OrderedOnce(FromMembers(id, c, local, targets, n))
    ensures forall e :: e in FromMembers(id, c, local, targets, n) ==>
        e.conversation == id && e.device in c.members[..n]
  {
    if n > 0 {
      FromMembersOnce(id, c, local, targets, n - 1);
      assert c.members[..n] == c.members[..n - 1] + [c.members[n - 1]];
      var before := FromMembers(id, c, local, targets, n - 1);
      assert forall i :: 0 <= i < |before| ==> before[i] in before;
    }
  }

  lemma OnceJoin(a: seq<Evidence>, b: seq<Evidence>)
    requires OrderedOnce(a) && OrderedOnce(b)
    requires forall i, j :: 0 <= i < |a| && 0 <= j < |b| ==> a[i].conversation < b[j].conversation
    ensures OrderedOnce(a + b)
  {
  }

  lemma {:induction false} FromAllOnce(store: Store, ids: seq<nat>, local: nat, targets: set<nat>)
    requires Distinct(store) && Ascends(ids) && forall i :: 0 <= i < |ids| ==> ids[i] in store
    ensures OrderedOnce(FromAll(store, ids, local, targets))
  {
    if ids != [] {
      var last, shorter := ids[|ids| - 1], ids[..|ids| - 1];
      FromAllOnce(store, shorter, local, targets);
      FromMembersOnce(last, store[last], local, targets, |store[last].members|);
      var a, b := FromAll(store, shorter, local, targets), FromConversation(last, store[last], local, targets);
      forall i, j | 0 <= i < |a| && 0 <= j < |b| ensures a[i].conversation < b[j].conversation {
        FromAllIs(store, shorter, local, targets, a[i]);
        assert a[i] in a && b[j] in b;
      }
      OnceJoin(a, b);
    }
  }

  lemma {:induction false} FromAllGrows(store: Store, ids: seq<nat>, full: seq<nat>, local: nat, targets: set<nat>)
    requires ids <= full && forall i :: 0 <= i < |full| ==> full[i] in store
    ensures |FromAll(store, ids, local, targets)| <= |FromAll(store, full, local, targets)|
    decreases |full|
  {
    if ids != full {
      FromAllGrows(store, ids, full[..|full| - 1], local, targets);
    }
  }

  /** The walk refines a comprehension. A successful walk returns exactly the evidence that
      belongs, in conversation order and each once if members are distinct; it succeeds if and only if every wanted
      member is bound and at most 4096 pairs exist, and reports capacity only beyond that. */
  lemma EvidenceRefinesComprehension(
    r: Walk, store: Store, ids: seq<nat>, at: Option<nat>, full: seq<nat>, local: nat, targets: set<nat>)
    requires Explains(r, store, ids, at, local, targets) && (r.Found? ==> ids == full)
    requires Enumerates(full, store.Keys) && forall i :: 0 <= i < |full| ==> full[i] in store
    ensures r.Found? ==> forall e :: e in r.evidence <==> Belongs(store, e, local, targets)
    ensures r.Found? && Distinct(store) ==> OrderedOnce(r.evidence)
    ensures r.Found? <==>
              AllBound(store, local, targets) && |FromAll(store, full, local, targets)| <= MAX_TRUSTED_DEVICE_EVIDENCE
    ensures r.CapacityExceeded? ==> |FromAll(store, full, local, targets)| > MAX_TRUSTED_DEVICE_EVIDENCE
  {
    match r
    case Found(evidence) =>
      if Distinct(store) {
        FromAllOnce(store, full, local, targets);
      }
      forall e ensures e in evidence <==> Belongs(store, e, local, targets) {
        FromAllIs(store, full, local, targets, e);
      }
      forall id | id in store ensures Bound(store[id], local, targets) {
        assert id in full;
      }
    case StateMismatch =>
    case CapacityExceeded =>
      VisitedIsPrefix(ids, full, store.Keys, at);
      FromAllGrows(store, ids, full, local, targets);
  }

  lemma AllBelong(store: Store, full: seq<nat>, local: nat, targets: set<nat>)
    requires Enumerates(full, store.Keys) && forall i :: 0 <= i < |full| ==> full[i] in store
    ensures Distinct(store) ==> OrderedOnce(FromAll(store, full, local, targets))
    ensures forall e :: e in FromAll(store, full, local, targets) <==> Belongs(store, e, local, targets)
  {
    if Distinct(store) {
      FromAllOnce(store, full, local, targets);
    }
    forall e ensures e in FromAll(store, full, local, targets) <==> Belongs(store, e, local, targets) {
      FromAllIs(store, full, local, targets, e);
    }
  }

  lemma NobodyWanted(store: Store, full: seq<nat>, local: nat)
    requires forall i :: 0 <= i < |full| ==> full[i] in store
    ensures AllBound(store, local, {}) && FromAll(store, full, local, {}) == []
  {
    var all := FromAll(store, full, local, {});
    if all != [] {
      FromAllIs(store, full, local, {}, all[0]);
    }
  }

  /** Every listed identifier is stored. */
  lemma ListedIsStored(store: Store, full: seq<nat>)
    requires Enumerates(full, store.Keys)
    ensures forall i :: 0 <= i < |full| ==> full[i] in store
  {
  }

  /** The comprehension: the evidence that belongs, in conversation order. */
  ghost function Comprehension(store: Store, local: nat, targets: set<nat>): seq<Evidence> {
    ListedIsStored(store, Enumeration(store.Keys));
    FromAll(store, Enumeration(store.Keys), local, targets)
  }

  lemma ComprehensionIs(store: Store, local: nat, targets: set<nat>)
    ensures Distinct(store) ==> OrderedOnce(Comprehension(store, local, targets))
    ensures forall e :: e in Comprehension(store, local, targets) <==> Belongs(store, e, local, targets)
  {
    ListedIsStored(store, Enumeration(store.Keys));
    AllBelong(store, Enumeration(store.Keys), local, targets);
  }

  /** trusted_device_evidence, with the comprehension as its contract, whatever the page size. */
  method TrustedDeviceEvidence(store: Store, local: nat, targets: set<nat>, pageSize: nat) returns (r: Walk)
    requires 1 <= pageSize
    ensures r.Found? ==> r.evidence == Comprehension(store, local, targets)
    ensures r.Found? <==>
              AllBound(store, local, targets) && |Comprehension(store, local, targets)| <= MAX_TRUSTED_DEVICE_EVIDENCE
    ensures r.CapacityExceeded? ==> |Comprehension(store, local, targets)| > MAX_TRUSTED_DEVICE_EVIDENCE
  {
    var walked, ids, at := WalkEvidence(store, local, targets, pageSize);
    r := walked;
    ghost var full := Enumeration(store.Keys);
    ListedIsStored(store, full);
    if targets == {} {
      NobodyWanted(store, full, local);
    } else {
      if r.Found? {
        EnumerationIsUnique(ids, store.Keys);
      }
      EvidenceRefinesComprehension(r, store, ids, at, full, local, targets);
    }
  }
}
