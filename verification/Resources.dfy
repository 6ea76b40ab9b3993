/**
 * Container requirements, the namespace quota and the namespace limit range.
 * Quantities are integers: millicores for cpu, bytes for memory and storage.
 */
module Resources {
  import opened Common

  type ResourceList = map<string, int>

  datatype Requirements = Requirements(requests: ResourceList, limits: ResourceList)

  const CPU := "cpu"
  const MEMORY := "memory"
  const EPHEMERAL := "ephemeral-storage"
  const MI := 1024 * 1024

  const WORKSPACE_REQUESTS: ResourceList := map[CPU := 100, MEMORY := 256 * MI, EPHEMERAL := 256 * MI]
  const WORKSPACE_LIMITS: ResourceList := map[CPU := 2000, MEMORY := 2560 * MI, EPHEMERAL := 1024 * MI]
  const SERVICE_LIMITS: ResourceList := map[EPHEMERAL := 512 * MI]
  const LIMIT_RANGE_LIMITS: ResourceList := map[CPU := 1000, MEMORY := 2048 * MI, EPHEMERAL := 1024 * MI]
  const LIMIT_RANGE_REQUESTS: ResourceList := map[CPU := 100, MEMORY := 256 * MI, EPHEMERAL := 256 * MI]
  const GUARD := Requirements(
    map[CPU := 10, MEMORY := 32 * MI, EPHEMERAL := 16 * MI],
    map[CPU := 500, MEMORY := 192 * MI, EPHEMERAL := 64 * MI])

  // -------------------------------------------------------------- backfilled defaults

  /** The author's entries laid over the platform defaults. */
  function WorkspaceRequirements(author: Option<Requirements>): Requirements {
    match author
    case None => Requirements(WORKSPACE_REQUESTS, WORKSPACE_LIMITS)
    case Some(r) => Requirements(WORKSPACE_REQUESTS + r.requests, WORKSPACE_LIMITS + r.limits)
  }

  function ServiceRequirements(author: Requirements): Requirements {
    author.(limits := SERVICE_LIMITS + author.limits)
  }

  /** Entry by entry: the author's value where the author wrote one, the default under the
      three counted names otherwise, and nothing else. */
  predicate Backfilled(list: ResourceList, author: ResourceList, cpu: int, memory: int, ephemeral: int) {
    && (forall n :: n in author ==> n in list && list[n] == author[n])
    && (forall n :: n in list ==> n in author || n in {CPU, MEMORY, EPHEMERAL})
    && CPU in list && MEMORY in list && EPHEMERAL in list
    && (CPU !in author ==> list[CPU] == cpu)
    && (MEMORY !in author ==> list[MEMORY] == memory)
    && (EPHEMERAL !in author ==> list[EPHEMERAL] == ephemeral)
  }

  function Given(author: Option<Requirements>): Requirements {
    if author.None? then Requirements(map[], map[]) else author.value
  }

  /** The requirements of a desktop container. */
  predicate DesktopBlock(author: Option<Requirements>, r: Requirements) {
    && Backfilled(r.requests, Given(author).requests, 100, 256 * MI, 256 * MI)
    && Backfilled(r.limits, Given(author).limits, 2000, 2560 * MI, 1024 * MI)
  }

  /** The requirements of a challenge container: the author's, with a storage limit of 512Mi
      only where the author wrote none. */
  predicate ServiceBlock(author: Requirements, r: Requirements) {
    && r.requests == author.requests
    && (forall n :: n in author.limits ==> n in r.limits && r.limits[n] == author.limits[n])
    && (forall n :: n in r.limits ==> n in author.limits || n == EPHEMERAL)
    && EPHEMERAL in r.limits
    && (r.limits[EPHEMERAL] == 512 * MI
        <==> EPHEMERAL !in author.limits || author.limits[EPHEMERAL] == 512 * MI)
  }

  lemma DesktopBackfilled(author: Option<Requirements>)
    ensures DesktopBlock(author, WorkspaceRequirements(author))
  {
  }

  lemma ServiceBackfilled(author: Requirements)
    ensures ServiceBlock(author, ServiceRequirements(author))
  {
  }

  /** A resource list that callers share and mutate in place. */
  class QuantityMap {
    var items: ResourceList

    constructor (items: ResourceList)
      ensures this.items == items
    {
      this.items := items;
    }

    method Put(name: string, value: int)
      modifies this
      ensures items == old(items)[name := value]
    {
      items := items[name := value];
    }

    method SetDefault(name: string, def: int)
      modifies this
      ensures items == map[name := def] + old(items)
    {
      if name !in items {
        items := items[name := def];
      }
    }

    /** Copies every entry of `source`, overwriting entries of the same name. */
    method CopyFrom(source: QuantityMap)
      requires source != this
      modifies this
      ensures items == old(items) + source.items
    {
      var rest := source.items.Keys;
      while rest != {}
        invariant rest <= source.items.Keys
        invariant items == old(items) + (map k | k in source.items && k !in rest :: source.items[k])
        decreases rest
      {
        var k :| k in rest;
        items := items[k := source.items[k]];
        rest := rest - {k};
      }
      assert source.items == map k | k in source.items && k !in rest :: source.items[k];
    }
  }

  /** The author's two lists, either of which may be nil. */
  datatype AuthorLists = AuthorLists(requests: QuantityMap?, limits: QuantityMap?)

  function ItemsOf(list: QuantityMap?): ResourceList
    reads list
  {
    if list == null then map[] else list.items
  }

  function RequirementsOf(author: AuthorLists): Requirements
    reads author.requests, author.limits
  {
    Requirements(ItemsOf(author.requests), ItemsOf(author.limits))
  }

  /** Builds fresh lists; nothing reachable from the author is written. */
  method WorkspaceResources(author: Option<AuthorLists>) returns (requests: QuantityMap, limits: QuantityMap)
    ensures fresh(requests) && fresh(limits) && requests != limits
    ensures Requirements(requests.items, limits.items)
         == WorkspaceRequirements(if author.None? then None else Some(RequirementsOf(author.value)))
    ensures DesktopBlock(if author.None? then None else Some(RequirementsOf(author.value)),
                         Requirements(requests.items, limits.items))
  {
    requests := CopyOf(if author.Some? then author.value.requests else null);
    limits := CopyOf(if author.Some? then author.value.limits else null);
    assert author.Some? ==> RequirementsOf(author.value) == old(RequirementsOf(author.value));
    BackfillDefaults(requests, 100, 256 * MI, 256 * MI);
    BackfillDefaults(limits, 2000, 2560 * MI, 1024 * MI);
    ghost var given := if author.None? then Requirements(map[], map[]) else RequirementsOf(author.value);
    assert requests.items == WORKSPACE_REQUESTS + given.requests;
    assert limits.items == WORKSPACE_LIMITS + given.limits;
    assert author.None? ==> WORKSPACE_REQUESTS + given.requests == WORKSPACE_REQUESTS;
    assert author.None? ==> WORKSPACE_LIMITS + given.limits == WORKSPACE_LIMITS;
    DesktopBackfilled(if author.None? then None else Some(RequirementsOf(author.value)));
  }

  method CopyOf(list: QuantityMap?) returns (copy: QuantityMap)
    ensures fresh(copy) && copy.items == ItemsOf(list)
  {
    copy := new QuantityMap(map[]);
    if list != null {
      copy.CopyFrom(list);
    }
  }

  method BackfillDefaults(list: QuantityMap, cpu: int, memory: int, ephemeral: int)
    modifies list
    ensures list.items == map[CPU := cpu, MEMORY := memory, EPHEMERAL := ephemeral] + old(list.items)
  {
    list.SetDefault(CPU, cpu);
    list.SetDefault(MEMORY, memory);
    list.SetDefault(EPHEMERAL, ephemeral);
  }

  /** Copies the author's lists before adding the storage limit. */
  method ServiceResources(author: AuthorLists) returns (requests: QuantityMap?, limits: QuantityMap)
    ensures (requests == null) == (author.requests == null)
    ensures (requests != null ==> fresh(requests)) && fresh(limits)
    ensures Requirements(ItemsOf(requests), limits.items) == ServiceRequirements(RequirementsOf(author))
    ensures ServiceBlock(RequirementsOf(author), Requirements(ItemsOf(requests), limits.items))
  {
    requests := null;
    if author.requests != null {
      requests := new QuantityMap(author.requests.items);
    }
    if author.limits == null {
      limits := new QuantityMap(map[]);
    } else {
      limits := new QuantityMap(author.limits.items);
    }
    limits.SetDefault(EPHEMERAL, 512 * MI);
    ServiceBackfilled(RequirementsOf(author));
  }

  // ----------------------------------------------------------------- quota counters

  const REQUESTS_TAG := "requests."
  const LIMITS_TAG := "limits."

  function Tagged(tag: string, list: ResourceList): ResourceList {
    map s | s in (set k | k in list :: tag + k) :: list[s[|tag|..]]
  }

  function Untagged(tag: string, hard: ResourceList): ResourceList {
    map k | k in (set s | s in hard && HasPrefix(s, tag) :: s[|tag|..]) && tag + k in hard :: hard[tag + k]
  }

  function QuotaHard(resources: Requirements): ResourceList {
    Tagged(REQUESTS_TAG, resources.requests) + Tagged(LIMITS_TAG, resources.limits)
  }

  predicate Capped(resources: Requirements) {
    resources.requests != map[] || resources.limits != map[]
  }

  lemma TaggedEntry(tag: string, list: ResourceList, s: string)
    ensures s in Tagged(tag, list) <==> HasPrefix(s, tag) && s[|tag|..] in list
    ensures forall k :: k in list ==> tag + k in Tagged(tag, list) && Tagged(tag, list)[tag + k] == list[k]
  {
    forall k | k in list ensures (tag + k)[|tag|..] == k && HasPrefix(tag + k, tag) {}
    if HasPrefix(s, tag) {
      assert s == tag + s[|tag|..];
    }
  }

  lemma TagsDisjoint(resources: Requirements)
    ensures Tagged(REQUESTS_TAG, resources.requests).Keys !! Tagged(LIMITS_TAG, resources.limits).Keys
  {
    forall s | s in Tagged(REQUESTS_TAG, resources.requests)
      ensures s !in Tagged(LIMITS_TAG, resources.limits)
    {
      TaggedEntry(REQUESTS_TAG, resources.requests, s);
      TaggedEntry(LIMITS_TAG, resources.limits, s);
      assert s[0] == s[..9][0] == 'r';
      if HasPrefix(s, LIMITS_TAG) {
        assert s[0] == s[..7][0];
      }
    }
  }

  lemma HardEntry(resources: Requirements, s: string)
    ensures s in QuotaHard(resources) <==> (HasPrefix(s, REQUESTS_TAG) && s[9..] in resources.requests)
                                           || (HasPrefix(s, LIMITS_TAG) && s[7..] in resources.limits)
  {
    TaggedEntry(REQUESTS_TAG, resources.requests, s);
    TaggedEntry(LIMITS_TAG, resources.limits, s);
  }

  lemma RequestsReadBack(resources: Requirements)
    ensures Untagged(REQUESTS_TAG, QuotaHard(resources)) == resources.requests
  {
    var hard := QuotaHard(resources);
    TagsDisjoint(resources);
    forall k ensures k in Untagged(REQUESTS_TAG, hard) <==> k in resources.requests
             ensures k in resources.requests ==> hard[REQUESTS_TAG + k] == resources.requests[k]
    {
      UntaggedEntry(REQUESTS_TAG, hard, k);
      HardEntry(resources, REQUESTS_TAG + k);
      TaggedEntry(REQUESTS_TAG, resources.requests, REQUESTS_TAG + k);
      assert (REQUESTS_TAG + k)[0] == 'r';
      assert (REQUESTS_TAG + k)[9..] == k;
    }
  }

  lemma LimitsReadBack(resources: Requirements)
    ensures Untagged(LIMITS_TAG, QuotaHard(resources)) == resources.limits
  {
    var hard := QuotaHard(resources);
    forall k ensures k in Untagged(LIMITS_TAG, hard) <==> k in resources.limits
             ensures k in resources.limits ==> hard[LIMITS_TAG + k] == resources.limits[k]
    {
      UntaggedEntry(LIMITS_TAG, hard, k);
      HardEntry(resources, LIMITS_TAG + k);
      TaggedEntry(LIMITS_TAG, resources.limits, LIMITS_TAG + k);
      assert (LIMITS_TAG + k)[0] == 'l';
      assert (LIMITS_TAG + k)[7..] == k;
    }
  }

  /** The hard map is a tagged disjoint union: both author lists can be read back,
      nothing else is in it, and it is empty exactly when both lists are. */
  lemma QuotaHardRoundTrip(resources: Requirements)
    ensures Untagged(REQUESTS_TAG, QuotaHard(resources)) == resources.requests
    ensures Untagged(LIMITS_TAG, QuotaHard(resources)) == resources.limits
    ensures forall s :: s in QuotaHard(resources) ==> HasPrefix(s, REQUESTS_TAG) || HasPrefix(s, LIMITS_TAG)
    ensures QuotaHard(resources) == map[] <==> !Capped(resources)
  {
    RequestsReadBack(resources);
    LimitsReadBack(resources);
    forall s ensures s in QuotaHard(resources) ==> HasPrefix(s, REQUESTS_TAG) || HasPrefix(s, LIMITS_TAG) {
      HardEntry(resources, s);
    }
    if s :| s in QuotaHard(resources) {
      HardEntry(resources, s);
    }
  }

  lemma UntaggedEntry(tag: string, hard: ResourceList, k: string)
    ensures k in Untagged(tag, hard) <==> tag + k in hard
  {
    if tag + k in hard {
      assert HasPrefix(tag + k, tag) && (tag + k)[|tag|..] == k;
    }
  }

  /** The quota's counters, collected entry by entry. */
  method BuildHard(resources: Requirements) returns (hard: ResourceList)
    ensures hard == QuotaHard(resources)
  {
    hard := map[];
    hard := AddTagged(hard, REQUESTS_TAG, resources.requests);
    hard := AddTagged(hard, LIMITS_TAG, resources.limits);
    assert hard == map[] + Tagged(REQUESTS_TAG, resources.requests) + Tagged(LIMITS_TAG, resources.limits);
  }

  method AddTagged(start: ResourceList, tag: string, list: ResourceList) returns (hard: ResourceList)
    ensures hard == start + Tagged(tag, list)
  {
    hard := start;
    var rest := list.Keys;
    ghost var done: ResourceList := map[];
    assert Tagged(tag, done) == map[];
    while rest != {}
      invariant rest <= list.Keys
      invariant done.Keys == list.Keys - rest
      invariant forall k :: k in done ==> done[k] == list[k]
      invariant hard == start + Tagged(tag, done)
      decreases rest
    {
      var name :| name in rest;
      AddTaggedStep(start, tag, done, name, list[name]);
      hard := hard[tag + name := list[name]];
      rest := rest - {name};
      done := done[name := list[name]];
    }
    assert done == list;
  }

  lemma AddTaggedStep(start: ResourceList, tag: string, list: ResourceList, name: string, value: int)
    ensures start + Tagged(tag, list[name := value]) == (start + Tagged(tag, list))[tag + name := value]
  {
    TaggedInsert(tag, list, name, value);
  }

  lemma TaggedInsert(tag: string, list: ResourceList, name: string, value: int)
    ensures Tagged(tag, list[name := value]) == Tagged(tag, list)[tag + name := value]
  {
    var a, b := Tagged(tag, list[name := value]), Tagged(tag, list)[tag + name := value];
    assert (tag + name)[|tag|..] == name && HasPrefix(tag + name, tag);
    forall s ensures s in a <==> s in b
             ensures s in a ==> a[s] == b[s]
    {
      TaggedEntry(tag, list[name := value], s);
      if s != tag + name {
        TaggedEntry(tag, list, s);
        if HasPrefix(s, tag) {
          assert s == tag + s[|tag|..];
        }
      }
    }
  }

  // --------------------------------------------------- what the API server makes of it

  /** The server copies a limit into a missing request before admission. */
  function ServerDefaults(r: Requirements): Requirements {
    r.(requests := r.limits + r.requests)
  }

  /** Admission under a namespace limit range fills what is still missing. */
  function LimitRangeDefaults(defaults: Requirements, r: Requirements): Requirements {
    Requirements(defaults.requests + r.requests, defaults.limits + r.limits)
  }

  function Effective(defaults: Requirements, r: Requirements): Requirements {
    LimitRangeDefaults(defaults, ServerDefaults(r))
  }

  const CONTAINER_DEFAULTS := Requirements(LIMIT_RANGE_REQUESTS, LIMIT_RANGE_LIMITS)

  /** No request exceeds the limit of the same name; the server rejects anything else. */
  predicate Fits(r: Requirements) {
    forall n :: n in r.requests && n in r.limits ==> r.requests[n] <= r.limits[n]
  }

  /** The counters a quota on cpu, memory and ephemeral storage insists on. */
  predicate Declares(r: Requirements) {
    forall n :: n in {CPU, MEMORY, EPHEMERAL} ==> n in r.requests && n in r.limits
  }

  /** Desktop and guard declare all counters whatever the author wrote, and under the limit
      range of a capped session so does any container at all. */
  lemma EveryContainerDeclares(workspace: Option<Requirements>, any: Requirements)
    ensures Declares(WorkspaceRequirements(workspace))
    ensures Declares(GUARD) && Fits(GUARD)
    ensures Declares(Effective(CONTAINER_DEFAULTS, any))
  {
  }

  /** What the author gives for one counted name suits the default the other list gets. */
  predicate EntryWithin(given: Requirements, name: string, request: int, limit: int) {
    && (name in given.requests && name !in given.limits ==> given.requests[name] <= limit)
    && (name in given.limits && name !in given.requests ==> request <= given.limits[name])
  }

  predicate AuthorWithin(given: Requirements) {
    forall n :: n in given.requests && n in given.limits ==> given.requests[n] <= given.limits[n]
  }

  /** The author lists, by themselves, that suit a desktop container. */
  predicate DesktopWithin(given: Requirements) {
    && AuthorWithin(given)
    && EntryWithin(given, CPU, 100, 2000)
    && EntryWithin(given, MEMORY, 256 * MI, 2560 * MI)
    && EntryWithin(given, EPHEMERAL, 256 * MI, 1024 * MI)
  }

  /** And those that suit a challenge container of a capped session. */
  predicate ServiceWithin(given: Requirements) {
    && AuthorWithin(given)
    && (CPU in given.requests && CPU !in given.limits ==> given.requests[CPU] <= 1000)
    && (MEMORY in given.requests && MEMORY !in given.limits ==> given.requests[MEMORY] <= 2048 * MI)
    && (EPHEMERAL in given.requests && EPHEMERAL !in given.limits ==> given.requests[EPHEMERAL] <= 512 * MI)
  }

  /** Exactly which author lists give a desktop container the server accepts, with or without
      the limit range. */
  lemma WorkspaceFits(author: Option<Requirements>, r: Requirements)
    requires DesktopBlock(author, r)
    ensures Fits(r) <==> DesktopWithin(Given(author))
    ensures Fits(Effective(CONTAINER_DEFAULTS, r)) <==> DesktopWithin(Given(author))
  {
    var e := Effective(CONTAINER_DEFAULTS, r);
    assert e.limits == r.limits && forall n :: n in r.requests ==> n in e.requests && e.requests[n] == r.requests[n];
    assert forall n :: n in e.requests && n !in r.requests ==> n in r.limits && e.requests[n] == r.limits[n];
    DesktopFits(author, r);
  }

  lemma DesktopFits(author: Option<Requirements>, r: Requirements)
    requires DesktopBlock(author, r)
    ensures Fits(r) <==> DesktopWithin(Given(author))
  {
    var given := Given(author);
    if Fits(r) {
      forall n | n in given.requests && n in given.limits ensures given.requests[n] <= given.limits[n] {
        assert n in r.requests && n in r.limits;
      }
    }
    if DesktopWithin(given) {
      forall n | n in r.requests && n in r.limits ensures r.requests[n] <= r.limits[n] {
        if n !in given.requests || n !in given.limits {
          assert n in {CPU, MEMORY, EPHEMERAL};
        }
      }
    }
  }

  /** A memory limit below the default request makes the desktop pod invalid. */
  lemma SmallLimitRejected()
    ensures !Fits(WorkspaceRequirements(Some(Requirements(map[], map[MEMORY := 128 * MI]))))
  {
    var r := WorkspaceRequirements(Some(Requirements(map[], map[MEMORY := 128 * MI])));
    assert MEMORY in r.requests && MEMORY in r.limits && r.requests[MEMORY] == 256 * MI;
  }

  lemma ServiceTight(author: Requirements, r: Requirements)
    requires ServiceBlock(author, r) && Fits(Effective(CONTAINER_DEFAULTS, r))
    ensures ServiceWithin(author)
  {
    var e := Effective(CONTAINER_DEFAULTS, r);
    forall n ensures n in author.requests ==> n in e.requests && e.requests[n] == author.requests[n] {}
    forall n | n in author.requests && n in author.limits ensures author.requests[n] <= author.limits[n] {
      assert n in e.limits && e.limits[n] == author.limits[n];
    }
  }

  lemma ServiceRoomy(author: Requirements, r: Requirements)
    requires ServiceBlock(author, r) && ServiceWithin(author)
    ensures Fits(Effective(CONTAINER_DEFAULTS, r))
  {
    var e := Effective(CONTAINER_DEFAULTS, r);
    forall n | n in e.requests && n in e.limits ensures e.requests[n] <= e.limits[n] {
      if n !in author.limits && (n in author.requests || n !in r.limits) {
        assert n in {CPU, MEMORY, EPHEMERAL};
      }
    }
  }

  /** A challenge container of a capped session is accepted exactly when every author
      request stays within the limit that ends up in force for it. */
  lemma ServiceFits(author: Requirements, r: Requirements)
    requires ServiceBlock(author, r)
    ensures Fits(Effective(CONTAINER_DEFAULTS, r)) <==> ServiceWithin(author)
  {
    if Fits(Effective(CONTAINER_DEFAULTS, r)) {
      ServiceTight(author, r);
    }
    if ServiceWithin(author) {
      ServiceRoomy(author, r);
    }
  }
}
