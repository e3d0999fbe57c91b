/** The single-instance-storage rehydrator: a validating cache in front of plain concatenation. */
module Rehydration {
  import opened Prelude
  import opened Records

  type Digest = Bytes -> string

  // ----- what the service is for: concatenating individually valid parts -----

  predicate ValidPart(sha256: Digest, part: ContentPart) {
    && part.partId != ""
    && part.dataRef != ""
    && part.sizeBytes >= 0
    && |part.data| == part.sizeBytes
    && sha256(part.data) == part.sha256
  }

  function Concatenated(parts: seq<ContentPart>): Bytes {
    if parts == [] then [] else Concatenated(parts[..|parts| - 1]) + parts[|parts| - 1].data
  }

  /** An item's content without any cache. */
  function Content(item: MailItem): Bytes {
    if item.contentParts == [] then item.body else Concatenated(item.contentParts)
  }

  // ----- the service as a function of its state -----

  type Cache = map<string, ContentPart>

  datatype Service = Service(
    cache: Cache,
    rehydratedItems: nat,
    failures: nat,
    rehydratedBytes: nat,
    hits: nat,
    misses: nat)

  const EMPTY_SERVICE := Service(map[], 0, 0, 0, 0, 0)

  function ValidatePart(sha256: Digest, part: ContentPart): (r: Option<RehydrationError>)
    ensures r.None? <==> ValidPart(sha256, part)
  {
    if part.partId == "" then Some(MissingPartId)
    else if part.dataRef == "" then Some(MissingDataRef(part.partId))
    else if part.sizeBytes < 0 then Some(NegativeSize(part.partId))
    else if |part.data| != part.sizeBytes then Some(SizeMismatch(part.partId, part.sizeBytes, |part.data|))
    else if sha256(part.data) != part.sha256 then
      Some(ChecksumMismatch(part.partId, part.sha256, sha256(part.data)))
    else None
  }

  /** What rebuilding an item gives: its content, or the reason it cannot be rebuilt. */
  type Rebuilt = Result<Bytes, RehydrationError>

  /** One part: the new service state and the part to use, which on a hit is the cached one. */
  function ResolvePart(sha256: Digest, s: Service, part: ContentPart)
    : (Service, Result<ContentPart, RehydrationError>)
  {
    if part.partId in s.cache then
      var cached := s.cache[part.partId];
      if cached != part then (s, Err(CacheMismatch(part.partId)))
      else (s.(hits := s.hits + 1), Ok(cached))
    else
      var error := ValidatePart(sha256, part);
      if error.Some? then (s, Err(error.value))
      else (s.(cache := s.cache[part.partId := part], misses := s.misses + 1), Ok(part))
  }

  /** What one more part makes of the data joined so far. */
  function JoinPart(joined: Bytes, resolved: Result<ContentPart, RehydrationError>): Rebuilt {
    if resolved.Err? then Err(resolved.error) else Ok(joined + resolved.value.data)
  }

  /** The joined data of the resolved parts, in order, stopping at the first error. */
  function ResolveParts(sha256: Digest, s: Service, parts: seq<ContentPart>): (Service, Rebuilt) {
    if parts == [] then (s, Ok([]))
    else
      var n := |parts| - 1;
      var (before, joined) := ResolveParts(sha256, s, parts[..n]);
      if joined.Err? then (before, joined)
      else
        var (after, resolved) := ResolvePart(sha256, before, parts[n]);
        (after, JoinPart(joined.value, resolved))
  }

  /** One call of rehydrate. */
  function Rehydrate(sha256: Digest, s: Service, item: MailItem): (Service, Rebuilt) {
    var (after, joined) := ResolveParts(sha256, s, item.contentParts);
    if joined.Err? then (after.(failures := after.failures + 1), joined)
    else
      var bytes := if item.contentParts == [] then item.body else joined.value;
      (after.(rehydratedItems := after.rehydratedItems + 1, rehydratedBytes := after.rehydratedBytes + |bytes|),
       Ok(bytes))
  }

  /** A history of calls: the state it leaves and the outcome of each call. */
  function History(sha256: Digest, s: Service, items: seq<MailItem>): (r: (Service, seq<Rebuilt>))
    ensures |r.1| == |items|
  {
    if items == [] then (s, [])
    else
      var n := |items| - 1;
      var (before, outcomes) := History(sha256, s, items[..n]);
      var (after, outcome) := Rehydrate(sha256, before, items[n]);
      (after, outcomes + [outcome])
  }

  // ----- what the service hands out -----

  /** A resolved part is the requested one, whether it was cached or validated just now. */
  lemma ResolvedIsRequested(sha256: Digest, s: Service, part: ContentPart)
    ensures ResolvePart(sha256, s, part).1.Ok? ==> ResolvePart(sha256, s, part).1.value == part
  {
  }

  lemma {:induction false} JoinedIsConcatenated(sha256: Digest, s: Service, parts: seq<ContentPart>)
    ensures ResolveParts(sha256, s, parts).1.Ok? ==> ResolveParts(sha256, s, parts).1.value == Concatenated(parts)
  {
    if parts != [] {
      var n := |parts| - 1;
      JoinedIsConcatenated(sha256, s, parts[..n]);
      ResolvedIsRequested(sha256, ResolveParts(sha256, s, parts[..n]).0, parts[n]);
    }
  }

  ghost predicate ContentsMatch(items: seq<MailItem>, outcomes: seq<Rebuilt>)
    requires |items| == |outcomes|
  {
    forall i :: 0 <= i < |items| && outcomes[i].Ok? ==> outcomes[i].value == Content(items[i])
  }

  /** Over any history, from any state of the cache, what a successful call returns is
      what plain concatenation gives: the item's parts in order, or its body. */
  lemma {:induction false} HistoryContents(sha256: Digest, s: Service, items: seq<MailItem>)
    ensures ContentsMatch(items, History(sha256, s, items).1)
  {
    if items != [] {
      var n := |items| - 1;
      HistoryContents(sha256, s, items[..n]);
      var (before, earlier) := History(sha256, s, items[..n]);
      JoinedIsConcatenated(sha256, before, items[n].contentParts);
      assert History(sha256, s, items).1[..n] == earlier;
    }
  }

  // ----- the cache invariant -----

  ghost predicate CacheValid(sha256: Digest, cache: Cache) {
    forall id :: id in cache ==> cache[id].partId == id && ValidPart(sha256, cache[id])
  }

  /** Entries are never replaced. */
  ghost predicate Grows(older: Cache, newer: Cache) {
    forall id :: id in older ==> id in newer && newer[id] == older[id]
  }

  lemma GrowsTrans(a: Cache, b: Cache, c: Cache)
    requires Grows(a, b) && Grows(b, c)
    ensures Grows(a, c)
  {
  }

  /** What resolving parts does to the counters: only hits and misses move, and
      misses count what the cache gained. */
  ghost predicate CountsFrom(s: Service, after: Service) {
    && after.misses - s.misses == |after.cache| - |s.cache|
    && after.rehydratedItems == s.rehydratedItems && after.failures == s.failures
    && after.rehydratedBytes == s.rehydratedBytes
  }

  lemma ResolvePartCounts(sha256: Digest, s: Service, part: ContentPart)
    ensures CountsFrom(s, ResolvePart(sha256, s, part).0)
  {
  }

  lemma {:induction false} ResolvePartsCount(sha256: Digest, s: Service, parts: seq<ContentPart>)
    ensures CountsFrom(s, ResolveParts(sha256, s, parts).0)
  {
    if parts != [] {
      var n := |parts| - 1;
      ResolvePartsCount(sha256, s, parts[..n]);
      ResolvePartCounts(sha256, ResolveParts(sha256, s, parts[..n]).0, parts[n]);
    }
  }

  lemma ResolvePartKeeps(sha256: Digest, s: Service, part: ContentPart)
    requires CacheValid(sha256, s.cache)
    ensures var (after, resolved) := ResolvePart(sha256, s, part);
            && CacheValid(sha256, after.cache)
            && Grows(s.cache, after.cache)
            && (resolved.Ok? ==> ValidPart(sha256, part))
  {
  }

  ghost predicate AllValid(sha256: Digest, parts: seq<ContentPart>) {
    forall i :: 0 <= i < |parts| ==> ValidPart(sha256, parts[i])
  }

  lemma AllValidSnoc(sha256: Digest, parts: seq<ContentPart>)
    requires parts != []
    ensures AllValid(sha256, parts)
       <==> AllValid(sha256, parts[..|parts| - 1]) && ValidPart(sha256, parts[|parts| - 1])
  {
    assert parts == parts[..|parts| - 1] + [parts[|parts| - 1]];
  }

  lemma {:induction false} ResolvePartsKeeps(sha256: Digest, s: Service, parts: seq<ContentPart>)
    requires CacheValid(sha256, s.cache)
    ensures CacheValid(sha256, ResolveParts(sha256, s, parts).0.cache)
    ensures Grows(s.cache, ResolveParts(sha256, s, parts).0.cache)
    ensures ResolveParts(sha256, s, parts).1.Ok? ==> AllValid(sha256, parts)
  {
    if parts != [] {
      var n := |parts| - 1;
      var before := ResolveParts(sha256, s, parts[..n]).0;
      ResolvePartsKeeps(sha256, s, parts[..n]);
      ResolvePartKeeps(sha256, before, parts[n]);
      GrowsTrans(s.cache, before.cache, ResolvePart(sha256, before, parts[n]).0.cache);
      AllValidSnoc(sha256, parts);
    }
  }

  // ----- what hits and errors tell -----

  /** The error tells what is wrong with this part, given what the cache holds. */
  predicate Explains(sha256: Digest, cache: Cache, part: ContentPart, error: RehydrationError) {
    match error
    case CacheMismatch(id) => id == part.partId && id in cache && cache[id] != part
    case MissingPartId => part.partId == ""
    case MissingDataRef(id) => id == part.partId && part.dataRef == ""
    case NegativeSize(id) => id == part.partId && part.sizeBytes < 0
    case SizeMismatch(id, declared, actual) =>
      id == part.partId && declared == part.sizeBytes && actual == |part.data| && declared != actual
    case ChecksumMismatch(id, declared, actual) =>
      id == part.partId && declared == part.sha256 && actual == sha256(part.data) && declared != actual
  }

  /** The first k parts were resolved, each as a hit or a miss; if not all were, the error tells
      what is wrong with the next one. */
  ghost predicate ResolvedUpTo(sha256: Digest, s: Service, parts: seq<ContentPart>, after: Service, joined: Rebuilt,
                               k: nat)
  {
    && k <= |parts|
    && after.hits + after.misses == s.hits + s.misses + k
    && (joined.Ok? <==> k == |parts|)
    && (joined.Err? ==> Explains(sha256, after.cache, parts[k], joined.error))
  }

  lemma ResolvedPartTells(sha256: Digest, s: Service, part: ContentPart)
    ensures var (after, resolved) := ResolvePart(sha256, s, part);
            && after.hits + after.misses == s.hits + s.misses + (if resolved.Ok? then 1 else 0)
            && (resolved.Err? ==> Explains(sha256, after.cache, part, resolved.error))
  {
  }

  lemma {:induction false} ResolvedPartsTell(sha256: Digest, s: Service, parts: seq<ContentPart>) returns (k: nat)
    ensures var (after, joined) := ResolveParts(sha256, s, parts); ResolvedUpTo(sha256, s, parts, after, joined, k)
  {
    k := 0;
    if parts != [] {
      var n := |parts| - 1;
      k := ResolvedPartsTell(sha256, s, parts[..n]);
      var (before, joined) := ResolveParts(sha256, s, parts[..n]);
      if joined.Ok? {
        ResolvedPartTells(sha256, before, parts[n]);
        k := if ResolvePart(sha256, before, parts[n]).1.Ok? then n + 1 else n;
      }
    }
  }

  /** A call resolves the item's parts up to the first that is rejected: each of them counts once,
      as a hit or a miss, and the error returned tells what is wrong with the one that follows. */
  lemma CallTells(sha256: Digest, s: Service, item: MailItem) returns (k: nat)
    ensures var (after, outcome) := Rehydrate(sha256, s, item);
            ResolvedUpTo(sha256, s, item.contentParts, after, outcome, k)
  {
    k := ResolvedPartsTell(sha256, s, item.contentParts);
  }

  /** Bytes returned by the calls that succeeded. */
  function BytesRebuilt(outcomes: seq<Rebuilt>): nat {
    if outcomes == [] then 0
    else
      var n := |outcomes| - 1;
      BytesRebuilt(outcomes[..n]) + if outcomes[n].Ok? then |outcomes[n].value| else 0
  }

  predicate IsError(outcome: Rebuilt) {
    outcome.Err?
  }

  /** The counters after a history from an empty service. */
  ghost predicate Counted(items: seq<MailItem>, s: Service, outcomes: seq<Rebuilt>)
    requires |items| == |outcomes|
  {
    && s.misses == |s.cache|
    && s.rehydratedItems + s.failures == |items|
    && s.failures == |Filter(IsError, outcomes)|
    && s.rehydratedBytes == BytesRebuilt(outcomes)
  }

  ghost predicate AcceptedAreValid(sha256: Digest, items: seq<MailItem>, outcomes: seq<Rebuilt>)
    requires |items| == |outcomes|
  {
    forall i :: 0 <= i < |items| && outcomes[i].Ok? ==> AllValid(sha256, items[i].contentParts)
  }

  /** Over any history starting empty: misses count the cached parts, every call
      is counted once, as an item or as a failure, and the byte counter is what
      the successful items' content adds up to. */
  lemma {:induction false} HistoryCounts(sha256: Digest, items: seq<MailItem>)
    ensures Counted(items, History(sha256, EMPTY_SERVICE, items).0, History(sha256, EMPTY_SERVICE, items).1)
  {
    if items != [] {
      var n := |items| - 1;
      HistoryCounts(sha256, items[..n]);
      var (before, earlier) := History(sha256, EMPTY_SERVICE, items[..n]);
      ResolvePartsCount(sha256, before, items[n].contentParts);
      assert History(sha256, EMPTY_SERVICE, items).1[..n] == earlier;
    }
  }

  /** Over any history starting empty, cached parts are valid and every
      successful item consists of valid parts. */
  lemma {:induction false} HistoryInvariant(sha256: Digest, items: seq<MailItem>)
    ensures CacheValid(sha256, History(sha256, EMPTY_SERVICE, items).0.cache)
    ensures AcceptedAreValid(sha256, items, History(sha256, EMPTY_SERVICE, items).1)
  {
    if items != [] {
      var n := |items| - 1;
      HistoryInvariant(sha256, items[..n]);
      var (before, earlier) := History(sha256, EMPTY_SERVICE, items[..n]);
      ResolvePartsKeeps(sha256, before, items[n].contentParts);
      assert History(sha256, EMPTY_SERVICE, items).1[..n] == earlier;
    }
  }

  // ----- agreement with the uncached service -----

  /** No two of the parts, and no part and cache entry, share an identifier and differ. */
  ghost predicate NoClash(cache: Cache, parts: seq<ContentPart>) {
    && (forall i :: 0 <= i < |parts| && parts[i].partId in cache ==> cache[parts[i].partId] == parts[i])
    && (forall i, j :: 0 <= i < j < |parts| && parts[i].partId == parts[j].partId ==> parts[i] == parts[j])
  }

  /** The cache holds exactly the old entries and the parts resolved so far. */
  ghost predicate Covers(cache: Cache, parts: seq<ContentPart>, after: Cache) {
    && Grows(cache, after)
    && (forall i :: 0 <= i < |parts| ==> parts[i].partId in after && after[parts[i].partId] == parts[i])
    && (forall id :: id in after ==> id in cache || exists i :: 0 <= i < |parts| && parts[i].partId == id)
  }

  ghost predicate AcceptedAsPromised(sha256: Digest, s: Service, parts: seq<ContentPart>) {
    var (after, joined) := ResolveParts(sha256, s, parts);
    && (joined.Ok? <==> AllValid(sha256, parts) && NoClash(s.cache, parts))
    && (joined.Ok? ==> Covers(s.cache, parts, after.cache))
  }

  /** An item is accepted if and only if all its parts are valid and none clashes
      with a cached part or with another part of the item. */
  lemma {:induction false} AcceptedExactlyWhen(sha256: Digest, s: Service, parts: seq<ContentPart>)
    requires CacheValid(sha256, s.cache)
    ensures AcceptedAsPromised(sha256, s, parts)
  {
    if parts == [] {
      assert NoClash(s.cache, parts) && AllValid(sha256, parts);
    } else {
      AcceptedExactlyWhen(sha256, s, parts[..|parts| - 1]);
      if ResolveParts(sha256, s, parts[..|parts| - 1]).1.Err? {
        RejectedEarlier(sha256, s, parts);
      } else {
        AcceptedSoFar(sha256, s, parts);
      }
    }
  }

  lemma RejectedEarlier(sha256: Digest, s: Service, parts: seq<ContentPart>)
    requires parts != [] && ResolveParts(sha256, s, parts[..|parts| - 1]).1.Err?
    requires AcceptedAsPromised(sha256, s, parts[..|parts| - 1])
    ensures AcceptedAsPromised(sha256, s, parts)
  {
    PrefixAcceptable(sha256, s.cache, parts);
  }

  lemma AcceptedSoFar(sha256: Digest, s: Service, parts: seq<ContentPart>)
    requires CacheValid(sha256, s.cache)
    requires parts != [] && ResolveParts(sha256, s, parts[..|parts| - 1]).1.Ok?
    requires AcceptedAsPromised(sha256, s, parts[..|parts| - 1])
    ensures AcceptedAsPromised(sha256, s, parts)
  {
    var before := ResolveParts(sha256, s, parts[..|parts| - 1]).0;
    PrefixAcceptable(sha256, s.cache, parts);
    assert CacheValid(sha256, before.cache) by {
      ResolvePartsKeeps(sha256, s, parts[..|parts| - 1]);
    }
    LastPartAccepted(sha256, s, before, parts);
  }

  lemma PrefixAcceptable(sha256: Digest, cache: Cache, parts: seq<ContentPart>)
    requires parts != []
    ensures AllValid(sha256, parts)
       <==> AllValid(sha256, parts[..|parts| - 1]) && ValidPart(sha256, parts[|parts| - 1])
    ensures NoClash(cache, parts) ==> NoClash(cache, parts[..|parts| - 1])
  {
    AllValidSnoc(sha256, parts);
  }

  lemma LastPartAccepted(sha256: Digest, s: Service, before: Service, parts: seq<ContentPart>)
    requires CacheValid(sha256, before.cache)
    requires parts != [] && Covers(s.cache, parts[..|parts| - 1], before.cache)
    requires NoClash(s.cache, parts[..|parts| - 1])
    ensures var (after, resolved) := ResolvePart(sha256, before, parts[|parts| - 1]);
            && (resolved.Ok? <==> ValidPart(sha256, parts[|parts| - 1]) && NoClash(s.cache, parts))
            && (resolved.Ok? ==> Covers(s.cache, parts, after.cache))
  {
    var n := |parts| - 1;
    var init, last := parts[..n], parts[n];
    assert forall i :: 0 <= i < n ==> init[i] == parts[i];
    if last.partId in before.cache {
      if before.cache[last.partId] == last {
        LastPartFits(s.cache, before.cache, parts);
      } else if last.partId !in s.cache {
        var i :| 0 <= i < n && init[i].partId == last.partId;
        assert parts[i] != last;
      }
    } else {
      LastPartIsNew(s.cache, before.cache, parts);
    }
  }

  lemma LastPartFits(cache: Cache, before: Cache, parts: seq<ContentPart>)
    requires parts != [] && Covers(cache, parts[..|parts| - 1], before)
    requires NoClash(cache, parts[..|parts| - 1])
    requires parts[|parts| - 1].partId in before && before[parts[|parts| - 1].partId] == parts[|parts| - 1]
    ensures NoClash(cache, parts) && Covers(cache, parts, before)
  {
    var init := parts[..|parts| - 1];
    assert forall i :: 0 <= i < |init| ==> init[i] == parts[i];
  }

  lemma LastPartIsNew(cache: Cache, before: Cache, parts: seq<ContentPart>)
    requires parts != [] && Covers(cache, parts[..|parts| - 1], before)
    requires NoClash(cache, parts[..|parts| - 1])
    requires parts[|parts| - 1].partId !in before
    ensures NoClash(cache, parts)
    ensures Covers(cache, parts, before[parts[|parts| - 1].partId := parts[|parts| - 1]])
  {
    var init, last := parts[..|parts| - 1], parts[|parts| - 1];
    assert parts == init + [last];
    NewPartNoClash(cache, before, init, last);
    NewPartCovers(cache, before, init, last);
  }

  lemma NewPartNoClash(cache: Cache, before: Cache, init: seq<ContentPart>, last: ContentPart)
    requires Covers(cache, init, before) && NoClash(cache, init) && last.partId !in before
    ensures NoClash(cache, init + [last])
  {
    var parts := init + [last];
    forall i, j | 0 <= i < j < |parts| && parts[i].partId == parts[j].partId ensures parts[i] == parts[j] {
      assert parts[i] == init[i];
      if j < |init| {
        assert parts[j] == init[j];
      }
    }
  }

  lemma NewPartCovers(cache: Cache, before: Cache, init: seq<ContentPart>, last: ContentPart)
    requires Covers(cache, init, before) && last.partId !in before
    ensures Covers(cache, init + [last], before[last.partId := last])
  {
    var parts, after := init + [last], before[last.partId := last];
    forall id | id in after ensures id in cache || exists i :: 0 <= i < |parts| && parts[i].partId == id {
      if id == last.partId {
        assert parts[|init|].partId == id;
      } else if id !in cache {
        var i :| 0 <= i < |init| && init[i].partId == id;
        assert parts[i].partId == id;
      }
    }
  }

  /** Part identifiers determine parts throughout a history. */
  ghost predicate Consistent(items: seq<MailItem>) {
    forall i, j, k, l :: 0 <= i < |items| && 0 <= k < |items|
      && 0 <= j < |items[i].contentParts| && 0 <= l < |items[k].contentParts|
      && items[i].contentParts[j].partId == items[k].contentParts[l].partId
      ==> items[i].contentParts[j] == items[k].contentParts[l]
  }

  /** Every cached part is some part of some earlier item. */
  ghost predicate CachedFrom(cache: Cache, items: seq<MailItem>) {
    forall id :: id in cache ==>
      exists i, j :: 0 <= i < |items| && 0 <= j < |items[i].contentParts| && items[i].contentParts[j] == cache[id]
  }

  lemma {:induction false} PartsCachedFrom(sha256: Digest, s: Service, items: seq<MailItem>, k: nat, n: nat)
    requires k < |items| && n <= |items[k].contentParts|
    requires CachedFrom(s.cache, items)
    ensures CachedFrom(ResolveParts(sha256, s, items[k].contentParts[..n]).0.cache, items)
  {
    if n > 0 {
      var parts := items[k].contentParts[..n];
      assert parts[..n - 1] == items[k].contentParts[..n - 1];
      PartsCachedFrom(sha256, s, items, k, n - 1);
      assert items[k].contentParts[n - 1] == parts[n - 1];
    }
  }

  lemma {:induction false} HistoryCachedFrom(sha256: Digest, items: seq<MailItem>, n: nat)
    requires n <= |items|
    ensures CachedFrom(History(sha256, EMPTY_SERVICE, items[..n]).0.cache, items)
  {
    if n > 0 {
      assert items[..n][..n - 1] == items[..n - 1];
      HistoryCachedFrom(sha256, items, n - 1);
      var before := History(sha256, EMPTY_SERVICE, items[..n - 1]).0;
      PartsCachedFrom(sha256, before, items, n - 1, |items[n - 1].contentParts|);
      TakeAll(items[n - 1].contentParts);
    }
  }

  lemma {:induction false} HistoryKeepsCacheValid(sha256: Digest, s: Service, items: seq<MailItem>)
    requires CacheValid(sha256, s.cache)
    ensures CacheValid(sha256, History(sha256, s, items).0.cache)
    ensures Grows(s.cache, History(sha256, s, items).0.cache)
  {
    if items != [] {
      var n := |items| - 1;
      HistoryKeepsCacheValid(sha256, s, items[..n]);
      ResolvePartsKeeps(sha256, History(sha256, s, items[..n]).0, items[n].contentParts);
    }
  }

  lemma ConsistentMeansNoClash(cache: Cache, items: seq<MailItem>, k: nat)
    requires Consistent(items) && k < |items| && CachedFrom(cache, items)
    requires forall id :: id in cache ==> cache[id].partId == id
    ensures NoClash(cache, items[k].contentParts)
  {
    forall i | 0 <= i < |items[k].contentParts| && items[k].contentParts[i].partId in cache
      ensures cache[items[k].contentParts[i].partId] == items[k].contentParts[i]
    {
      var id := items[k].contentParts[i].partId;
      var m, j :| 0 <= m < |items| && 0 <= j < |items[m].contentParts| && items[m].contentParts[j] == cache[id];
    }
  }

  lemma AcceptedWhenNoClash(sha256: Digest, s: Service, item: MailItem)
    requires CacheValid(sha256, s.cache) && NoClash(s.cache, item.contentParts)
    ensures Rehydrate(sha256, s, item).1.Ok? <==> AllValid(sha256, item.contentParts)
  {
    AcceptedExactlyWhen(sha256, s, item.contentParts);
  }

  /** When part identifiers determine parts, the cached service accepts exactly
      the items whose parts are all valid: just what an uncached one accepts. */
  lemma CachedAcceptsWhatUncachedAccepts(sha256: Digest, items: seq<MailItem>, k: nat)
    requires Consistent(items) && k < |items|
    ensures History(sha256, EMPTY_SERVICE, items).1[k].Ok? <==> AllValid(sha256, items[k].contentParts)
  {
    var before := History(sha256, EMPTY_SERVICE, items[..k]).0;
    assert CacheValid(sha256, before.cache) && NoClash(before.cache, items[k].contentParts) by {
      HistoryKeepsCacheValid(sha256, EMPTY_SERVICE, items[..k]);
      HistoryCachedFrom(sha256, items, k);
      ConsistentMeansNoClash(before.cache, items, k);
    }
    AcceptedWhenNoClash(sha256, before, items[k]);
    OutcomeOfCall(sha256, EMPTY_SERVICE, items, k);
  }

  lemma {:induction false} OutcomeOfCall(sha256: Digest, s: Service, items: seq<MailItem>, k: nat)
    requires k < |items|
    ensures History(sha256, s, items).1[k] == Rehydrate(sha256, History(sha256, s, items[..k]).0, items[k]).1
  {
    var n := |items| - 1;
    if k < n {
      OutcomeOfCall(sha256, s, items[..n], k);
      assert items[..n][..k] == items[..k];
    }
  }

  // ----- replaying a history over a cache that has already seen part of it -----

  lemma ResolvePartReplayed(sha256: Digest, s: Service, t: Service, part: ContentPart, seen: Cache)
    requires CacheValid(sha256, seen)
    requires Grows(s.cache, t.cache) && Grows(t.cache, seen)
    requires Grows(ResolvePart(sha256, s, part).0.cache, seen)
    ensures var (after, resolved) := ResolvePart(sha256, s, part);
            var (after', resolved') := ResolvePart(sha256, t, part);
            resolved.Ok? == resolved'.Ok? && Grows(after.cache, after'.cache) && Grows(after'.cache, seen)
  {
  }

  lemma {:induction false} ResolvePartsReplayed(sha256: Digest, s: Service, t: Service, parts: seq<ContentPart>,
                                                seen: Cache)
    requires CacheValid(sha256, s.cache) && CacheValid(sha256, seen)
    requires Grows(s.cache, t.cache) && Grows(t.cache, seen)
    requires Grows(ResolveParts(sha256, s, parts).0.cache, seen)
    ensures var (after, joined) := ResolveParts(sha256, s, parts);
            var (after', joined') := ResolveParts(sha256, t, parts);
            joined.Ok? == joined'.Ok? && Grows(after.cache, after'.cache) && Grows(after'.cache, seen)
  {
    if parts != [] {
      var n := |parts| - 1;
      var (before, joined) := ResolveParts(sha256, s, parts[..n]);
      ResolvePartsKeeps(sha256, s, parts[..n]);
      ResolvePartKeeps(sha256, before, parts[n]);
      ResolvePartsReplayed(sha256, s, t, parts[..n], seen);
      if joined.Ok? {
        ResolvePartReplayed(sha256, before, ResolveParts(sha256, t, parts[..n]).0, parts[n], seen);
      }
    }
  }

  ghost predicate SameVerdicts(a: seq<Rebuilt>, b: seq<Rebuilt>) {
    |a| == |b| && forall i :: 0 <= i < |a| ==> a[i].Ok? == b[i].Ok?
  }

  lemma {:induction false} HistoryReplayedTo(sha256: Digest, s: Service, t: Service, items: seq<MailItem>, seen: Cache)
    requires CacheValid(sha256, s.cache) && CacheValid(sha256, seen)
    requires Grows(s.cache, t.cache) && Grows(t.cache, seen)
    requires Grows(History(sha256, s, items).0.cache, seen)
    ensures SameVerdicts(History(sha256, s, items).1, History(sha256, t, items).1)
    ensures Grows(History(sha256, s, items).0.cache, History(sha256, t, items).0.cache)
    ensures Grows(History(sha256, t, items).0.cache, seen)
  {
    if items != [] {
      var n := |items| - 1;
      var before := History(sha256, s, items[..n]).0;
      HistoryKeepsCacheValid(sha256, s, items[..n]);
      ResolvePartsKeeps(sha256, before, items[n].contentParts);
      HistoryReplayedTo(sha256, s, t, items[..n], seen);
      ResolvePartsReplayed(sha256, before, History(sha256, t, items[..n]).0, items[n].contentParts, seen);
    }
  }

  /** Running a history again on a cache that already holds some or all of what the
      history caches accepts and rejects the same items and ends with the same cache. */
  lemma HistoryReplayed(sha256: Digest, s: Service, t: Service, items: seq<MailItem>)
    requires CacheValid(sha256, s.cache)
    requires Grows(s.cache, t.cache) && Grows(t.cache, History(sha256, s, items).0.cache)
    ensures SameVerdicts(History(sha256, s, items).1, History(sha256, t, items).1)
    ensures History(sha256, t, items).0.cache == History(sha256, s, items).0.cache
  {
    HistoryKeepsCacheValid(sha256, s, items);
    HistoryReplayedTo(sha256, s, t, items, History(sha256, s, items).0.cache);
  }

  // ----- the service object -----

  class SisRehydrator {
    var cache: Cache
    var rehydratedItems: nat
    var rehydrationFailures: nat
    var rehydratedBytes: nat
    var cacheHits: nat
    var cacheMisses: nat

    function State(): Service
      reads this
    {
      Service(cache, rehydratedItems, rehydrationFailures, rehydratedBytes, cacheHits, cacheMisses)
    }

    constructor ()
      ensures State() == EMPTY_SERVICE
    {
      cache := map[];
      rehydratedItems, rehydrationFailures, rehydratedBytes, cacheHits, cacheMisses := 0, 0, 0, 0, 0;
    }

    /** Returns the cached part on a hit, and validates and caches the part otherwise. */
    method ResolveContentPart(sha256: Digest, part: ContentPart)
      returns (resolved: Result<ContentPart, RehydrationError>)
      modifies this
      ensures (State(), resolved) == ResolvePart(sha256, old(State()), part)
    {
      if part.partId in cache {
        var cached := cache[part.partId];
        if cached != part {
          return Err(CacheMismatch(part.partId));
        }
        cacheHits := cacheHits + 1;
        return Ok(cached);
      }
      var error := ValidatePart(sha256, part);
      if error.Some? {
        return Err(error.value);
      }
      cache := cache[part.partId := part];
      cacheMisses := cacheMisses + 1;
      return Ok(part);
    }

    /** The data of the resolved parts, joined in order, or the first error. */
    method JoinResolvedParts(sha256: Digest, parts: seq<ContentPart>) returns (joined: Rebuilt)
      modifies this
      ensures (State(), joined) == ResolveParts(sha256, old(State()), parts)
    {
      ghost var start := State();
      var sofar: Bytes := [];
      assert parts[..0] == [];
      for i := 0 to |parts|
        invariant ResolveParts(sha256, start, parts[..i]) == (State(), Ok(sofar))
      {
        ghost var before := State();
        var resolved := ResolveContentPart(sha256, parts[i]);
        OnePartMore(sha256, start, parts, i, before, sofar);
        if resolved.Err? {
          StopsEarly(sha256, start, parts, i + 1);
          return Err(resolved.error);
        }
        sofar := sofar + resolved.value.data;
      }
      TakeAll(parts);
      return Ok(sofar);
    }

    /** Joins the resolved parts in order; the first error is counted and returned. On
        success the content is the concatenation of the item's parts, or its body. */
    method RehydrateItem(sha256: Digest, item: MailItem) returns (content: Rebuilt)
      modifies this
      ensures (State(), content) == Rehydrate(sha256, old(State()), item)
      ensures content.Ok? ==> content.value == Content(item)
    {
      if |item.contentParts| == 0 {
        rehydratedItems := rehydratedItems + 1;
        rehydratedBytes := rehydratedBytes + |item.body|;
        return Ok(item.body);
      }
      ghost var start := State();
      content := JoinResolvedParts(sha256, item.contentParts);
      JoinedIsConcatenated(sha256, start, item.contentParts);
      if content.Err? {
        rehydrationFailures := rehydrationFailures + 1;
      } else {
        rehydratedItems := rehydratedItems + 1;
        rehydratedBytes := rehydratedBytes + |content.value|;
      }
    }
  }

  /** What resolving the part at position i makes of the parts before it. */
  lemma OnePartMore(sha256: Digest, start: Service, parts: seq<ContentPart>, i: nat, before: Service, joined: Bytes)
    requires i < |parts| && ResolveParts(sha256, start, parts[..i]) == (before, Ok(joined))
    ensures var (after, resolved) := ResolvePart(sha256, before, parts[i]);
            ResolveParts(sha256, start, parts[..i + 1]) == (after, JoinPart(joined, resolved))
  {
    TakeStep(parts, i);
  }

  /** Once a part has failed, the later parts are not looked at. */
  lemma {:induction false} StopsEarly(sha256: Digest, s: Service, parts: seq<ContentPart>, n: nat)
    requires n <= |parts| && ResolveParts(sha256, s, parts[..n]).1.Err?
    ensures ResolveParts(sha256, s, parts) == ResolveParts(sha256, s, parts[..n])
  {
    if n == |parts| {
      TakeAll(parts);
    } else {
      var init := parts[..|parts| - 1];
      assert init[..n] == parts[..n];
      StopsEarly(sha256, s, init, n);
    }
  }
}
