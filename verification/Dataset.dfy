/** Synthetic datasets: even distribution of counts, and the nested consumption of
    four count streams. Random draws are parameters. */
module Datasets {
  import opened Prelude

  // ----- sums -----

  function Sum(s: seq<nat>): nat {
    if s == [] then 0 else Sum(s[..|s| - 1]) + s[|s| - 1]
  }

  lemma {:induction false} SumConcat(a: seq<nat>, b: seq<nat>)
    ensures Sum(a + b) == Sum(a) + Sum(b)
  {
    if b == [] {
      assert a + b == a;
    } else {
      var init := b[..|b| - 1];
      assert (a + b)[..|a + b| - 1] == a + init;
      SumConcat(a, init);
    }
  }

  lemma SumOne(x: nat)
    ensures Sum([x]) == x
  {
    assert [x][..0] == [];
  }

  lemma SumStep(s: seq<nat>, i: nat)
    requires i < |s|
    ensures Sum(s[..i + 1]) == Sum(s[..i]) + s[i]
  {
    TakeStep(s, i);
  }

  lemma SumOfPrefix(s: seq<nat>, i: nat)
    requires i <= |s|
    ensures Sum(s[..i]) <= Sum(s)
  {
    SumConcat(s[..i], s[i..]);
    assert s[..i] + s[i..] == s;
  }

  function Without(s: seq<nat>, i: nat): seq<nat>
    requires i < |s|
  {
    s[..i] + s[i + 1..]
  }

  lemma SplitAround(s: seq<nat>, i: nat)
    requires i < |s|
    ensures s == s[..i] + [s[i]] + s[i + 1..]
  {
  }

  lemma SumInsert(a: seq<nat>, x: nat, b: seq<nat>)
    ensures Sum(a + [x] + b) == Sum(a + b) + x
  {
    SumConcat(a + [x], b);
    SumConcat(a, [x]);
    SumConcat(a, b);
    SumOne(x);
  }

  lemma SumWithout(s: seq<nat>, i: nat)
    requires i < |s|
    ensures Sum(s) == Sum(Without(s, i)) + s[i]
  {
    SplitAround(s, i);
    SumInsert(s[..i], s[i], s[i + 1..]);
  }

  lemma MultisetWithout(s: seq<nat>, i: nat)
    requires i < |s|
    ensures multiset(s) == multiset(Without(s, i)) + multiset{s[i]}
  {
    SplitAround(s, i);
  }

  lemma SameMultisetWithout(a: seq<nat>, i: nat, b: seq<nat>, j: nat)
    requires multiset(a) == multiset(b) && i < |a| && j < |b| && a[i] == b[j]
    ensures multiset(Without(a, i)) == multiset(Without(b, j))
  {
    MultisetWithout(a, i);
    MultisetWithout(b, j);
    assert multiset(Without(a, i)) == multiset(a) - multiset{a[i]};
    assert multiset(Without(b, j)) == multiset(b) - multiset{b[j]};
  }

  /** Permutations have the same sum. */
  lemma {:induction false} SumOfPermutation(a: seq<nat>, b: seq<nat>)
    requires multiset(a) == multiset(b)
    ensures Sum(a) == Sum(b)
    decreases |b|
  {
    if b == [] {
      assert |multiset(a)| == 0;
    } else {
      assert b[0] in multiset(a);
      var i :| 0 <= i < |a| && a[i] == b[0];
      SumWithout(a, i);
      SumWithout(b, 0);
      SameMultisetWithout(a, i, b, 0);
      SumOfPermutation(Without(a, i), Without(b, 0));
    }
  }

  // ----- distribute -----

  /** The counts before shuffling: the first ones get the remainder. */
  function EvenCounts(total: nat, buckets: nat): (r: seq<nat>)
    requires buckets > 0
    ensures |r| == buckets
  {
    seq(buckets, i requires 0 <= i < buckets => total / buckets + (if i < total % buckets then 1 else 0))
  }

  lemma OneMoreTimes(n: nat, q: nat)
    requires n > 0
    ensures n * q == (n - 1) * q + q
  {
  }

  lemma {:induction false} PrefixSumOfEven(s: seq<nat>, q: nat, r: nat, n: nat)
    requires n <= |s| && forall i :: 0 <= i < |s| ==> s[i] == q + (if i < r then 1 else 0)
    ensures Sum(s[..n]) == n * q + (if n < r then n else r)
  {
    if n > 0 {
      PrefixSumOfEven(s, q, r, n - 1);
      SumStep(s, n - 1);
      OneMoreTimes(n, q);
    }
  }

  lemma EvenCountsSum(total: nat, buckets: nat)
    requires buckets > 0
    ensures Sum(EvenCounts(total, buckets)) == total
  {
    PrefixSumOfEven(EvenCounts(total, buckets), total / buckets, total % buckets, buckets);
    TakeAll(EvenCounts(total, buckets));
    assert total == buckets * (total / buckets) + total % buckets;
  }

  datatype DistributionError = BucketsNotPositive | TotalBelowBuckets

  /** Parts that sum to the total, are positive, and differ by at most one. */
  ghost predicate EvenParts(total: nat, buckets: nat, parts: seq<nat>) {
    && |parts| == buckets && Sum(parts) == total
    && (forall i :: 0 <= i < |parts| ==> parts[i] >= 1)
    && (forall i, j :: 0 <= i < |parts| && 0 <= j < |parts| ==> parts[i] <= parts[j] + 1)
  }

  lemma ShuffledCountsAreEven(total: nat, buckets: nat, parts: seq<nat>)
    requires 0 < buckets <= total && multiset(parts) == multiset(EvenCounts(total, buckets))
    ensures EvenParts(total, buckets, parts)
  {
    var even := EvenCounts(total, buckets);
    EvenCountsSum(total, buckets);
    SumOfPermutation(parts, even);
    assert |parts| == |multiset(parts)| == |multiset(even)| == buckets;
    QuotientPositive(total, buckets);
    forall i | 0 <= i < |parts| ensures total / buckets <= parts[i] <= total / buckets + 1 {
      assert parts[i] in multiset(even);
    }
  }

  lemma QuotientPositive(total: nat, buckets: nat)
    requires 0 < buckets <= total
    ensures total / buckets >= 1
  {
  }

  /** Shuffles in place from the last position down, as random.shuffle does. */
  method Shuffle(a: array<nat>, draw: nat -> nat)
    modifies a
    ensures multiset(a[..]) == multiset(old(a[..]))
  {
    var i := a.Length - 1;
    while i >= 1
      invariant multiset(a[..]) == multiset(old(a[..]))
    {
      var j := draw(i) % (i + 1);
      a[i], a[j] := a[j], a[i];
      i := i - 1;
    }
  }

  /** Error for a bad request; otherwise an even distribution, in some order. */
  method Distribute(total: int, buckets: int, draw: nat -> nat) returns (r: Result<seq<nat>, DistributionError>)
    ensures r.Ok? <==> 0 < buckets <= total
    ensures r == Err(BucketsNotPositive) <==> buckets <= 0
    ensures r == Err(TotalBelowBuckets) <==> buckets > 0 && total < buckets
    ensures r.Ok? ==> EvenParts(total, buckets, r.value)
  {
    if buckets <= 0 {
      return Err(BucketsNotPositive);
    }
    if total < buckets {
      return Err(TotalBelowBuckets);
    }
    var counts := new nat[buckets](_ => total / buckets);
    for index := 0 to total % buckets
      invariant forall i :: 0 <= i < buckets ==> counts[i] == total / buckets + (if i < index then 1 else 0)
    {
      counts[index] := counts[index] + 1;
    }
    assert counts[..] == EvenCounts(total, buckets);
    Shuffle(counts, draw);
    ShuffledCountsAreEven(total, buckets, counts[..]);
    return Ok(counts[..]);
  }

  // ----- consuming count streams -----

  lemma PrefixSumsGrow(sizes: seq<nat>, i: nat, j: nat)
    requires i <= j <= |sizes|
    ensures Sum(sizes[..i]) <= Sum(sizes[..j]) <= Sum(sizes)
  {
    SumOfPrefix(sizes[..j], i);
    assert sizes[..j][..i] == sizes[..i];
    SumOfPrefix(sizes, j);
  }

  /** The k-th group of a stream cut into groups of the given sizes. */
  function Chunk<T>(sizes: seq<nat>, stream: seq<T>, k: nat): seq<T>
    requires k < |sizes| && Sum(sizes) == |stream|
  {
    PrefixSumsGrow(sizes, k, k + 1);
    PrefixSumsGrow(sizes, k + 1, |sizes|);
    stream[Sum(sizes[..k])..Sum(sizes[..k + 1])]
  }

  function Group<T>(sizes: seq<nat>, stream: seq<T>): (r: seq<seq<T>>)
    requires Sum(sizes) == |stream|
    ensures |r| == |sizes|
  {
    seq(|sizes|, k requires 0 <= k < |sizes| => Chunk(sizes, stream, k))
  }

  /** The k-th group starts where the groups before it end. */
  lemma ChunkStartsAt<T>(sizes: seq<nat>, stream: seq<T>, k: nat, used: nat)
    requires k < |sizes| && Sum(sizes) == |stream| && used == Sum(sizes[..k])
    ensures used + sizes[k] == Sum(sizes[..k + 1]) <= |stream|
    ensures Chunk(sizes, stream, k) == stream[used..used + sizes[k]]
  {
    SumStep(sizes, k);
    PrefixSumsGrow(sizes, k + 1, |sizes|);
  }

  lemma SliceOneMore<T>(s: seq<T>, at: nat, i: nat)
    requires at + i < |s|
    ensures s[at..at + i + 1] == s[at..at + i] + [s[at + i]]
  {
  }

  lemma GroupOneMore<T>(sizes: seq<nat>, stream: seq<T>, at: nat, i: nat)
    requires Sum(sizes) == |stream| && at + i < |sizes|
    ensures Group(sizes, stream)[at..at + i + 1] == Group(sizes, stream)[at..at + i] + [Chunk(sizes, stream, at + i)]
  {
    SliceOneMore(Group(sizes, stream), at, i);
    assert Group(sizes, stream)[at + i] == Chunk(sizes, stream, at + i);
  }

  lemma {:induction false} GroupPrefixFlattens<T>(sizes: seq<nat>, stream: seq<T>, n: nat)
    requires Sum(sizes) == |stream| && n <= |sizes|
    ensures Sum(sizes[..n]) <= |stream|
    ensures Flatten(Group(sizes, stream)[..n]) == stream[..Sum(sizes[..n])]
  {
    PrefixSumsGrow(sizes, n, |sizes|);
    if n > 0 {
      GroupPrefixFlattens(sizes, stream, n - 1);
      PrefixSumsGrow(sizes, n - 1, n);
      TakeStep(Group(sizes, stream), n - 1);
    }
  }

  /** Grouping loses nothing, repeats nothing and keeps the order. */
  lemma GroupFlattens<T>(sizes: seq<nat>, stream: seq<T>)
    requires Sum(sizes) == |stream|
    ensures Flatten(Group(sizes, stream)) == stream
  {
    GroupPrefixFlattens(sizes, stream, |sizes|);
    TakeAll(Group(sizes, stream));
    TakeAll(sizes);
    TakeAll(stream);
  }

  datatype Profile = Profile(vaultStores: int, archives: int, mailboxes: int, mailItems: int, attachments: int)

  /** Attachment counts, by item, mailbox, archive and vault store. */
  type MailboxShape = seq<nat>
  type ArchiveShape = seq<MailboxShape>
  type StoreShape = seq<ArchiveShape>

  /** A mailbox consumes one attachment count for each of its items. */
  method TakeItems(attachments: seq<nat>, at: nat, count: nat) returns (taken: MailboxShape)
    requires at + count <= |attachments|
    ensures taken == attachments[at..at + count]
  {
    taken := [];
    for i := 0 to count
      invariant taken == attachments[at..at + i]
    {
      taken := taken + [attachments[at + i]];
    }
  }

  /** An archive consumes item counts for its mailboxes, and attachment counts through them. */
  method TakeMailboxes(items: seq<nat>, attachments: seq<nat>, at: nat, used: nat, count: nat)
    returns (taken: ArchiveShape, used': nat)
    requires Sum(items) == |attachments| && at + count <= |items| && used == Sum(items[..at])
    ensures taken == Group(items, attachments)[at..at + count]
    ensures used' == Sum(items[..at + count])
  {
    taken, used' := [], used;
    for i := 0 to count
      invariant taken == Group(items, attachments)[at..at + i]
      invariant used' == Sum(items[..at + i])
    {
      ChunkStartsAt(items, attachments, at + i, used');
      var mailbox := TakeItems(attachments, used', items[at + i]);
      GroupOneMore(items, attachments, at, i);
      taken := taken + [mailbox];
      used' := used' + items[at + i];
    }
  }

  /** A vault store consumes mailbox counts for its archives, and the streams below through them. */
  method TakeArchives(mailboxes: seq<nat>, items: seq<nat>, attachments: seq<nat>,
                      at: nat, usedMailboxes: nat, usedItems: nat, count: nat)
    returns (taken: StoreShape, usedMailboxes': nat, usedItems': nat)
    requires Sum(mailboxes) == |items| && Sum(items) == |attachments| && at + count <= |mailboxes|
    requires usedMailboxes == Sum(mailboxes[..at]) && usedMailboxes <= |items|
             && usedItems == Sum(items[..usedMailboxes])
    ensures taken == Group(mailboxes, Group(items, attachments))[at..at + count]
    ensures usedMailboxes' == Sum(mailboxes[..at + count]) && usedMailboxes' <= |items|
    ensures usedItems' == Sum(items[..usedMailboxes'])
  {
    taken, usedMailboxes', usedItems' := [], usedMailboxes, usedItems;
    for i := 0 to count
      invariant taken == Group(mailboxes, Group(items, attachments))[at..at + i]
      invariant usedMailboxes' == Sum(mailboxes[..at + i]) && usedMailboxes' <= |items|
      invariant usedItems' == Sum(items[..usedMailboxes'])
    {
      ChunkStartsAt(mailboxes, Group(items, attachments), at + i, usedMailboxes');
      var archive;
      archive, usedItems' := TakeMailboxes(items, attachments, usedMailboxes', usedItems', mailboxes[at + i]);
      GroupOneMore(mailboxes, Group(items, attachments), at, i);
      taken := taken + [archive];
      usedMailboxes' := usedMailboxes' + mailboxes[at + i];
    }
  }

  /** The totals of a generated dataset are those of the profile. */
  ghost predicate MatchesProfile(p: Profile, stores: seq<StoreShape>) {
    && |stores| == p.vaultStores
    && |Flatten(stores)| == p.archives
    && |Flatten(Flatten(stores))| == p.mailboxes
    && |Flatten(Flatten(Flatten(stores)))| == p.mailItems
    && Sum(Flatten(Flatten(Flatten(stores)))) == p.attachments
  }

  lemma NestedGroupsMatch(p: Profile, archives: seq<nat>, mailboxes: seq<nat>, items: seq<nat>, attachments: seq<nat>)
    requires |archives| == p.vaultStores && |mailboxes| == p.archives == Sum(archives)
    requires |items| == p.mailboxes == Sum(mailboxes) && |attachments| == p.mailItems == Sum(items)
    requires Sum(attachments) == p.attachments
    ensures MatchesProfile(p, Group(archives, Group(mailboxes, Group(items, attachments))))
  {
    GroupFlattens(items, attachments);
    GroupFlattens(mailboxes, Group(items, attachments));
    GroupFlattens(archives, Group(mailboxes, Group(items, attachments)));
  }

  /** The four streams are consumed exactly: the generation fails only on a profile
      whose counts do not increase from vault stores to attachments; otherwise no
      stream runs dry, all end empty, and the totals are those of the profile. */
  method GenerateDataset(p: Profile, draws: nat -> nat -> nat) returns (stores: Option<seq<StoreShape>>)
    ensures stores.Some? <==> 0 < p.vaultStores <= p.archives <= p.mailboxes <= p.mailItems <= p.attachments
    ensures stores.Some? ==> MatchesProfile(p, stores.value)
  {
    var archiveCounts := Distribute(p.archives, p.vaultStores, draws(0));
    if archiveCounts.Err? { return None; }
    var mailboxCounts := Distribute(p.mailboxes, p.archives, draws(1));
    if mailboxCounts.Err? { return None; }
    var itemCounts := Distribute(p.mailItems, p.mailboxes, draws(2));
    if itemCounts.Err? { return None; }
    var attachmentCounts := Distribute(p.attachments, p.mailItems, draws(3));
    if attachmentCounts.Err? { return None; }
    var generated, usedArchives, usedMailboxes, usedItems :=
      ConsumeStreams(archiveCounts.value, mailboxCounts.value, itemCounts.value, attachmentCounts.value);
    assert usedArchives == p.archives && usedMailboxes == p.mailboxes && usedItems == p.mailItems;
    NestedGroupsMatch(p, archiveCounts.value, mailboxCounts.value, itemCounts.value, attachmentCounts.value);
    return Some(generated);
  }

  /** The nested loops over the streams, and how far each stream was used. */
  method ConsumeStreams(archives: seq<nat>, mailboxes: seq<nat>, items: seq<nat>, attachments: seq<nat>)
    returns (stores: seq<StoreShape>, usedArchives: nat, usedMailboxes: nat, usedItems: nat)
    requires Sum(archives) == |mailboxes| && Sum(mailboxes) == |items| && Sum(items) == |attachments|
    ensures stores == Group(archives, Group(mailboxes, Group(items, attachments)))
    ensures usedArchives == |mailboxes| && usedMailboxes == |items| && usedItems == |attachments|
  {
    stores := [];
    usedArchives, usedMailboxes, usedItems := 0, 0, 0;
    for i := 0 to |archives|
      invariant stores == Group(archives, Group(mailboxes, Group(items, attachments)))[..i]
      invariant usedArchives == Sum(archives[..i]) && usedArchives <= |mailboxes|
      invariant usedMailboxes == Sum(mailboxes[..usedArchives]) && usedMailboxes <= |items|
      invariant usedItems == Sum(items[..usedMailboxes])
    {
      SumStep(archives, i);
      PrefixSumsGrow(archives, i + 1, |archives|);
      var store;
      store, usedMailboxes, usedItems :=
        TakeArchives(mailboxes, items, attachments, usedArchives, usedMailboxes, usedItems, archives[i]);
      assert store == Chunk(archives, Group(mailboxes, Group(items, attachments)), i);
      TakeStep(Group(archives, Group(mailboxes, Group(items, attachments))), i);
      stores := stores + [store];
      usedArchives := usedArchives + archives[i];
    }
    TakeAll(archives);
    TakeAll(mailboxes);
    TakeAll(items);
  }
}
