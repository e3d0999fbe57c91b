/** Insertion by a numeric key, as Python's stable sort of an enumerated list. */
module StableSorting {
  import opened Prelude

  /** Sorted insertion by (key, index): the newest element has the largest index. */
  function Insert<T>(key: T -> nat, sorted: seq<T>, x: T): (r: seq<T>)
    ensures multiset(r) == multiset(sorted) + multiset{x}
  {
    if sorted == [] || key(sorted[|sorted| - 1]) <= key(x) then sorted + [x]
    else
      var n := |sorted| - 1;
      assert sorted == sorted[..n] + [sorted[n]];
      Insert(key, sorted[..n], x) + [sorted[n]]
  }

  /** sorted(enumerate(s), key = (key, index)) */
  function Sort<T>(key: T -> nat, s: seq<T>): (r: seq<T>)
    ensures multiset(r) == multiset(s)
  {
    if s == [] then []
    else
      var n := |s| - 1;
      assert s == s[..n] + [s[n]];
      Insert(key, Sort(key, s[..n]), s[n])
  }

  function WithKey<T>(key: T -> nat, k: nat): T -> bool {
    (x: T) => key(x) == k
  }

  ghost predicate Sorted<T>(key: T -> nat, s: seq<T>) {
    forall i, j :: 0 <= i < j < |s| ==> key(s[i]) <= key(s[j])
  }

  lemma {:induction false} InsertSorts<T>(key: T -> nat, sorted: seq<T>, x: T)
    requires Sorted(key, sorted)
    ensures Sorted(key, Insert(key, sorted, x))
  {
    var n := |sorted| - 1;
    if sorted != [] && key(sorted[n]) > key(x) {
      InsertSorts(key, sorted[..n], x);
      var shorter := Insert(key, sorted[..n], x);
      forall i | 0 <= i < |shorter| ensures key(shorter[i]) <= key(sorted[n]) {
        assert shorter[i] in multiset(sorted[..n]) + multiset{x};
      }
    }
  }

  /** Insertion keeps the order among equal keys and puts the newcomer last. */
  lemma {:induction false} InsertIsStable<T>(key: T -> nat, sorted: seq<T>, x: T, k: nat)
    requires Sorted(key, sorted)
    ensures Filter(WithKey(key, k), Insert(key, sorted, x))
         == Filter(WithKey(key, k), sorted) + (if key(x) == k then [x] else [])
  {
    var n := |sorted| - 1;
    if sorted == [] || key(sorted[n]) <= key(x) {
      FilterSnoc(WithKey(key, k), sorted, x);
    } else {
      var init, last := sorted[..n], sorted[n];
      InsertIsStable(key, init, x, k);
      FilterSnoc(WithKey(key, k), Insert(key, init, x), last);
      FilterSnoc(WithKey(key, k), init, last);
      assert sorted == init + [last];
      OneOfThemStays(Filter(WithKey(key, k), init), x, last, key(x) == k, key(last) == k);
    }
  }

  lemma OneOfThemStays<T>(s: seq<T>, x: T, y: T, first: bool, second: bool)
    requires !(first && second)
    ensures s + (if first then [x] else []) + (if second then [y] else [])
         == s + (if second then [y] else []) + (if first then [x] else [])
  {
    assert s + [] == s;
  }

  /** The result is sorted and, key by key, keeps the original order. */
  lemma {:induction false} SortIsStable<T>(key: T -> nat, s: seq<T>, k: nat)
    ensures Sorted(key, Sort(key, s))
    ensures Filter(WithKey(key, k), Sort(key, s)) == Filter(WithKey(key, k), s)
  {
    if s != [] {
      var n := |s| - 1;
      SortIsStable(key, s[..n], k);
      InsertSorts(key, Sort(key, s[..n]), s[n]);
      InsertIsStable(key, Sort(key, s[..n]), s[n], k);
    }
  }

  /** All elements of key below n, key by key, in original order. */
  function ByKey<T>(key: T -> nat, s: seq<T>, n: nat): seq<T> {
    if n == 0 then [] else ByKey(key, s, n - 1) + Filter(WithKey(key, n - 1), s)
  }

  lemma {:induction false} ByKeySnoc<T>(key: T -> nat, init: seq<T>, last: T, n: nat)
    requires forall i :: 0 <= i < |init| ==> key(init[i]) <= key(last)
    ensures ByKey(key, init + [last], n)
         == if n <= key(last) then ByKey(key, init, n) else ByKey(key, init, n) + [last]
  {
    if n > 0 {
      ByKeySnoc(key, init, last, n - 1);
      assert (init + [last])[..|init|] == init;
      if n - 1 > key(last) {
        NothingWithKey(key, init, n - 1);
      }
    }
  }

  lemma {:induction false} NothingWithKey<T>(key: T -> nat, s: seq<T>, k: nat)
    requires forall i :: 0 <= i < |s| ==> key(s[i]) != k
    ensures Filter(WithKey(key, k), s) == []
  {
    if s != [] {
      NothingWithKey(key, s[..|s| - 1], k);
    }
  }

  lemma {:induction false} SortedIsByKey<T>(key: T -> nat, s: seq<T>, bound: nat)
    requires Sorted(key, s)
    requires forall i :: 0 <= i < |s| ==> key(s[i]) < bound
    ensures s == ByKey(key, s, bound)
  {
    if s != [] {
      var init, last := s[..|s| - 1], s[|s| - 1];
      assert s == init + [last];
      SortedIsByKey(key, init, bound);
      ByKeySnoc(key, init, last, bound);
    } else {
      ByKeyOfNothing(key, bound);
    }
  }

  lemma {:induction false} ByKeyOfNothing<T>(key: T -> nat, n: nat)
    ensures ByKey(key, [], n) == []
  {
    if n > 0 {
      ByKeyOfNothing(key, n - 1);
    }
  }

  lemma {:induction false} ByKeyAgrees<T>(key: T -> nat, a: seq<T>, b: seq<T>, n: nat)
    requires forall k :: 0 <= k < n ==> Filter(WithKey(key, k), a) == Filter(WithKey(key, k), b)
    ensures ByKey(key, a, n) == ByKey(key, b, n)
  {
    if n > 0 {
      ByKeyAgrees(key, a, b, n - 1);
    }
  }

  lemma SortPair<T>(key: T -> nat, a: T, b: T)
    requires key(a) <= key(b)
    ensures Sort(key, [a, b]) == [a, b]
  {
    assert [a, b][..1] == [a] && [a][..0] == [];
    assert Sort(key, [a]) == [a];
  }

  lemma SortKeepsBound<T>(key: T -> nat, s: seq<T>, bound: nat)
    requires forall i :: 0 <= i < |s| ==> key(s[i]) < bound
    ensures forall i :: 0 <= i < |Sort(key, s)| ==> key(Sort(key, s)[i]) < bound
  {
    var sorted := Sort(key, s);
    forall i | 0 <= i < |sorted| ensures key(sorted[i]) < bound {
      assert sorted[i] in multiset(s);
    }
  }

  /** Sorting lists the elements key by key. */
  lemma SortIsByKey<T>(key: T -> nat, s: seq<T>, bound: nat)
    requires forall i :: 0 <= i < |s| ==> key(s[i]) < bound
    ensures Sort(key, s) == ByKey(key, s, bound)
  {
    SortKeepsBound(key, s, bound);
    SortIsStable(key, s, 0);
    SortedIsByKey(key, Sort(key, s), bound);
    forall k | 0 <= k < bound ensures Filter(WithKey(key, k), Sort(key, s)) == Filter(WithKey(key, k), s) {
      SortIsStable(key, s, k);
    }
    ByKeyAgrees(key, Sort(key, s), s, bound);
  }
}

/** The step registry: registration, execution order and lookup by name. */
module StepRegistries {
  import opened Prelude
  import opened StableSorting

  /** A class name: one of the six the source ranks, or any other. */
  datatype StepName =
    | DiscoverArchivesStep | ExtractItemsStep | TransformItemsStep
    | UploadItemsStep | VerifyItemsStep | FinalizeMigrationStep
    | OtherName(text: string)

  /** A pipeline step, by its class. A custom class may carry any name, even a
      ranked one, and two custom classes may share a name. */
  datatype Step =
    | DiscoverArchives | ExtractItems | TransformItems | UploadItems | VerifyItems | FinalizeMigration
    | Custom(classId: nat, name: StepName)

  function ClassName(step: Step): StepName {
    match step
    case DiscoverArchives => DiscoverArchivesStep
    case ExtractItems => ExtractItemsStep
    case TransformItems => TransformItemsStep
    case UploadItems => UploadItemsStep
    case VerifyItems => VerifyItemsStep
    case FinalizeMigration => FinalizeMigrationStep
    case Custom(_, name) => name
  }

  const LAST_RANK := 6

  /** The execution rank, which the source looks up by class name. */
  function RankOfName(name: StepName): (r: nat)
    ensures r <= LAST_RANK
  {
    match name
    case DiscoverArchivesStep => 0
    case ExtractItemsStep => 1
    case TransformItemsStep => 2
    case UploadItemsStep => 3
    case VerifyItemsStep => 4
    case FinalizeMigrationStep => 5
    case OtherName(_) => LAST_RANK
  }

  function Rank(step: Step): (r: nat)
    ensures r <= LAST_RANK
  {
    RankOfName(ClassName(step))
  }

  /** The execution order of the registered steps. */
  function Resolve(steps: seq<Step>): (r: seq<Step>)
    ensures multiset(r) == multiset(steps)
  {
    Sort(Rank, steps)
  }

  /** resolve() is a stable sort by rank: a permutation of the registered steps,
      in rank order, which keeps registration order within each rank. */
  lemma ResolveIsStableSort(steps: seq<Step>, rank: nat)
    ensures multiset(Resolve(steps)) == multiset(steps)
    ensures Sorted(Rank, Resolve(steps))
    ensures Filter(WithKey(Rank, rank), Resolve(steps)) == Filter(WithKey(Rank, rank), steps)
  {
    SortIsStable(Rank, steps, rank);
  }

  // ----- the canonical pipeline -----

  const CANONICAL: seq<Step> :=
    [DiscoverArchives, ExtractItems, TransformItems, UploadItems, VerifyItems, FinalizeMigration]

  /** The six migration steps are all registered, and no custom class borrows one of their names. */
  ghost predicate HasMigrationSteps(steps: seq<Step>) {
    && Distinct(steps)
    && (forall step :: step in CANONICAL ==> step in steps)
    && (forall step :: step in steps && step.Custom? ==> Rank(step) == LAST_RANK)
  }

  /** Of all steps with a canonical rank exactly one is registered. */
  lemma {:induction false} OneOfRank(steps: seq<Step>, rank: nat)
    requires rank < LAST_RANK && Distinct(steps)
    requires forall step :: step in steps && step.Custom? ==> Rank(step) == LAST_RANK
    ensures Filter(WithKey(Rank, rank), steps) == if CANONICAL[rank] in steps then [CANONICAL[rank]] else []
  {
    if steps != [] {
      var init, last := steps[..|steps| - 1], steps[|steps| - 1];
      assert steps == init + [last];
      OneOfRank(init, rank);
      RankIdentifies(last, rank);
      assert last !in init;
    }
  }

  lemma RankIdentifies(step: Step, rank: nat)
    requires rank < LAST_RANK && (step.Custom? ==> Rank(step) == LAST_RANK)
    ensures Rank(step) == rank <==> step == CANONICAL[rank]
  {
  }

  /** Whatever the registration order, the migration steps come first, in canonical
      order, and the custom steps follow in registration order. */
  lemma ResolveIsCanonical(steps: seq<Step>)
    requires HasMigrationSteps(steps)
    ensures Resolve(steps) == CANONICAL + Filter(WithKey(Rank, LAST_RANK), steps)
  {
    SortIsByKey(Rank, steps, LAST_RANK + 1);
    forall rank | 0 <= rank < LAST_RANK
      ensures Filter(WithKey(Rank, rank), steps) == [CANONICAL[rank]]
    {
      OneOfRank(steps, rank);
    }
    ByRankUnrolled(steps);
  }

  lemma ByRankUnrolled(steps: seq<Step>)
    requires forall rank :: 0 <= rank < LAST_RANK ==> Filter(WithKey(Rank, rank), steps) == [CANONICAL[rank]]
    ensures ByKey(Rank, steps, LAST_RANK + 1) == CANONICAL + Filter(WithKey(Rank, LAST_RANK), steps)
  {
    assert ByKey(Rank, steps, 0) == [];
    assert ByKey(Rank, steps, 1) == CANONICAL[..1];
    assert ByKey(Rank, steps, 2) == CANONICAL[..2];
    assert ByKey(Rank, steps, 3) == CANONICAL[..3];
    assert ByKey(Rank, steps, 4) == CANONICAL[..4];
    assert ByKey(Rank, steps, 5) == CANONICAL[..5];
    assert ByKey(Rank, steps, 6) == CANONICAL;
  }

  // ----- lookup by name -----

  function Named(name: StepName): Step -> bool {
    (step: Step) => ClassName(step) == name
  }

  /** The first position holding a step of that name. */
  function IndexOf(steps: seq<Step>, name: StepName): Option<nat> {
    FirstIndex(Named(name), steps)
  }

  /** Looking a step up by its own name finds it if and only if no earlier step shares the name. */
  lemma IndexOfFindsOwnPosition(steps: seq<Step>, i: nat)
    requires i < |steps|
    ensures IndexOf(steps, ClassName(steps[i])) == Some(i)
       <==> forall j :: 0 <= j < i ==> ClassName(steps[j]) != ClassName(steps[i])
  {
    var named := Named(ClassName(steps[i]));
    FirstIndexFinds(named, steps, i);
    assert forall j :: 0 <= j < i ==> (named(steps[j]) <==> ClassName(steps[j]) == ClassName(steps[i]));
  }

  /** The registry accepts two classes of one name, and then the lookup misses the second. */
  lemma SharedNameHidesALaterStep()
    ensures var first, second := Custom(0, OtherName("Audit")), Custom(1, OtherName("Audit"));
            Distinct([first, second]) && Resolve([first, second]) == [first, second]
            && IndexOf([first, second], ClassName(second)) == Some(0)
  {
    var first, second := Custom(0, OtherName("Audit")), Custom(1, OtherName("Audit"));
    SortPair(Rank, first, second);
    FirstIndexFinds(Named(OtherName("Audit")), [first, second], 0);
  }

  class StepRegistry {
    var steps: seq<Step>

    ghost predicate Valid()
      reads this
    {
      Distinct(steps)
    }

    constructor ()
      ensures Valid() && steps == []
    {
      steps := [];
    }

    /** Appends a step, or reports false where the source raises on a duplicate class. */
    method Register(step: Step) returns (ok: bool)
      requires Valid()
      modifies this
      ensures Valid()
      ensures ok <==> step !in old(steps)
      ensures steps == if ok then old(steps) + [step] else old(steps)
    {
      if step in steps {
        return false;
      }
      steps := steps + [step];
      return true;
    }

    /** Position of a named step in the resolved pipeline. */
    method IndexOfName(name: StepName) returns (index: Option<nat>)
      ensures index == IndexOf(Resolve(steps), name)
    {
      index := FindFirst(Named(name), Resolve(steps));
    }

    method Clear()
      modifies this
      ensures Valid() && steps == []
    {
      steps := [];
    }
  }
}
