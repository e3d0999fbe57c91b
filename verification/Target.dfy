/** The storionX target behind the mock adapter: an idempotent store keyed by source
    identifier, used by one caller or by interleaved workers. */
module Targets {
  import opened Prelude
  import opened Records

  // ----- stored documents -----

  /** The custom properties the adapter writes; optional ones only when they say something. */
  datatype StoredProperties = StoredProperties(
    base: Properties,
    archiveType: Option<ArchiveType>,
    itemType: Option<ItemType>,
    withoutMailbox: bool,
    folderPath: Option<string>,
    sourcePath: Option<string>,
    orphaned: bool,
    originalOwner: Option<string>,
    ownerStatus: Option<string>,
    legalHold: bool,
    legalHoldPolicy: Option<string>,
    journalMetadata: string)

  datatype Document = Document(
    id: string,
    filename: string,
    contentType: string,
    size: int,
    checksum: string,
    author: string,
    department: string,
    retentionPolicy: string,
    tags: seq<string>,
    properties: StoredProperties,
    createdAt: int,
    modifiedAt: int)

  function JournalText(pairs: seq<(string, string)>): string {
    if pairs == [] then ""
    else
      var n := |pairs| - 1;
      var pair := pairs[n].0 + "=" + pairs[n].1;
      if n == 0 then pair else JournalText(pairs[..n]) + ";" + pair
  }

  function MapDocument(d: TransformedDocument): Document {
    Document(
      d.sourceIdentifier, d.filename, d.contentType, d.sizeBytes, d.checksum,
      d.sender, d.department, d.retentionPolicy, d.tags,
      StoredProperties(
        d.properties,
        if d.archiveType != MailboxArchive then Some(d.archiveType) else None,
        if d.itemType != Email then Some(d.itemType) else None,
        d.mailboxAddress.None?,
        d.folderPath,
        d.sourcePath,
        d.isOrphaned,
        d.originalOwner,
        if d.ownerStatus != "resolved" then Some(d.ownerStatus) else None,
        d.legalHold,
        d.legalHoldPolicy,
        JournalText(d.journalMetadata)),
      d.createdAt, d.modifiedAt)
  }

  // ----- the target as a value -----

  /** refusals are keys the port turns down with an unsuccessful result of its own;
      the mock adapter has none. */
  datatype Target = Target(
    documents: map<string, Document>,
    uploaded: map<string, TransformedDocument>,
    refusals: map<string, string>)

  datatype Response =
    | Created
    | Replayed
    | ConflictRaised(existingChecksum: string)
    | Refused(message: string)

  function Verdict(t: Target, d: TransformedDocument): Response {
    var key := d.sourceIdentifier;
    if key in t.refusals then Refused(t.refusals[key])
    else if key in t.documents then
      if t.documents[key] != MapDocument(d) then ConflictRaised(t.documents[key].checksum) else Replayed
    else Created
  }

  predicate Accepts(t: Target, d: TransformedDocument) {
    Verdict(t, d).Created? || Verdict(t, d).Replayed?
  }

  /** A new key stores, the same document replays, a different one conflicts and stores nothing. */
  function Upload(t: Target, d: TransformedDocument): Target {
    var key := d.sourceIdentifier;
    match Verdict(t, d)
    case Created => t.(documents := t.documents[key := MapDocument(d)], uploaded := t.uploaded[key := d])
    case Replayed => t.(uploaded := t.uploaded[key := d])
    case _ => t
  }

  function Retrieve(t: Target, key: string): Option<TransformedDocument> {
    if key in t.documents then Lookup(t.uploaded, key) else None
  }

  /** The item result the upload step derives from a response. */
  function ResultFor(d: TransformedDocument, response: Response): ItemResult {
    var key := d.sourceIdentifier;
    match response
    case Created => ItemResult(key, true, Some(key), None, false, false)
    case Replayed => ItemResult(key, true, Some(key), None, true, false)
    case ConflictRaised(existing) =>
      ItemResult(key, false, None, Some(Conflict(key, existing, d.checksum)), false, false)
    case Refused(message) => ItemResult(key, false, None, Some(RefusedByTarget(message)), false, false)
  }

  function UploadResult(t: Target, d: TransformedDocument): ItemResult {
    ResultFor(d, Verdict(t, d))
  }

  // ----- the target seen key by key -----

  datatype Cell = Cell(document: Option<Document>, uploaded: Option<TransformedDocument>)

  function CellAt(t: Target, key: string): Cell {
    Cell(Lookup(t.documents, key), Lookup(t.uploaded, key))
  }

  // ----- what the stored form tells apart -----

  /** What the stored form forgets, blanked out. Of the mailbox address it keeps only
      whether there is one. */
  function StoredPart(d: TransformedDocument): TransformedDocument {
    d.(archiveName := [], mailboxAddress := if d.mailboxAddress.Some? then Some([]) else None, subject := [],
       recipients := [], ccRecipients := [], bccRecipients := [],
       attachmentFilenames := [], attachmentChecksums := [], attachmentSizes := [], journalMetadata := [])
  }

  /** Two documents are stored alike if and only if they agree in everything the
      stored form does not forget, and their journal metadata reads the same. */
  lemma StoredAlikeExactlyWhen(a: TransformedDocument, b: TransformedDocument)
    ensures MapDocument(a) == MapDocument(b)
       <==> StoredPart(a) == StoredPart(b) && JournalText(a.journalMetadata) == JournalText(b.journalMetadata)
  {
    if MapDocument(a) == MapDocument(b) {
      StoredFieldsAgree(a, b);
    }
  }

  lemma StoredFieldsAgree(a: TransformedDocument, b: TransformedDocument)
    requires MapDocument(a) == MapDocument(b)
    ensures StoredPart(a) == StoredPart(b) && JournalText(a.journalMetadata) == JournalText(b.journalMetadata)
  {
    var pa, pb := MapDocument(a).properties, MapDocument(b).properties;
    assert pa.archiveType == pb.archiveType && pa.itemType == pb.itemType && pa.ownerStatus == pb.ownerStatus;
  }

  /** No key holds an equals sign, and neither keys nor values hold a semicolon. */
  ghost predicate PlainPairs(pairs: seq<(string, string)>) {
    forall i :: 0 <= i < |pairs| ==> '=' !in pairs[i].0 && ';' !in pairs[i].0 && ';' !in pairs[i].1
  }

  /** Position i holds the last c of the text. */
  predicate LastOf(s: string, c: char, i: nat) {
    i < |s| && s[i] == c && forall j :: i < j < |s| ==> s[j] != c
  }

  predicate FirstOf(s: string, c: char, i: nat) {
    i < |s| && s[i] == c && forall j :: 0 <= j < i ==> s[j] != c
  }

  lemma LastOfJoined(x: string, p: string, c: char)
    requires c !in p
    ensures LastOf(x + [c] + p, c, |x|)
  {
    forall j | |x| < j < |x + [c] + p| ensures (x + [c] + p)[j] != c {
      assert (x + [c] + p)[j] == p[j - |x| - 1];
    }
  }

  lemma FirstOfJoined(k: string, v: string, c: char)
    requires c !in k
    ensures FirstOf(k + [c] + v, c, |k|)
  {
    forall j | 0 <= j < |k| ensures (k + [c] + v)[j] != c {
      assert (k + [c] + v)[j] == k[j];
    }
  }

  lemma JoinedParts(x: string, p: string, c: char)
    ensures x == (x + [c] + p)[..|x|] && p == (x + [c] + p)[|x| + 1..]
  {
  }

  lemma SplitAtLast(x: string, p: string, y: string, q: string, c: char)
    requires x + [c] + p == y + [c] + q && c !in p && c !in q
    ensures x == y && p == q
  {
    LastOfJoined(x, p, c);
    LastOfJoined(y, q, c);
    assert |x| == |y|;
    JoinedParts(x, p, c);
    JoinedParts(y, q, c);
  }

  lemma SplitAtFirst(k: string, v: string, l: string, w: string, c: char)
    requires k + [c] + v == l + [c] + w && c !in k && c !in l
    ensures k == l && v == w
  {
    FirstOfJoined(k, v, c);
    FirstOfJoined(l, w, c);
    assert |k| == |l|;
    JoinedParts(k, v, c);
    JoinedParts(l, w, c);
  }

  function PairText(pair: (string, string)): string {
    pair.0 + ['='] + pair.1
  }

  lemma JournalTextSnoc(pairs: seq<(string, string)>)
    requires pairs != []
    ensures var n := |pairs| - 1;
            JournalText(pairs) == if n == 0 then PairText(pairs[n])
                                  else JournalText(pairs[..n]) + [';'] + PairText(pairs[n])
  {
    assert "=" == ['='] && ";" == [';'];
  }

  lemma PlainPairText(pairs: seq<(string, string)>)
    requires PlainPairs(pairs) && pairs != []
    ensures ';' !in PairText(pairs[|pairs| - 1]) && PairText(pairs[|pairs| - 1]) != []
    ensures |pairs| > 1 ==> ';' in JournalText(pairs)
  {
    JournalTextSnoc(pairs);
    if |pairs| > 1 {
      assert JournalText(pairs)[|JournalText(pairs[..|pairs| - 1])|] == ';';
    }
  }

  /** Among plain pairs, journal metadata that read the same are the same. */
  lemma {:induction false} PlainJournalsReadApart(a: seq<(string, string)>, b: seq<(string, string)>)
    requires PlainPairs(a) && PlainPairs(b) && JournalText(a) == JournalText(b)
    ensures a == b
  {
    if a != [] {
      JournalTextSnoc(a);
      PlainPairText(a);
    }
    if b != [] {
      JournalTextSnoc(b);
      PlainPairText(b);
    }
    if a != [] && b != [] {
      PlainJournalsEndAlike(a, b);
    }
  }

  lemma {:induction false} PlainJournalsEndAlike(a: seq<(string, string)>, b: seq<(string, string)>)
    requires PlainPairs(a) && PlainPairs(b) && JournalText(a) == JournalText(b) && a != [] && b != []
    ensures a == b
  {
    var m, n := |a| - 1, |b| - 1;
    JournalTextSnoc(a);
    JournalTextSnoc(b);
    PlainPairText(a);
    PlainPairText(b);
    if m > 0 && n > 0 {
      SplitAtLast(JournalText(a[..m]), PairText(a[m]), JournalText(b[..n]), PairText(b[n]), ';');
      PlainJournalsEndAlike(a[..m], b[..n]);
    }
    SplitAtFirst(a[m].0, a[m].1, b[n].0, b[n].1, '=');
    assert a == a[..m] + [a[m]] && b == b[..n] + [b[n]];
  }

  /** Different journal metadata can read the same, so not every difference is kept. */
  lemma JournalTextIsAmbiguous()
    ensures var one, two := [("a", "b;c=d")], [("a", "b"), ("c", "d")];
            one != two && JournalText(one) == JournalText(two)
  {
    var one, two := [("a", "b;c=d")], [("a", "b"), ("c", "d")];
    assert |one| != |two|;
    assert two[..1] == [("a", "b")];
    assert JournalText(one) == "a" + "=" + "b;c=d" == "a=b;c=d";
    assert JournalText(two[..1]) == "a" + "=" + "b";
    assert JournalText(two) == "a" + "=" + "b" + ";" + ("c" + "=" + "d") == "a=b;c=d";
  }

  /** A second upload under a stored document's key conflicts if and only if the two
      documents differ in what the stored form keeps. */
  lemma ConflictsExactlyWhen(t: Target, first: TransformedDocument, second: TransformedDocument)
    requires CellAt(t, first.sourceIdentifier).document == Some(MapDocument(first))
    requires second.sourceIdentifier == first.sourceIdentifier && first.sourceIdentifier !in t.refusals
    ensures Verdict(t, second).ConflictRaised?
       <==> StoredPart(first) != StoredPart(second)
            || JournalText(first.journalMetadata) != JournalText(second.journalMetadata)
  {
    StoredAlikeExactlyWhen(first, second);
  }

  // ----- one caller, in order -----

  function UploadAll(t: Target, docs: seq<TransformedDocument>): Target {
    if docs == [] then t else Upload(UploadAll(t, docs[..|docs| - 1]), docs[|docs| - 1])
  }

  function UploadResults(t: Target, docs: seq<TransformedDocument>): (r: seq<ItemResult>)
    ensures |r| == |docs|
  {
    if docs == [] then []
    else
      var n := |docs| - 1;
      UploadResults(t, docs[..n]) + [UploadResult(UploadAll(t, docs[..n]), docs[n])]
  }

  // ----- targets with the same cells -----

  lemma SameCellsSameTarget(a: Target, b: Target)
    requires a.refusals == b.refusals
    requires forall key :: CellAt(a, key) == CellAt(b, key)
    ensures a == b
  {
    forall key
      ensures Lookup(a.documents, key) == Lookup(b.documents, key)
      ensures Lookup(a.uploaded, key) == Lookup(b.uploaded, key)
    {
      assert CellAt(a, key) == CellAt(b, key);
    }
    SameLookups(a.documents, b.documents);
    SameLookups(a.uploaded, b.uploaded);
  }

  lemma SameLookups<V>(a: map<string, V>, b: map<string, V>)
    requires forall key :: Lookup(a, key) == Lookup(b, key)
    ensures a == b
  {
    forall key ensures key in a <==> key in b {
      assert Lookup(a, key) == Lookup(b, key);
    }
    forall key | key in a ensures a[key] == b[key] {
      assert Lookup(a, key) == Lookup(b, key);
    }
  }

  function Keys(docs: seq<TransformedDocument>): set<string> {
    set d | d in docs :: d.sourceIdentifier
  }

  ghost predicate DistinctKeys(docs: seq<TransformedDocument>) {
    forall i, j :: 0 <= i < j < |docs| ==> docs[i].sourceIdentifier != docs[j].sourceIdentifier
  }

  /** What uploading d once, on top of t, does to d's own key. */
  ghost predicate Complete(t: Target, after: Target, d: TransformedDocument) {
    CellAt(after, d.sourceIdentifier)
    == if Accepts(t, d) then Cell(Some(MapDocument(d)), Some(d)) else CellAt(t, d.sourceIdentifier)
  }

  /** An interrupted upload of d: nothing, the document without its payload, or both. */
  ghost predicate Partial(t: Target, after: Target, d: TransformedDocument) {
    var cell := CellAt(after, d.sourceIdentifier);
    || cell == CellAt(t, d.sourceIdentifier)
    || (Accepts(t, d) && cell == Cell(Some(MapDocument(d)), CellAt(t, d.sourceIdentifier).uploaded))
    || (Accepts(t, d) && cell == Cell(Some(MapDocument(d)), Some(d)))
  }

  /** Only the keys of the batch may differ. */
  ghost predicate Frame(t: Target, after: Target, docs: seq<TransformedDocument>) {
    && after.refusals == t.refusals
    && forall key :: key !in Keys(docs) ==> CellAt(after, key) == CellAt(t, key)
  }

  /** Any state an interrupted batch may leave behind. */
  ghost predicate Interrupted(t: Target, after: Target, docs: seq<TransformedDocument>) {
    Frame(t, after, docs) && forall d :: d in docs ==> Partial(t, after, d)
  }

  ghost predicate AllComplete(t: Target, after: Target, docs: seq<TransformedDocument>) {
    Frame(t, after, docs) && forall d :: d in docs ==> Complete(t, after, d)
  }

  lemma VerdictOfCell(a: Target, b: Target, d: TransformedDocument)
    requires a.refusals == b.refusals
    requires CellAt(a, d.sourceIdentifier).document == CellAt(b, d.sourceIdentifier).document
    ensures Verdict(a, d) == Verdict(b, d)
  {
  }

  lemma UploadOne(t: Target, d: TransformedDocument)
    ensures Upload(t, d).refusals == t.refusals
    ensures Complete(t, Upload(t, d), d)
    ensures forall key :: key != d.sourceIdentifier ==> CellAt(Upload(t, d), key) == CellAt(t, key)
  {
  }

  lemma KeysSnoc(docs: seq<TransformedDocument>, d: TransformedDocument)
    ensures Keys(docs + [d]) == Keys(docs) + {d.sourceIdentifier}
  {
  }

  lemma FreshKey(docs: seq<TransformedDocument>)
    requires docs != [] && DistinctKeys(docs)
    ensures docs[|docs| - 1].sourceIdentifier !in Keys(docs[..|docs| - 1])
  {
    var n := |docs| - 1;
    forall d | d in docs[..n] ensures d.sourceIdentifier != docs[n].sourceIdentifier {
      var i :| 0 <= i < n && docs[..n][i] == d;
      assert docs[i] == d;
    }
  }

  lemma {:induction false} UploadAllCompletes(t: Target, docs: seq<TransformedDocument>)
    requires DistinctKeys(docs)
    ensures AllComplete(t, UploadAll(t, docs), docs)
  {
    if docs != [] {
      var n := |docs| - 1;
      var init, last := docs[..n], docs[n];
      assert docs == init + [last];
      UploadAllCompletes(t, init);
      FreshKey(docs);
      KeysSnoc(init, last);
      var before := UploadAll(t, init);
      UploadOne(before, last);
      VerdictOfCell(t, before, last);
      forall d | d in docs ensures Complete(t, UploadAll(t, docs), d) {
        if d in init {
          assert d.sourceIdentifier in Keys(init);
          assert Complete(t, before, d);
        }
      }
    }
  }

  /** Each document is judged as if it came first. */
  lemma {:induction false} UploadResultsAreIndependent(t: Target, docs: seq<TransformedDocument>, i: nat)
    requires DistinctKeys(docs) && i < |docs|
    ensures UploadResults(t, docs)[i] == UploadResult(t, docs[i])
  {
    var n := |docs| - 1;
    if i < n {
      UploadResultsAreIndependent(t, docs[..n], i);
    } else {
      UploadAllCompletes(t, docs[..n]);
      FreshKey(docs);
      VerdictOfCell(t, UploadAll(t, docs[..n]), docs[n]);
    }
  }

  lemma AllCompleteIsUploadAll(t: Target, after: Target, docs: seq<TransformedDocument>)
    requires DistinctKeys(docs) && AllComplete(t, after, docs)
    ensures after == UploadAll(t, docs)
  {
    UploadAllCompletes(t, docs);
    forall key ensures CellAt(after, key) == CellAt(UploadAll(t, docs), key) {
      if key in Keys(docs) {
        var d :| d in docs && d.sourceIdentifier == key;
        assert Complete(t, after, d) && Complete(t, UploadAll(t, docs), d);
      }
    }
    SameCellsSameTarget(after, UploadAll(t, docs));
  }

  // ----- interruption and repetition -----

  /** An interrupted batch changes no document's acceptance. */
  lemma AcceptanceIsStable(t: Target, mid: Target, d: TransformedDocument)
    requires mid.refusals == t.refusals && Partial(t, mid, d)
    ensures Accepts(mid, d) == Accepts(t, d)
  {
  }

  lemma InterruptedTwice(t: Target, mid: Target, after: Target, docs: seq<TransformedDocument>)
    requires Interrupted(t, mid, docs) && Interrupted(mid, after, docs)
    ensures Interrupted(t, after, docs)
  {
    forall d | d in docs ensures Partial(t, after, d) {
      assert Partial(t, mid, d) && Partial(mid, after, d);
      AcceptanceIsStable(t, mid, d);
    }
  }

  /** Completing an interrupted batch gives what one clean batch gives. */
  lemma RepetitionCompletes(t: Target, mid: Target, docs: seq<TransformedDocument>)
    requires DistinctKeys(docs) && Interrupted(t, mid, docs)
    ensures UploadAll(mid, docs) == UploadAll(t, docs)
  {
    UploadAllCompletes(mid, docs);
    var after := UploadAll(mid, docs);
    forall d | d in docs ensures Complete(t, after, d) {
      assert Partial(t, mid, d) && Complete(mid, after, d);
      AcceptanceIsStable(t, mid, d);
    }
    AllCompleteIsUploadAll(t, after, docs);
  }

  /** Interrupting a batch that is complete already changes nothing. */
  lemma CompleteStaysComplete(t: Target, after: Target, docs: seq<TransformedDocument>)
    requires DistinctKeys(docs) && Interrupted(UploadAll(t, docs), after, docs)
    ensures after == UploadAll(t, docs)
  {
    var complete := UploadAll(t, docs);
    UploadAllCompletes(t, docs);
    forall d | d in docs ensures Complete(t, after, d) {
      assert Complete(t, complete, d) && Partial(complete, after, d);
      AcceptanceIsStable(t, complete, d);
    }
    AllCompleteIsUploadAll(t, after, docs);
  }

  lemma {:induction false} PrefixIsInterruption(t: Target, docs: seq<TransformedDocument>, n: nat)
    requires DistinctKeys(docs) && n <= |docs|
    ensures Interrupted(t, UploadAll(t, docs[..n]), docs)
  {
    var done := docs[..n];
    UploadAllCompletes(t, done);
    assert forall d :: d in done ==> d in docs;
    forall key | key !in Keys(docs) ensures key !in Keys(done) {
    }
    forall d | d in docs ensures Partial(t, UploadAll(t, done), d) {
      if d.sourceIdentifier in Keys(done) {
        var e :| e in done && e.sourceIdentifier == d.sourceIdentifier;
        SameKeySameDocument(docs, d, e);
      }
    }
  }

  lemma SameKeySameDocument(docs: seq<TransformedDocument>, d: TransformedDocument, e: TransformedDocument)
    requires DistinctKeys(docs) && d in docs && e in docs && d.sourceIdentifier == e.sourceIdentifier
    ensures d == e
  {
    var i :| 0 <= i < |docs| && docs[i] == d;
    var j :| 0 <= j < |docs| && docs[j] == e;
  }

  // ----- interleaved workers -----

  /** One worker per document: it looks its key up, stores the document, then
      remembers the payload. The adapter holds a lock around the three; here
      they interleave with the other workers' actions. */
  datatype Worker = Idle | Looked(response: Response) | Stored | Done(result: ItemResult)

  datatype Pool = Pool(target: Target, workers: seq<Worker>)

  function StartPool(t: Target, n: nat): Pool {
    Pool(t, seq(n, _ => Idle))
  }

  /** The next action of the worker that holds document d. */
  function WorkerStep(t: Target, d: TransformedDocument, w: Worker): (Target, Worker) {
    var key := d.sourceIdentifier;
    match w
    case Idle => (t, Looked(Verdict(t, d)))
    case Looked(Created) => (t.(documents := t.documents[key := MapDocument(d)]), Stored)
    case Looked(Replayed) => (t.(uploaded := t.uploaded[key := d]), Done(ResultFor(d, Replayed)))
    case Looked(failure) => (t, Done(ResultFor(d, failure)))
    case Stored => (t.(uploaded := t.uploaded[key := d]), Done(ResultFor(d, Created)))
    case Done(_) => (t, w)
  }

  function PoolStep(docs: seq<TransformedDocument>, p: Pool, i: nat): (r: Pool)
    requires |p.workers| == |docs|
    ensures |r.workers| == |docs|
  {
    if i >= |docs| then p
    else
      var (target, worker) := WorkerStep(p.target, docs[i], p.workers[i]);
      Pool(target, p.workers[i := worker])
  }

  /** A schedule names, action by action, the worker that moves next. */
  function RunPool(docs: seq<TransformedDocument>, p: Pool, schedule: seq<nat>): (r: Pool)
    requires |p.workers| == |docs|
    ensures |r.workers| == |docs|
  {
    if schedule == [] then p
    else PoolStep(docs, RunPool(docs, p, schedule[..|schedule| - 1]), schedule[|schedule| - 1])
  }

  predicate AllDone(p: Pool) {
    forall i :: 0 <= i < |p.workers| ==> p.workers[i].Done?
  }

  function PoolResults(p: Pool): (r: seq<ItemResult>)
    requires AllDone(p)
    ensures |r| == |p.workers|
  {
    seq(|p.workers|, i requires 0 <= i < |p.workers| => p.workers[i].result)
  }

  /** What a worker's position says about its key, relative to the target t at the start. */
  ghost predicate WorkerInv(t: Target, now: Target, d: TransformedDocument, w: Worker) {
    var before, cell := CellAt(t, d.sourceIdentifier), CellAt(now, d.sourceIdentifier);
    match w
    case Idle => cell == before
    case Looked(response) => cell == before && response == Verdict(t, d)
    case Stored => Verdict(t, d).Created? && cell == Cell(Some(MapDocument(d)), before.uploaded)
    case Done(result) => Complete(t, now, d) && result == UploadResult(t, d)
  }

  ghost predicate PoolInv(t: Target, docs: seq<TransformedDocument>, p: Pool) {
    && |p.workers| == |docs|
    && Frame(t, p.target, docs)
    && forall i :: 0 <= i < |docs| ==> WorkerInv(t, p.target, docs[i], p.workers[i])
  }

  lemma WorkerStepKeepsOwn(t: Target, now: Target, d: TransformedDocument, w: Worker)
    requires now.refusals == t.refusals && WorkerInv(t, now, d, w)
    ensures var (after, w') := WorkerStep(now, d, w);
            WorkerInv(t, after, d, w') && after.refusals == t.refusals
  {
    if w.Idle? {
      VerdictOfCell(t, now, d);
    }
  }

  lemma WorkerStepKeepsOthers(now: Target, d: TransformedDocument, w: Worker, key: string)
    requires key != d.sourceIdentifier
    ensures CellAt(WorkerStep(now, d, w).0, key) == CellAt(now, key)
  {
  }

  lemma WorkerInvOfCell(t: Target, a: Target, b: Target, d: TransformedDocument, w: Worker)
    requires WorkerInv(t, a, d, w) && CellAt(a, d.sourceIdentifier) == CellAt(b, d.sourceIdentifier)
    ensures WorkerInv(t, b, d, w)
  {
  }

  lemma PoolStepKeeps(t: Target, docs: seq<TransformedDocument>, p: Pool, i: nat)
    requires DistinctKeys(docs) && PoolInv(t, docs, p)
    ensures PoolInv(t, docs, PoolStep(docs, p, i))
  {
    if i < |docs| {
      var after := PoolStep(docs, p, i);
      var d, w := docs[i], p.workers[i];
      WorkerStepKeepsOwn(t, p.target, d, w);
      forall key | key !in Keys(docs) ensures CellAt(after.target, key) == CellAt(t, key) {
        WorkerStepKeepsOthers(p.target, d, w, key);
      }
      forall j | 0 <= j < |docs| ensures WorkerInv(t, after.target, docs[j], after.workers[j]) {
        if j != i {
          WorkerStepKeepsOthers(p.target, d, w, docs[j].sourceIdentifier);
          WorkerInvOfCell(t, p.target, after.target, docs[j], p.workers[j]);
        }
      }
    }
  }

  lemma {:induction false} PoolKeepsInv(t: Target, docs: seq<TransformedDocument>, p: Pool, schedule: seq<nat>)
    requires DistinctKeys(docs) && PoolInv(t, docs, p)
    ensures PoolInv(t, docs, RunPool(docs, p, schedule))
  {
    if schedule != [] {
      PoolKeepsInv(t, docs, p, schedule[..|schedule| - 1]);
      PoolStepKeeps(t, docs, RunPool(docs, p, schedule[..|schedule| - 1]), schedule[|schedule| - 1]);
    }
  }

  lemma StartHasInv(t: Target, docs: seq<TransformedDocument>)
    ensures PoolInv(t, docs, StartPool(t, |docs|))
  {
  }

  /** Schedule independence: whatever the interleaving of lookups and stores, once
      every worker is done the target and the results, in submission order, are
      those of the sequential loop. */
  lemma ScheduleIndependence(t: Target, docs: seq<TransformedDocument>, schedule: seq<nat>)
    requires DistinctKeys(docs)
    requires AllDone(RunPool(docs, StartPool(t, |docs|), schedule))
    ensures var p := RunPool(docs, StartPool(t, |docs|), schedule);
            p.target == UploadAll(t, docs) && PoolResults(p) == UploadResults(t, docs)
  {
    var p := RunPool(docs, StartPool(t, |docs|), schedule);
    StartHasInv(t, docs);
    PoolKeepsInv(t, docs, StartPool(t, |docs|), schedule);
    DonePoolIsUploadAll(t, docs, p);
  }

  lemma DonePoolIsUploadAll(t: Target, docs: seq<TransformedDocument>, p: Pool)
    requires DistinctKeys(docs) && PoolInv(t, docs, p) && AllDone(p)
    ensures p.target == UploadAll(t, docs) && PoolResults(p) == UploadResults(t, docs)
  {
    forall d | d in docs ensures Complete(t, p.target, d) {
      var i :| 0 <= i < |docs| && docs[i] == d;
      assert WorkerInv(t, p.target, docs[i], p.workers[i]);
    }
    AllCompleteIsUploadAll(t, p.target, docs);
    forall i | 0 <= i < |docs| ensures PoolResults(p)[i] == UploadResults(t, docs)[i] {
      assert WorkerInv(t, p.target, docs[i], p.workers[i]);
      UploadResultsAreIndependent(t, docs, i);
    }
  }

  /** Stopping the workers anywhere leaves an interrupted batch. */
  lemma AnyScheduleInterrupts(t: Target, docs: seq<TransformedDocument>, schedule: seq<nat>)
    requires DistinctKeys(docs)
    ensures Interrupted(t, RunPool(docs, StartPool(t, |docs|), schedule).target, docs)
  {
    var p := RunPool(docs, StartPool(t, |docs|), schedule);
    StartHasInv(t, docs);
    PoolKeepsInv(t, docs, StartPool(t, |docs|), schedule);
    forall d | d in docs ensures Partial(t, p.target, d) {
      var i :| 0 <= i < |docs| && docs[i] == d;
      assert WorkerInv(t, p.target, docs[i], p.workers[i]);
    }
  }

  // ----- the adapter object -----

  /** The upload session: what was attached to it, and whether it was marked completed. */
  datatype Session = Session(documents: seq<Document>, completed: bool)

  /** A document joins the active session, which its upload creates when there is none. */
  function Attach(session: Option<Session>, document: Document): Option<Session> {
    var active := if session.Some? then session.value else Session([], false);
    Some(active.(documents := active.documents + [document]))
  }

  function MarkCompleted(session: Option<Session>): Option<Session> {
    if session.Some? then Some(session.value.(completed := true)) else None
  }

  /** The session after a sequential upload: each created document joins it. */
  function SessionAfter(t: Target, docs: seq<TransformedDocument>, session: Option<Session>): Option<Session> {
    if docs == [] then session
    else
      var n := |docs| - 1;
      var before := SessionAfter(t, docs[..n], session);
      if Verdict(UploadAll(t, docs[..n]), docs[n]).Created? then Attach(before, MapDocument(docs[n])) else before
  }

  function DocumentsIn(session: Option<Session>): seq<Document> {
    if session.Some? then session.value.documents else []
  }

  /** The target refuses no such key and holds nothing under it. */
  function NewTo(t: Target): TransformedDocument -> bool {
    (d: TransformedDocument) => d.sourceIdentifier !in t.refusals && d.sourceIdentifier !in t.documents
  }

  lemma AttachedOnce(base: seq<Document>, earlier: seq<TransformedDocument>, session: Option<Session>,
                     d: TransformedDocument, created: bool)
    requires DocumentsIn(session) == base + Map(MapDocument, earlier)
    ensures DocumentsIn(if created then Attach(session, MapDocument(d)) else session)
            == base + Map(MapDocument, earlier + if created then [d] else [])
  {
    if created {
      assert Map(MapDocument, earlier + [d]) == Map(MapDocument, earlier) + [MapDocument(d)];
    } else {
      assert earlier + [] == earlier;
    }
  }

  lemma CreatedExactlyWhenNew(t: Target, docs: seq<TransformedDocument>)
    requires docs != [] && DistinctKeys(docs)
    ensures var n := |docs| - 1; Verdict(UploadAll(t, docs[..n]), docs[n]).Created? <==> NewTo(t)(docs[n])
  {
    var n := |docs| - 1;
    UploadAllCompletes(t, docs[..n]);
    FreshKey(docs);
    VerdictOfCell(t, UploadAll(t, docs[..n]), docs[n]);
  }

  /** Uploading distinct documents adds to the session the stored forms of those that are new to
      the target, in order and each once, and completes no session. */
  lemma {:induction false} SessionHoldsNewDocuments(t: Target, docs: seq<TransformedDocument>, session: Option<Session>)
    requires DistinctKeys(docs)
    ensures var after := SessionAfter(t, docs, session);
            && DocumentsIn(after) == DocumentsIn(session) + Map(MapDocument, Filter(NewTo(t), docs))
            && (after.Some? <==> session.Some? || Filter(NewTo(t), docs) != [])
            && (after.Some? ==> after.value.completed == (session.Some? && session.value.completed))
  {
    if docs == [] {
      assert DocumentsIn(session) + [] == DocumentsIn(session);
    } else {
      var n := |docs| - 1;
      SessionHoldsNewDocuments(t, docs[..n], session);
      CreatedExactlyWhenNew(t, docs);
      AttachedOnce(DocumentsIn(session), Filter(NewTo(t), docs[..n]), SessionAfter(t, docs[..n], session), docs[n],
                   NewTo(t)(docs[n]));
    }
  }

  class TargetAdapter {
    var documents: map<string, Document>
    var uploaded: map<string, TransformedDocument>
    var session: Option<Session>
    const refusals: map<string, string>

    function State(): Target
      reads this
    {
      Target(documents, uploaded, refusals)
    }

    constructor (refusals: map<string, string>)
      ensures State() == Target(map[], map[], refusals) && session == None
    {
      documents, uploaded, session, this.refusals := map[], map[], None, refusals;
    }

    method UploadArchivedFile(d: TransformedDocument) returns (response: Response)
      modifies this
      ensures response == Verdict(old(State()), d)
      ensures State() == Upload(old(State()), d)
      ensures session == if response.Created? then Attach(old(session), MapDocument(d)) else old(session)
    {
      var key := d.sourceIdentifier;
      if key in refusals {
        return Refused(refusals[key]);
      }
      var stored := MapDocument(d);
      if key in documents {
        if documents[key] != stored {
          return ConflictRaised(documents[key].checksum);
        }
        uploaded := uploaded[key := d];
        return Replayed;
      }
      documents := documents[key := stored];
      uploaded := uploaded[key := d];
      session := Attach(session, stored);
      return Created;
    }

    /** Marks the active session, if there is one, as completed. */
    method FinalizeJob()
      modifies this`session
      ensures session == MarkCompleted(old(session))
    {
      session := MarkCompleted(session);
    }

    method GetUploadedDocument(key: string) returns (d: Option<TransformedDocument>)
      ensures d == Retrieve(State(), key)
    {
      if key !in documents {
        return None;
      }
      return Lookup(uploaded, key);
    }

    /** One action of one worker. */
    method Act(d: TransformedDocument, w: Worker) returns (w': Worker)
      modifies this
      ensures (State(), w') == WorkerStep(old(State()), d, w)
      ensures session == if w.Stored? then Attach(old(session), MapDocument(d)) else old(session)
    {
      var key := d.sourceIdentifier;
      match w
      case Idle =>
        w' := Looked(Verdict(State(), d));
      case Looked(response) =>
        match response {
          case Created =>
            documents := documents[key := MapDocument(d)];
            w' := Stored;
          case Replayed =>
            uploaded := uploaded[key := d];
            w' := Done(ResultFor(d, response));
          case _ =>
            w' := Done(ResultFor(d, response));
        }
      case Stored =>
        uploaded := uploaded[key := d];
        session := Attach(session, MapDocument(d));
        w' := Done(ResultFor(d, Created));
      case Done(_) =>
        w' := w;
    }
  }
}
