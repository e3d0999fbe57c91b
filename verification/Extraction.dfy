/** Discovery and extraction: nested loops over the source, seen as filters over flat lists. */
module Extractions {
  import opened Prelude
  import opened Records
  import opened FolderPaths

  // ----- discovery -----

  function ArchivesOf(stores: seq<VaultStore>): seq<Archive> {
    if stores == [] then [] else ArchivesOf(stores[..|stores| - 1]) + stores[|stores| - 1].archives
  }

  /** Membership in an optional list; no list allows everything. */
  predicate Allowed(names: Option<seq<string>>, name: string) {
    names.None? || name in names.value
  }

  function Discover(stores: seq<VaultStore>, config: Configuration): Discovery {
    Discovery(
      Map((s: VaultStore) => s.name, stores),
      Filter((n: string) => Allowed(config.archiveNames, n), Map((a: Archive) => a.name, ArchivesOf(stores))))
  }

  // ----- selecting the vault stores again, by name -----

  /** The dictionary from names to stores; of stores sharing a name the last one wins. */
  function StoresByName(stores: seq<VaultStore>): (m: map<string, VaultStore>)
    ensures forall n :: n in m ==> m[n].name == n
    ensures forall n :: n in m ==> m[n] in stores
  {
    if stores == [] then map[]
    else
      var last := stores[|stores| - 1];
      StoresByName(stores[..|stores| - 1])[last.name := last]
  }

  function Pick(m: map<string, VaultStore>, names: seq<string>): seq<VaultStore> {
    if names == [] then []
    else
      var n := |names| - 1;
      Pick(m, names[..n]) + if names[n] in m then [m[names[n]]] else []
  }

  function SelectStores(stores: seq<VaultStore>, names: seq<string>): seq<VaultStore> {
    if names == [] then stores else Pick(StoresByName(stores), names)
  }

  lemma {:induction false} PickedIndex(m: map<string, VaultStore>, names: seq<string>, name: string)
    requires forall n :: n in m ==> m[n].name == n
    ensures name in StoresByName(Pick(m, names)) <==> name in names && name in m
    ensures name in names && name in m ==> StoresByName(Pick(m, names))[name] == m[name]
  {
    if names != [] {
      var k := |names| - 1;
      PickedIndex(m, names[..k], name);
      assert names == names[..k] + [names[k]];
      var picked := Pick(m, names);
      if names[k] in m {
        assert picked[..|picked| - 1] == Pick(m, names[..k]);
      } else {
        assert picked == Pick(m, names[..k]);
      }
    }
  }

  lemma {:induction false} PickAgrees(m: map<string, VaultStore>, m': map<string, VaultStore>, names: seq<string>)
    requires forall n :: n in names ==> (n in m <==> n in m')
    requires forall n :: n in names && n in m ==> m[n] == m'[n]
    ensures Pick(m, names) == Pick(m', names)
  {
    if names != [] {
      assert names == names[..|names| - 1] + [names[|names| - 1]];
      PickAgrees(m, m', names[..|names| - 1]);
    }
  }

  /** Selecting a second time, as the transformation does, changes nothing. */
  lemma SelectionIsIdempotent(stores: seq<VaultStore>, names: seq<string>)
    ensures SelectStores(SelectStores(stores, names), names) == SelectStores(stores, names)
  {
    if names != [] {
      var m := StoresByName(stores);
      forall n | n in names
        ensures n in m <==> n in StoresByName(Pick(m, names))
        ensures n in m ==> m[n] == StoresByName(Pick(m, names))[n]
      {
        PickedIndex(m, names, n);
      }
      PickAgrees(m, StoresByName(Pick(m, names)), names);
    }
  }

  // ----- extraction -----

  /** The item filter: folder, then earliest and latest sending time. */
  predicate MatchesFilters(config: Configuration, item: MailItem) {
    && (config.folderPaths.Some? ==> MatchesAnyFolder(config.folderPaths.value, item.folderPath))
    && (config.startDate.Some? ==> item.sentAt >= config.startDate.value)
    && (config.endDate.Some? ==> item.sentAt <= config.endDate.value)
  }

  function Wanted(config: Configuration): MailItem -> bool {
    (item: MailItem) => MatchesFilters(config, item)
  }

  function AttachmentsOf(items: seq<MailItem>): seq<Attachment> {
    if items == [] then [] else AttachmentsOf(items[..|items| - 1]) + items[|items| - 1].attachments
  }

  const NOTHING_EXTRACTED := Extraction.Extraction([], [], [], [], [], [], 0)

  function AddItem(e: Extraction, item: MailItem): Extraction {
    e.(items := e.items + [item], attachments := e.attachments + item.attachments)
  }

  function AddKept(e: Extraction, kept: seq<MailItem>): Extraction {
    if kept == [] then e else AddItem(AddKept(e, kept[..|kept| - 1]), kept[|kept| - 1])
  }

  function AddItems(e: Extraction, items: seq<MailItem>, config: Configuration): Extraction {
    AddKept(e.(sourceItemCount := e.sourceItemCount + |items|), Filter(Wanted(config), items))
  }

  function AddMailboxes(e: Extraction, mailboxes: seq<Mailbox>, config: Configuration): Extraction {
    if mailboxes == [] then e
    else
      var n := |mailboxes| - 1;
      var before := AddMailboxes(e, mailboxes[..n], config);
      AddItems(before.(mailboxes := before.mailboxes + [mailboxes[n]]), mailboxes[n].mailItems, config)
  }

  function AddJournals(e: Extraction, journals: seq<JournalArchive>, config: Configuration): Extraction {
    if journals == [] then e
    else
      var n := |journals| - 1;
      AddItems(AddJournals(e, journals[..n], config), journals[n].mailItems, config)
  }

  function AddArchive(e: Extraction, archive: Archive, names: seq<string>, config: Configuration): Extraction {
    if archive.name !in names then e
    else
      var found := e.(archives := e.archives + [archive]);
      if archive.archiveType == FileSystemArchive then
        found.(unsupported := found.unsupported + [archive],
               warnings := found.warnings + [UnsupportedArchive(archive.archiveType)])
      else
        AddJournals(AddMailboxes(found, archive.mailboxes, config), archive.journalArchives, config)
  }

  function AddArchives(e: Extraction, archives: seq<Archive>, names: seq<string>, config: Configuration): Extraction {
    if archives == [] then e
    else
      var n := |archives| - 1;
      AddArchive(AddArchives(e, archives[..n], names, config), archives[n], names, config)
  }

  /** Archive names that pass the configured archive filter once more. */
  function NamesInScope(discovery: Discovery, config: Configuration): seq<string> {
    if config.archiveNames.None? then discovery.archiveNames
    else Filter((n: string) => Allowed(config.archiveNames, n), discovery.archiveNames)
  }

  function Extract(stores: seq<VaultStore>, discovery: Discovery, config: Configuration): Extraction {
    AddArchives(NOTHING_EXTRACTED, ArchivesOf(SelectStores(stores, discovery.storeNames)),
                NamesInScope(discovery, config), config)
  }

  // ----- what the nested loops compute -----

  function MailboxItems(mailboxes: seq<Mailbox>): seq<MailItem> {
    if mailboxes == [] then []
    else MailboxItems(mailboxes[..|mailboxes| - 1]) + mailboxes[|mailboxes| - 1].mailItems
  }

  function JournalItems(journals: seq<JournalArchive>): seq<MailItem> {
    if journals == [] then []
    else JournalItems(journals[..|journals| - 1]) + journals[|journals| - 1].mailItems
  }

  function ItemsOf(archive: Archive): seq<MailItem> {
    MailboxItems(archive.mailboxes) + JournalItems(archive.journalArchives)
  }

  function AllItems(archives: seq<Archive>): seq<MailItem> {
    if archives == [] then [] else AllItems(archives[..|archives| - 1]) + ItemsOf(archives[|archives| - 1])
  }

  function InScope(names: seq<string>): Archive -> bool {
    (a: Archive) => a.name in names
  }

  function Supported(names: seq<string>): Archive -> bool {
    (a: Archive) => a.name in names && a.archiveType != FileSystemArchive
  }

  function Unsupported(names: seq<string>): Archive -> bool {
    (a: Archive) => a.name in names && a.archiveType == FileSystemArchive
  }

  /** e' extends e by the wanted ones among the given source items. */
  ghost predicate Adds(e: Extraction, source: seq<MailItem>, config: Configuration, e': Extraction) {
    && e'.items == e.items + Filter(Wanted(config), source)
    && e'.sourceItemCount == e.sourceItemCount + |source|
    && e'.archives == e.archives && e'.unsupported == e.unsupported && e'.warnings == e.warnings
    && e'.attachments == e.attachments + AttachmentsOf(Filter(Wanted(config), source))
  }

  lemma {:induction false} AttachmentsConcat(a: seq<MailItem>, b: seq<MailItem>)
    ensures AttachmentsOf(a + b) == AttachmentsOf(a) + AttachmentsOf(b)
  {
    if b == [] {
      assert a + b == a;
    } else {
      var init := b[..|b| - 1];
      assert (a + b)[..|a + b| - 1] == a + init;
      AttachmentsConcat(a, init);
    }
  }

  lemma {:induction false} AddKeptMeaning(e: Extraction, kept: seq<MailItem>)
    ensures AddKept(e, kept) == e.(items := e.items + kept, attachments := e.attachments + AttachmentsOf(kept))
  {
    if kept == [] {
      assert e.items + kept == e.items && e.attachments + [] == e.attachments;
    } else {
      var n := |kept| - 1;
      AddKeptMeaning(e, kept[..n]);
      assert e.items + kept[..n] + [kept[n]] == e.items + kept;
    }
  }

  lemma AddItemsAdds(e: Extraction, items: seq<MailItem>, config: Configuration)
    ensures Adds(e, items, config, AddItems(e, items, config))
  {
    var counted := e.(sourceItemCount := e.sourceItemCount + |items|);
    var kept := Filter(Wanted(config), items);
    AddKeptMeaning(counted, kept);
    assert AddItems(e, items, config) == AddKept(counted, kept);
  }

  lemma AddsThenAdds(e: Extraction, a: seq<MailItem>, e1: Extraction, b: seq<MailItem>, e2: Extraction,
                     config: Configuration)
    requires Adds(e, a, config, e1) && Adds(e1, b, config, e2)
    ensures Adds(e, a + b, config, e2)
  {
    var ka, kb := Filter(Wanted(config), a), Filter(Wanted(config), b);
    FilterConcat(Wanted(config), a, b);
    AttachmentsConcat(ka, kb);
    SeqAssociates(e.items, ka, kb);
    SeqAssociates(e.attachments, AttachmentsOf(ka), AttachmentsOf(kb));
  }

  lemma AddsNothing(e: Extraction, config: Configuration)
    ensures Adds(e, [], config, e)
  {
    assert e.items + [] == e.items && e.attachments + [] == e.attachments;
  }

  lemma {:induction false} AddMailboxesAdds(e: Extraction, mailboxes: seq<Mailbox>, config: Configuration)
    ensures Adds(e, MailboxItems(mailboxes), config, AddMailboxes(e, mailboxes, config))
  {
    if mailboxes == [] {
      AddsNothing(e, config);
    } else {
      var n := |mailboxes| - 1;
      AddMailboxesAdds(e, mailboxes[..n], config);
      var before := AddMailboxes(e, mailboxes[..n], config);
      var entered := before.(mailboxes := before.mailboxes + [mailboxes[n]]);
      assert Adds(e, MailboxItems(mailboxes[..n]), config, entered);
      AddItemsAdds(entered, mailboxes[n].mailItems, config);
      AddsThenAdds(e, MailboxItems(mailboxes[..n]), entered, mailboxes[n].mailItems,
                   AddMailboxes(e, mailboxes, config), config);
    }
  }

  lemma {:induction false} AddJournalsAdds(e: Extraction, journals: seq<JournalArchive>, config: Configuration)
    ensures Adds(e, JournalItems(journals), config, AddJournals(e, journals, config))
  {
    if journals == [] {
      AddsNothing(e, config);
    } else {
      var n := |journals| - 1;
      AddJournalsAdds(e, journals[..n], config);
      var before := AddJournals(e, journals[..n], config);
      AddItemsAdds(before, journals[n].mailItems, config);
      AddsThenAdds(e, JournalItems(journals[..n]), before, journals[n].mailItems,
                   AddJournals(e, journals, config), config);
    }
  }

  lemma SupportedArchiveAdds(e: Extraction, archive: Archive, names: seq<string>, config: Configuration)
    requires Supported(names)(archive)
    ensures Adds(e.(archives := e.archives + [archive]), ItemsOf(archive), config,
                 AddArchive(e, archive, names, config))
  {
    var found := e.(archives := e.archives + [archive]);
    var middle := AddMailboxes(found, archive.mailboxes, config);
    AddMailboxesAdds(found, archive.mailboxes, config);
    AddJournalsAdds(middle, archive.journalArchives, config);
    AddsThenAdds(found, MailboxItems(archive.mailboxes), middle, JournalItems(archive.journalArchives),
                 AddArchive(e, archive, names, config), config);
  }

  ghost predicate Extracted(archives: seq<Archive>, names: seq<string>, config: Configuration, e: Extraction) {
    var source := AllItems(Filter(Supported(names), archives));
    && e.items == Filter(Wanted(config), source)
    && e.sourceItemCount == |source|
    && e.attachments == AttachmentsOf(e.items)
    && e.archives == Filter(InScope(names), archives)
    && e.unsupported == Filter(Unsupported(names), archives)
    && |e.warnings| == |e.unsupported|
    && (forall w :: w in e.warnings ==> w == UnsupportedArchive(FileSystemArchive))
  }

  /** The nested loops extract exactly the wanted items of the supported archives
      in scope, in source order; unsupported archives in scope are set aside with
      one warning each. */
  lemma {:induction false} ExtractionIsAFilter(archives: seq<Archive>, names: seq<string>, config: Configuration)
    ensures Extracted(archives, names, config, AddArchives(NOTHING_EXTRACTED, archives, names, config))
  {
    if archives != [] {
      var n := |archives| - 1;
      var init, last := archives[..n], archives[n];
      ExtractionIsAFilter(init, names, config);
      var e := AddArchives(NOTHING_EXTRACTED, init, names, config);
      if Supported(names)(last) {
        SupportedArchiveAdds(e, last, names, config);
        var source := Filter(Supported(names), init);
        assert (source + [last])[..|source|] == source;
        FilterConcat(Wanted(config), AllItems(source), ItemsOf(last));
        AttachmentsConcat(Filter(Wanted(config), AllItems(source)), Filter(Wanted(config), ItemsOf(last)));
      }
    }
  }

  /** Conservation: extracted items plus filtered items are all items of the
      supported archives in scope. */
  lemma ExtractedPlusFilteredIsAll(archives: seq<Archive>, names: seq<string>, config: Configuration)
    ensures var e := AddArchives(NOTHING_EXTRACTED, archives, names, config);
            var source := AllItems(Filter(Supported(names), archives));
            && |source| == e.sourceItemCount
            && e.sourceItemCount - |e.items| == |Filter(Not(Wanted(config)), source)|
  {
    ExtractionIsAFilter(archives, names, config);
    FilterSplits(Wanted(config), AllItems(Filter(Supported(names), archives)));
  }

  // ----- the loops themselves -----

  method ExtractKept(e: Extraction, kept: seq<MailItem>) returns (r: Extraction)
    ensures r == AddKept(e, kept)
  {
    r := e;
    for i := 0 to |kept|
      invariant r == AddKept(e, kept[..i])
    {
      TakeStep(kept, i);
      r := r.(items := r.items + [kept[i]], attachments := r.attachments + kept[i].attachments);
    }
    TakeAll(kept);
  }

  method ExtractFromMailboxes(e: Extraction, mailboxes: seq<Mailbox>, config: Configuration) returns (r: Extraction)
    ensures r == AddMailboxes(e, mailboxes, config)
  {
    r := e;
    for i := 0 to |mailboxes|
      invariant r == AddMailboxes(e, mailboxes[..i], config)
    {
      TakeStep(mailboxes, i);
      var mailbox := mailboxes[i];
      r := r.(mailboxes := r.mailboxes + [mailbox]);
      r := r.(sourceItemCount := r.sourceItemCount + |mailbox.mailItems|);
      r := ExtractKept(r, Filter(Wanted(config), mailbox.mailItems));
    }
    TakeAll(mailboxes);
  }

  method ExtractFromJournals(e: Extraction, journals: seq<JournalArchive>, config: Configuration)
    returns (r: Extraction)
    ensures r == AddJournals(e, journals, config)
  {
    r := e;
    for i := 0 to |journals|
      invariant r == AddJournals(e, journals[..i], config)
    {
      TakeStep(journals, i);
      r := r.(sourceItemCount := r.sourceItemCount + |journals[i].mailItems|);
      r := ExtractKept(r, Filter(Wanted(config), journals[i].mailItems));
    }
    TakeAll(journals);
  }

  lemma {:induction false} AddArchivesConcat(e: Extraction, a: seq<Archive>, b: seq<Archive>,
                                             names: seq<string>, config: Configuration)
    ensures AddArchives(e, a + b, names, config) == AddArchives(AddArchives(e, a, names, config), b, names, config)
  {
    if b == [] {
      assert a + b == a;
    } else {
      var init := b[..|b| - 1];
      assert (a + b)[..|a + b| - 1] == a + init;
      AddArchivesConcat(e, a, init, names, config);
    }
  }

  method ExtractFromStore(e: Extraction, store: VaultStore, names: seq<string>, config: Configuration)
    returns (r: Extraction)
    ensures r == AddArchives(e, store.archives, names, config)
  {
    r := e;
    for i := 0 to |store.archives|
      invariant r == AddArchives(e, store.archives[..i], names, config)
    {
      TakeStep(store.archives, i);
      var archive := store.archives[i];
      if archive.name !in names {
        continue;
      }
      r := r.(archives := r.archives + [archive]);
      if archive.archiveType == FileSystemArchive {
        r := r.(unsupported := r.unsupported + [archive],
                warnings := r.warnings + [UnsupportedArchive(archive.archiveType)]);
        continue;
      }
      r := ExtractFromMailboxes(r, archive.mailboxes, config);
      r := ExtractFromJournals(r, archive.journalArchives, config);
    }
    TakeAll(store.archives);
  }

  /** The extraction step: select the stores named by discovery and walk them. */
  method RunExtraction(stores: seq<VaultStore>, discovery: Discovery, config: Configuration)
    returns (selected: seq<VaultStore>, e: Extraction)
    ensures selected == SelectStores(stores, discovery.storeNames)
    ensures e == Extract(stores, discovery, config)
  {
    selected := SelectStores(stores, discovery.storeNames);
    var names := NamesInScope(discovery, config);
    e := NOTHING_EXTRACTED;
    for i := 0 to |selected|
      invariant e == AddArchives(NOTHING_EXTRACTED, ArchivesOf(selected[..i]), names, config)
    {
      TakeStep(selected, i);
      AddArchivesConcat(NOTHING_EXTRACTED, ArchivesOf(selected[..i]), selected[i].archives, names, config);
      e := ExtractFromStore(e, selected[i], names, config);
    }
    TakeAll(selected);
  }
}
