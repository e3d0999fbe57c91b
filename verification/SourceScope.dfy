/** What discovery and extraction take of the source, told from the source and the configuration. */
module SourceScopes {
  import opened Prelude
  import opened Records
  import opened FolderPaths
  import opened Extractions

  // ----- which vault stores are walked -----

  /** The store is in the list, and no store after its last occurrence has its name. */
  ghost predicate LastOfItsName(stores: seq<VaultStore>, store: VaultStore) {
    exists i :: 0 <= i < |stores| && stores[i] == store && LastAt(stores, i)
  }

  ghost predicate LastAt(stores: seq<VaultStore>, i: nat)
    requires i < |stores|
  {
    forall j :: i < j < |stores| ==> stores[j].name != stores[i].name
  }

  /** Position i holds the last store of this name. */
  ghost predicate HoldsLast(stores: seq<VaultStore>, name: string, i: nat) {
    i < |stores| && stores[i].name == name && LastAt(stores, i)
  }

  lemma StillLast(stores: seq<VaultStore>, name: string, i: nat)
    requires stores != [] && HoldsLast(stores[..|stores| - 1], name, i) && stores[|stores| - 1].name != name
    ensures HoldsLast(stores, name, i)
  {
    var n := |stores| - 1;
    forall j | i < j < |stores| ensures stores[j].name != stores[i].name {
      if j < n {
        assert stores[..n][j].name != stores[..n][i].name;
      }
    }
  }

  /** The dictionary holds, for each name, the last store of that name. */
  lemma {:induction false} StoresByNameMeaning(stores: seq<VaultStore>, k: nat) returns (i: nat)
    requires k < |stores|
    ensures HoldsLast(stores, stores[k].name, i)
    ensures stores[k].name in StoresByName(stores) && StoresByName(stores)[stores[k].name] == stores[i]
  {
    var n, name := |stores| - 1, stores[k].name;
    if stores[n].name == name {
      i := n;
    } else {
      i := StoresByNameMeaning(stores[..n], k);
      StillLast(stores, name, i);
    }
  }

  /** When every name is in the dictionary, picking looks the names up one by one. */
  lemma {:induction false} PickLooksUp(m: map<string, VaultStore>, names: seq<string>)
    requires forall i :: 0 <= i < |names| ==> names[i] in m
    ensures |Pick(m, names)| == |names|
    ensures forall i :: 0 <= i < |names| ==> Pick(m, names)[i] == m[names[i]]
  {
    if names != [] {
      PickLooksUp(m, names[..|names| - 1]);
    }
  }

  /** Each store is replaced by the last one of its name. */
  ghost predicate LastOnes(stores: seq<VaultStore>, selected: seq<VaultStore>) {
    && |selected| == |stores|
    && forall k :: 0 <= k < |stores| ==>
         selected[k].name == stores[k].name && LastOfItsName(stores, selected[k])
  }

  function SelectedBy(stores: seq<VaultStore>, config: Configuration): seq<VaultStore> {
    SelectStores(stores, Discover(stores, config).storeNames)
  }

  lemma SelectedAreLastOnes(stores: seq<VaultStore>, config: Configuration)
    ensures LastOnes(stores, SelectedBy(stores, config))
  {
    var names, m := Discover(stores, config).storeNames, StoresByName(stores);
    if stores != [] {
      forall k | 0 <= k < |stores| ensures names[k] in m && LastOfItsName(stores, m[names[k]]) {
        var i := StoresByNameMeaning(stores, k);
        assert names[k] == stores[k].name;
      }
      PickLooksUp(m, names);
    }
  }

  lemma LastOneIsUnique(stores: seq<VaultStore>, a: VaultStore, b: VaultStore)
    requires LastOfItsName(stores, a) && LastOfItsName(stores, b) && a.name == b.name
    ensures a == b
  {
    var i :| 0 <= i < |stores| && stores[i] == a && LastAt(stores, i);
    var j :| 0 <= j < |stores| && stores[j] == b && LastAt(stores, j);
  }

  /** A store is walked if and only if it is the last one of its name. */
  lemma WalkedExactlyWhen(stores: seq<VaultStore>, config: Configuration, store: VaultStore)
    ensures store in SelectedBy(stores, config) <==> LastOfItsName(stores, store)
  {
    var selected := SelectedBy(stores, config);
    SelectedAreLastOnes(stores, config);
    if LastOfItsName(stores, store) {
      var i :| 0 <= i < |stores| && stores[i] == store && LastAt(stores, i);
      LastOneIsUnique(stores, store, selected[i]);
    }
  }

  ghost predicate NamesTellStoresApart(stores: seq<VaultStore>) {
    forall i, j :: 0 <= i < j < |stores| ==> AlikeIfNamedAlike(stores[i], stores[j])
  }

  predicate AlikeIfNamedAlike(a: VaultStore, b: VaultStore) {
    a.name == b.name ==> a == b
  }

  lemma SameNameSelectsSame(stores: seq<VaultStore>, selected: seq<VaultStore>, i: nat, j: nat)
    requires LastOnes(stores, selected) && i < |stores| && j < |stores| && stores[i].name == stores[j].name
    ensures selected[i] == selected[j]
  {
    LastOneIsUnique(stores, selected[i], selected[j]);
  }

  lemma SelectsItself(stores: seq<VaultStore>, selected: seq<VaultStore>, k: nat)
    requires LastOnes(stores, selected) && k < |stores| && NamesTellStoresApart(stores)
    ensures selected[k] == stores[k]
  {
    var i :| 0 <= i < |stores| && stores[i] == selected[k] && LastAt(stores, i);
    assert stores[i].name == stores[k].name;
    assert k <= i;
    if k < i {
      assert AlikeIfNamedAlike(stores[k], stores[i]);
    }
  }

  /** The walk covers exactly the given stores, each once, if and only if no two different
      stores share a name. */
  lemma EveryStoreIsWalkedExactlyWhen(stores: seq<VaultStore>, config: Configuration)
    ensures SelectedBy(stores, config) == stores <==> NamesTellStoresApart(stores)
  {
    var selected := SelectedBy(stores, config);
    SelectedAreLastOnes(stores, config);
    if selected == stores {
      forall i, j | 0 <= i < j < |stores| ensures AlikeIfNamedAlike(stores[i], stores[j]) {
        if stores[i].name == stores[j].name {
          SameNameSelectsSame(stores, selected, i, j);
        }
      }
    }
    if NamesTellStoresApart(stores) {
      forall k | 0 <= k < |stores| ensures selected[k] == stores[k] {
        SelectsItself(stores, selected, k);
      }
    }
  }

  /** Two stores of one name: the archives of the second are walked twice, those of the first never. */
  lemma SharedStoreNameHidesAStore(first: VaultStore, second: VaultStore, config: Configuration)
    requires first.name == second.name && first != second
    ensures SelectedBy([first, second], config) == [second, second]
  {
    var stores := [first, second];
    var selected := SelectedBy(stores, config);
    SelectedAreLastOnes(stores, config);
    assert LastAt(stores, 1);
    assert LastOfItsName(stores, stores[1]);
    LastOneIsUnique(stores, selected[0], second);
    LastOneIsUnique(stores, selected[1], second);
  }

  // ----- membership in the flat lists -----

  predicate IsItemOf(archive: Archive, item: MailItem) {
    || (exists mailbox :: mailbox in archive.mailboxes && item in mailbox.mailItems)
    || (exists journal :: journal in archive.journalArchives && item in journal.mailItems)
  }

  lemma {:induction false} MailboxItemsExactly(mailboxes: seq<Mailbox>, item: MailItem)
    ensures item in MailboxItems(mailboxes)
       <==> exists mailbox :: mailbox in mailboxes && item in mailbox.mailItems
  {
    if mailboxes != [] {
      var n := |mailboxes| - 1;
      MailboxItemsExactly(mailboxes[..n], item);
      assert mailboxes == mailboxes[..n] + [mailboxes[n]];
    }
  }

  lemma {:induction false} JournalItemsExactly(journals: seq<JournalArchive>, item: MailItem)
    ensures item in JournalItems(journals)
       <==> exists journal :: journal in journals && item in journal.mailItems
  {
    if journals != [] {
      var n := |journals| - 1;
      JournalItemsExactly(journals[..n], item);
      assert journals == journals[..n] + [journals[n]];
    }
  }

  lemma ItemsOfExactly(archive: Archive, item: MailItem)
    ensures item in ItemsOf(archive) <==> IsItemOf(archive, item)
  {
    MailboxItemsExactly(archive.mailboxes, item);
    JournalItemsExactly(archive.journalArchives, item);
  }

  lemma {:induction false} AllItemsExactly(archives: seq<Archive>, item: MailItem)
    ensures item in AllItems(archives) <==> exists archive :: archive in archives && IsItemOf(archive, item)
  {
    if archives != [] {
      var n := |archives| - 1;
      AllItemsExactly(archives[..n], item);
      ItemsOfExactly(archives[n], item);
      assert archives == archives[..n] + [archives[n]];
    }
  }

  lemma {:induction false} ArchivesOfExactly(stores: seq<VaultStore>, archive: Archive)
    ensures archive in ArchivesOf(stores) <==> exists store :: store in stores && archive in store.archives
  {
    if stores != [] {
      var n := |stores| - 1;
      ArchivesOfExactly(stores[..n], archive);
      assert stores == stores[..n] + [stores[n]];
    }
  }

  // ----- which items are extracted -----

  /** No folder filter, or one of its paths is the item's path or leads to it component by component. */
  ghost predicate InSelectedFolder(config: Configuration, item: MailItem) {
    config.folderPaths.Some? ==>
      exists f :: f in config.folderPaths.value && LeadsTo(f, item.folderPath)
  }

  ghost predicate LeadsTo(folderPath: string, itemPath: string) {
    || Normalize(itemPath) == Normalize(folderPath)
    || Split(Normalize(Normalize(folderPath))) <= Split(Normalize(itemPath))
  }

  /** Sent within the configured dates, both ends included. */
  predicate InWindow(config: Configuration, item: MailItem) {
    && (config.startDate.Some? ==> config.startDate.value <= item.sentAt)
    && (config.endDate.Some? ==> item.sentAt <= config.endDate.value)
  }

  /** The item filter keeps exactly the items of selected folders within the dates. */
  lemma WantedExactlyWhen(config: Configuration, item: MailItem)
    ensures Wanted(config)(item) <==> InSelectedFolder(config, item) && InWindow(config, item)
  {
    if config.folderPaths.Some? {
      forall f | f in config.folderPaths.value
        ensures Selects(f, item.folderPath) <==> LeadsTo(f, item.folderPath)
      {
        SelectionIsComponentWise(f, item.folderPath);
      }
    }
  }

  /** A discovered archive that the configuration allows and extraction supports. */
  predicate Taken(discovery: Discovery, config: Configuration, archive: Archive) {
    && archive.name in discovery.archiveNames
    && (config.archiveNames.Some? ==> archive.name in config.archiveNames.value)
    && archive.archiveType != FileSystemArchive
  }

  lemma SupportedExactlyWhen(discovery: Discovery, config: Configuration, archive: Archive)
    ensures Supported(NamesInScope(discovery, config))(archive) <==> Taken(discovery, config, archive)
  {
    if config.archiveNames.Some? {
      FilterMember((n: string) => Allowed(config.archiveNames, n), discovery.archiveNames, archive.name);
    }
  }

  ghost predicate HasTaken(archives: seq<Archive>, discovery: Discovery, config: Configuration, item: MailItem) {
    exists archive :: archive in archives && Taken(discovery, config, archive) && IsItemOf(archive, item)
  }

  lemma TakenItemsExactly(archives: seq<Archive>, discovery: Discovery, config: Configuration, item: MailItem)
    ensures item in AllItems(Filter(Supported(NamesInScope(discovery, config)), archives))
       <==> HasTaken(archives, discovery, config, item)
  {
    var p := Supported(NamesInScope(discovery, config));
    AllItemsExactly(Filter(p, archives), item);
    forall archive
      ensures archive in Filter(p, archives) <==> archive in archives && Taken(discovery, config, archive)
    {
      FilterMember(p, archives, archive);
      SupportedExactlyWhen(discovery, config, archive);
    }
  }

  /** An item is extracted if and only if it is an item of an archive that is taken, in a
      selected folder, and sent within the dates. */
  lemma ExtractedExactlyWhen(stores: seq<VaultStore>, discovery: Discovery, config: Configuration, item: MailItem)
    ensures item in Extract(stores, discovery, config).items
       <==> HasTaken(ArchivesOf(SelectStores(stores, discovery.storeNames)), discovery, config, item)
            && InSelectedFolder(config, item) && InWindow(config, item)
  {
    var archives, names := ArchivesOf(SelectStores(stores, discovery.storeNames)), NamesInScope(discovery, config);
    ExtractionIsAFilter(archives, names, config);
    FilterMember(Wanted(config), AllItems(Filter(Supported(names), archives)), item);
    TakenItemsExactly(archives, discovery, config, item);
    WantedExactlyWhen(config, item);
  }

  /** The item lies in a supported, allowed archive of a store that no later store of its name hides. */
  ghost predicate LiesInScope(stores: seq<VaultStore>, config: Configuration, item: MailItem) {
    exists store, archive ::
      && LastOfItsName(stores, store) && archive in store.archives && IsItemOf(archive, item)
      && (config.archiveNames.Some? ==> archive.name in config.archiveNames.value)
      && archive.archiveType != FileSystemArchive
  }

  lemma DiscoveredNames(stores: seq<VaultStore>, config: Configuration, store: VaultStore, archive: Archive)
    requires store in stores && archive in store.archives
    ensures archive.name in Discover(stores, config).archiveNames <==> Allowed(config.archiveNames, archive.name)
  {
    var archives := ArchivesOf(stores);
    ArchivesOfExactly(stores, archive);
    var i :| 0 <= i < |archives| && archives[i] == archive;
    assert Map((a: Archive) => a.name, archives)[i] == archive.name;
    FilterMember((n: string) => Allowed(config.archiveNames, n), Map((a: Archive) => a.name, archives), archive.name);
  }

  lemma ScopeOfDiscovery(stores: seq<VaultStore>, config: Configuration, item: MailItem)
    ensures HasTaken(ArchivesOf(SelectedBy(stores, config)), Discover(stores, config), config, item)
       <==> LiesInScope(stores, config, item)
  {
    var selected, discovery := SelectedBy(stores, config), Discover(stores, config);
    if HasTaken(ArchivesOf(selected), discovery, config, item) {
      var archive :| archive in ArchivesOf(selected) && Taken(discovery, config, archive) && IsItemOf(archive, item);
      ArchivesOfExactly(selected, archive);
      var store :| store in selected && archive in store.archives;
      WalkedExactlyWhen(stores, config, store);
    }
    if LiesInScope(stores, config, item) {
      var store, archive :|
        && LastOfItsName(stores, store) && archive in store.archives && IsItemOf(archive, item)
        && (config.archiveNames.Some? ==> archive.name in config.archiveNames.value)
        && archive.archiveType != FileSystemArchive;
      WalkedExactlyWhen(stores, config, store);
      ArchivesOfExactly(selected, archive);
      DiscoveredNames(stores, config, store, archive);
    }
  }

  /** Discovery and extraction together, from the source alone. */
  lemma ExtractedFromSourceExactlyWhen(stores: seq<VaultStore>, config: Configuration, item: MailItem)
    ensures item in Extract(stores, Discover(stores, config), config).items
       <==> LiesInScope(stores, config, item) && InSelectedFolder(config, item) && InWindow(config, item)
  {
    ExtractedExactlyWhen(stores, Discover(stores, config), config, item);
    ScopeOfDiscovery(stores, config, item);
  }

  // ----- what else is reported -----

  /** The mailboxes of a list of archives, in order. */
  function MailboxesOf(archives: seq<Archive>): seq<Mailbox> {
    if archives == [] then [] else MailboxesOf(archives[..|archives| - 1]) + archives[|archives| - 1].mailboxes
  }

  lemma {:induction false} KeptAddsNoMailbox(e: Extraction, kept: seq<MailItem>)
    ensures AddKept(e, kept).mailboxes == e.mailboxes
  {
    if kept != [] {
      KeptAddsNoMailbox(e, kept[..|kept| - 1]);
    }
  }

  lemma {:induction false} MailboxesAreAdded(e: Extraction, mailboxes: seq<Mailbox>, config: Configuration)
    ensures AddMailboxes(e, mailboxes, config).mailboxes == e.mailboxes + mailboxes
  {
    if mailboxes != [] {
      var n := |mailboxes| - 1;
      MailboxesAreAdded(e, mailboxes[..n], config);
      var before := AddMailboxes(e, mailboxes[..n], config);
      var entered := before.(mailboxes := before.mailboxes + [mailboxes[n]]);
      KeptAddsNoMailbox(entered.(sourceItemCount := entered.sourceItemCount + |mailboxes[n].mailItems|),
                        Filter(Wanted(config), mailboxes[n].mailItems));
      SeqAssociates(e.mailboxes, mailboxes[..n], [mailboxes[n]]);
      TakeStep(mailboxes, n);
      TakeAll(mailboxes);
    }
  }

  lemma {:induction false} JournalsAddNoMailbox(e: Extraction, journals: seq<JournalArchive>, config: Configuration)
    ensures AddJournals(e, journals, config).mailboxes == e.mailboxes
  {
    if journals != [] {
      var n := |journals| - 1;
      JournalsAddNoMailbox(e, journals[..n], config);
      var before := AddJournals(e, journals[..n], config);
      KeptAddsNoMailbox(before.(sourceItemCount := before.sourceItemCount + |journals[n].mailItems|),
                        Filter(Wanted(config), journals[n].mailItems));
    }
  }

  /** The mailboxes reported are those of the supported archives in scope, in order. */
  lemma {:induction false} ExtractedMailboxes(archives: seq<Archive>, names: seq<string>, config: Configuration)
    ensures AddArchives(NOTHING_EXTRACTED, archives, names, config).mailboxes
            == MailboxesOf(Filter(Supported(names), archives))
  {
    if archives != [] {
      var n := |archives| - 1;
      var init, last := archives[..n], archives[n];
      ExtractedMailboxes(init, names, config);
      var e := AddArchives(NOTHING_EXTRACTED, init, names, config);
      var found := e.(archives := e.archives + [last]);
      MailboxesAreAdded(found, last.mailboxes, config);
      JournalsAddNoMailbox(AddMailboxes(found, last.mailboxes, config), last.journalArchives, config);
      var kept := Filter(Supported(names), init);
      assert (kept + [last])[..|kept|] == kept;
    }
  }
}
