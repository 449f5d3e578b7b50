/** Small worked cases of the crawler on concrete scripts. */
module Scenarios {
  import opened Options
  import opened JsonValues
  import opened Listing
  import opened Classification
  import opened Crawler

  const Doc := Entry("2", "doc.txt", "text/plain")
  const Early := Entry("4", "early.txt", "text/plain")
  const Late := Entry("3", "x.txt", "text/plain")

  /** A first page, a rate limit, then the last page: the retry resends the
      first page's token, `num_tries` ends at 1, and the first page's entry
      is lost because only the last response is classified. */
  lemma RetryThenLastPageOnly()
    ensures var script := [Page([Early], Some("t")), Failure(403), Page([Late], None)];
      && ExitsFrom(script, 0)
      && Run(script) == Listed([Late], [None, Some("t"), Some("t")], 1)
  {
    var script := [Page([Early], Some("t")), Failure(403), Page([Late], None)];
    assert Final(script[2]);
    assert ExitsFrom(script, 1) && ExitsFrom(script, 2);
    var st1 := LoopState(Some("t"), 0, false, Some([Early]));
    var st2 := LoopState(Some("t"), 1, true, Some([Early]));
    assert RunFrom(script, 2, st2, [None, Some("t")]) == Listed([Late], [None, Some("t"), Some("t")], 1);
    assert RunFrom(script, 1, st1, [None]) == RunFrom(script, 2, st2, [None, Some("t")]);
    assert Step(Start, script[0]) == Continue(st1);
    assert ([] + [Start.nextPage]) == [None];
    assert Run(script) == RunFrom(script, 0, Start, []) == RunFrom(script, 1, st1, [None]);
  }

  /** Any error other than the rate limit stops the listing on that call,
      even after pages were received. */
  lemma FaultAfterPage()
    ensures var script := [Page([Early], Some("t")), Failure(500), Page([Late], None)];
      && ExitsFrom(script, 0)
      && Run(script) == Aborted(500, [None, Some("t")], 0)
  {
    var script := [Page([Early], Some("t")), Failure(500), Page([Late], None)];
    assert Final(script[1]);
    var st1 := LoopState(Some("t"), 0, false, Some([Early]));
    assert RunFrom(script, 1, st1, [None]) == Aborted(500, [None, Some("t")], 0);
    assert Step(Start, script[0]) == Continue(st1);
    assert ([] + [Start.nextPage]) == [None];
    assert Run(script) == RunFrom(script, 0, Start, []) == RunFrom(script, 1, st1, [None]);
  }

  /** A folder named `files` listed before a file (folders come first in
      the requested order) makes the `push` throw; listed after the files,
      it silently replaces them. */
  lemma FolderNamedFiles()
    ensures var folder := Entry("5", "files", FolderMimeType);
      && Classify(Seed("root"), [folder, Doc]).TypeError?
      && Classify(Seed("root"), [Doc, folder]) == Classified(Seed("root")["files" := FolderNode("5")])
  {
    var folder := Entry("5", "files", FolderMimeType);
    ClassifyFiles(Seed("root"), [folder, Doc]);
    assert NamesFolder(folder, "files") && !IsFolder(Doc);
    assert [folder, Doc][0] == folder && [folder, Doc][1] == Doc;
    var afterDoc := Seed("root")["files" := JArray([FileRecord(Doc)])];
    assert [Doc, folder][..1] == [Doc] && [Doc][..0] == [];
    assert [] + [FileRecord(Doc)] == [FileRecord(Doc)];
    assert Seed("root")["files" := JArray([])]["files" := JArray([FileRecord(Doc)])] == afterDoc;
    assert Classify(Seed("root"), [Doc]) == Classified(afterDoc);
    assert afterDoc["files" := FolderNode("5")] == Seed("root")["files" := FolderNode("5")];
  }

  /** A folder named `__proto__` replaces the node's prototype and adds no
      key, so a later file still creates `files` and nothing is crawled. */
  lemma ProtoFolderIgnored()
    ensures Classify(Seed("r"), [Entry("9", ProtoKey, FolderMimeType), Doc])
         == Classified(Seed("r")["files" := JArray([FileRecord(Doc)])])
  {
    var proto := Entry("9", ProtoKey, FolderMimeType);
    assert [proto, Doc][..1] == [proto] && [proto][..0] == [];
    assert Classify(Seed("r"), [proto]) == Classified(Seed("r"));
    assert [] + [FileRecord(Doc)] == [FileRecord(Doc)];
  }

  const FolderA := Entry("1", "A", FolderMimeType)

  /** The listing of a root holding folder `A` and file `doc.txt`. */
  const RootScript := [Page([FolderA, Doc], None)]
  /** The listing of `A`: an empty first page, then `x.txt` on the second. */
  const AScript := [Page([], Some("p2")), Page([Late], None)]

  /** A remote that answers those two listings for the root and for `A`. */
  predicate HoldsTree(remote: Remote) {
    && "root" in remote.listings && remote.listings["root"] == RootScript
    && "1" in remote.listings && remote.listings["1"] == AScript
  }

  const AFields := map["id" := JString("1"), "files" := JArray([FileRecord(Late)])]
  const RootFields := map["id" := JString("root"), "A" := FolderNode("1"), "files" := JArray([FileRecord(Doc)])]

  lemma FolderAListed()
    ensures ExitsFrom(AScript, 0)
    ensures Run(AScript) == Listed([Late], [None, Some("p2")], 0)
  {
    assert Final(AScript[1]);
    var st := LoopState(Some("p2"), 0, false, Some([]));
    assert RunFrom(AScript, 1, st, [None]) == Listed([Late], [None, Some("p2")], 0);
    assert Step(Start, AScript[0]) == Continue(st);
    assert ([] + [Start.nextPage]) == [None];
    assert Run(AScript) == RunFrom(AScript, 0, Start, []) == RunFrom(AScript, 1, st, [None]);
  }

  lemma FolderAClassified()
    ensures Classify(Seed("1"), [Late]) == Classified(AFields)
  {
    assert [Late][..0] == [];
    assert !IsFolder(Late) && "files" !in Seed("1");
    assert [] + [FileRecord(Late)] == [FileRecord(Late)];
    assert Seed("1")["files" := JArray([])]["files" := JArray([FileRecord(Late)])] == AFields;
    assert AddEntry(Seed("1"), Late) == Classified(AFields);
  }

  lemma FolderABounded(remote: Remote)
    requires HoldsTree(remote)
    ensures Bounded(remote, "1", 1)
  {
    FolderAListed();
    forall r, e | r in AScript && r.Page? && e in r.entries
      ensures !IsFolder(e)
    {
    }
  }

  lemma FolderACrawled(remote: Remote)
    requires HoldsTree(remote)
    ensures Bounded(remote, "1", 1) && Crawl(remote, "1", 1) == Returned(AFields)
  {
    FolderABounded(remote);
    FolderAListed();
    FolderAClassified();
    assert forall k | k in AFields :: Reserved(k);
    DescendLeaf(remote, AFields, 1);
    assert Crawl(remote, "1", 1) == Descend(remote, AFields, 1);
  }

  lemma RootListed()
    ensures ExitsFrom(RootScript, 0)
    ensures Run(RootScript) == Listed([FolderA, Doc], [None], 0)
  {
    assert Final(RootScript[0]);
    assert ([] + [Start.nextPage]) == [None];
  }

  lemma RootClassify()
    ensures Classify(Seed("root"), [FolderA, Doc]) == Classified(RootFields)
  {
    assert [FolderA, Doc][..1] == [FolderA];
    assert [FolderA][..0] == [];
    var afterA := Seed("root")["A" := FolderNode("1")];
    assert IsFolder(FolderA) && !IsFolder(Doc) && "files" !in afterA;
    assert Classify(Seed("root"), [FolderA]) == Classified(afterA);
    assert [] + [FileRecord(Doc)] == [FileRecord(Doc)];
    assert afterA["files" := JArray([])]["files" := JArray([FileRecord(Doc)])] == RootFields;
    assert AddEntry(afterA, Doc) == Classified(RootFields);
  }

  lemma RootBounded(remote: Remote)
    requires HoldsTree(remote)
    ensures Bounded(remote, "root", 2)
    ensures ChildrenBounded(remote, RootFields, 1)
  {
    RootListed();
    FolderABounded(remote);
    forall r, e | r in RootScript && r.Page? && e in r.entries && IsFolder(e)
      ensures e == FolderA
    {
    }
    assert forall k | k in RootFields && !Reserved(k) :: k == "A";
  }

  lemma RootClassified(remote: Remote)
    requires HoldsTree(remote)
    ensures Bounded(remote, "root", 2)
    ensures ChildrenBounded(remote, RootFields, 1)
    ensures Crawl(remote, "root", 2) == Descend(remote, RootFields, 2)
  {
    RootBounded(remote);
    RootListed();
    RootClassify();
  }

  const Expected := RootFields["A" := JObject(AFields)]

  lemma RootFolderKey()
    ensures "A" in RootFields && !Reserved("A")
    ensures forall k | k in RootFields && !Reserved(k) :: k == "A"
  {
  }

  lemma RootSubtree(remote: Remote)
    requires ChildrenBounded(remote, RootFields, 1)
    ensures Bounded(remote, "1", 1)
    ensures Subtree(remote, RootFields, "A", 2) == Crawl(remote, "1", 1)
  {
    assert RootFields["A"] == FolderNode("1");
  }

  lemma RootDescended(remote: Remote)
    requires ChildrenBounded(remote, RootFields, 1) && Bounded(remote, "1", 1) && Crawl(remote, "1", 1) == Returned(AFields)
    ensures Descend(remote, RootFields, 2) == Returned(Expected)
  {
    RootFolderKey();
    RootSubtree(remote);
    DescendSingleFolder(remote, RootFields, 2, "A", AFields);
  }

  /** The document of that tree: `A` with its one file, and the root's own
      `files` beside the root's `id`, whatever else the remote holds. */
  lemma TwoLevelTree(remote: Remote)
    requires HoldsTree(remote)
    ensures Bounded(remote, "root", 2)
    ensures Crawl(remote, "root", 2) == Returned(Expected)
  {
    RootClassified(remote);
    FolderACrawled(remote);
    RootDescended(remote);
  }
}
