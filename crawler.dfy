/** `appendFolders` as a whole (list, classify, recurse into every folder
    key) and the driver that crawls each configured root and then writes its
    document. */
module Crawler {
  import opened Options
  import opened JsonValues
  import opened Listing
  import opened Classification

  /** The remote drive as a script: for each folder id, the replies to the
      successive listing calls made for it. */
  datatype Remote = Remote(listings: map<string, seq<Reply>>)

  /** The keys the recursion skips. */
  predicate Reserved(key: string) {
    key == "files" || key == "id"
  }

  /** A node as the crawler creates it before listing it: `{id}` and nothing else. */
  predicate IsSeed(json: map<string, Json>) {
    json.Keys == {"id"} && json["id"].JString?
  }

  function Seed(id: string): (json: map<string, Json>)
    ensures IsSeed(json)
  {
    map["id" := JString(id)]
  }

  /** Crawling `id` ends within `height` levels: its script reaches a final
      reply, and when that reply is a page, the crawl of every folder it
      lists ends within `height - 1`. Pages before it and replies after it
      are never classified and are not constrained. */
  ghost predicate Bounded(remote: Remote, id: string, height: nat)
    decreases height
  {
    && height > 0
    && id in remote.listings
    && ExitsFrom(remote.listings[id], 0)
    && var last := remote.listings[id][FirstFinal(remote.listings[id], 0)];
       forall e | last.Page? && e in last.entries && IsFolder(e) :: Bounded(remote, e.id, height - 1)
  }

  /** Every key the recursion enters holds a seed whose crawl ends within `height`. */
  ghost predicate ChildrenBounded(remote: Remote, json: map<string, Json>, height: nat) {
    forall k | k in json && !Reserved(k) ::
      json[k].JObject? && IsSeed(json[k].fields) && Bounded(remote, json[k].fields["id"].str, height)
  }

  /** How `appendFolders` ends for one node: it returns with the node's final
      keys, or the TypeError of a `push` escapes (from this node or from any
      folder below it) and the returned promise rejects. */
  datatype Crawled = Returned(fields: map<string, Json>) | Threw

  /** After a listing that ends with a page, every key the recursion enters
      holds `{id}` of a folder listed on that page. */
  lemma ClassifiedChildrenBounded(remote: Remote, id: string, height: nat, fields: map<string, Json>)
    requires Bounded(remote, id, height)
    requires Run(remote.listings[id]).Listed?
    requires Classify(Seed(id), Run(remote.listings[id]).entries) == Classified(fields)
    ensures ChildrenBounded(remote, fields, height - 1)
    ensures forall k | k in fields && !Reserved(k) ::
      exists e | e in Run(remote.listings[id]).entries && IsFolder(e) && e.name == k :: fields[k] == FolderNode(e.id)
  {
    var script := remote.listings[id];
    var entries := Run(script).entries;
    RunStopsAtFirstFinal(script);
    var last := script[FirstFinal(script, 0)];
    assert last.Page? && last.entries == entries;
    ClassifyProtoKey(Seed(id), entries);
    forall k | k in fields && !Reserved(k)
      ensures fields[k].JObject? && IsSeed(fields[k].fields) && Bounded(remote, fields[k].fields["id"].str, height - 1)
    {
      ClassifyFolderKeys(Seed(id), entries, k);
      var i := LastFolder(entries, k).value;
      assert entries[i] in last.entries;
    }
    forall k | k in fields && !Reserved(k)
      ensures exists e | e in entries && IsFolder(e) && e.name == k :: fields[k] == FolderNode(e.id)
    {
      ClassifyFolderKeys(Seed(id), entries, k);
      assert entries[LastFolder(entries, k).value] in entries;
    }
  }

  /** The node `appendFolders` leaves for folder `id`: its seed when the
      listing returns early, else the classified keys with every folder key
      crawled in turn. */
  ghost function Crawl(remote: Remote, id: string, height: nat): Crawled
    requires Bounded(remote, id, height)
    decreases height, 2
  {
    match Run(remote.listings[id])
    case Aborted(_, _, _) => Returned(Seed(id))
    case Listed(entries, _, _) =>
      match Classify(Seed(id), entries)
      case TypeError => Threw
      case Classified(fields) =>
        ClassifiedChildrenBounded(remote, id, height, fields);
        Descend(remote, fields, height)
  }

  /** The `for … in` over the node's keys together with `Promise.all`: each
      key but `files` and `id` is replaced by its crawled subtree, and any
      subtree that throws makes the whole node throw. */
  ghost function Descend(remote: Remote, fields: map<string, Json>, height: nat): Crawled
    requires height > 0 && ChildrenBounded(remote, fields, height - 1)
    decreases height, 1
  {
    if exists k | k in fields && !Reserved(k) :: Subtree(remote, fields, k, height).Threw? then Threw
    else Returned(map k | k in fields ::
                    if Reserved(k) then fields[k] else JObject(Subtree(remote, fields, k, height).fields))
  }

  /** The crawl of the folder whose `{id}` key `k` holds. */
  ghost function Subtree(remote: Remote, fields: map<string, Json>, k: string, height: nat): Crawled
    requires height > 0 && ChildrenBounded(remote, fields, height - 1)
    requires k in fields && !Reserved(k)
    decreases height, 0
  {
    Crawl(remote, fields[k].fields["id"].str, height - 1)
  }

  /** A node returned by `Descend` holds, under each folder key, the
      complete and returned crawl of that folder, and keeps `files` and `id`. */
  lemma DescendedKey(remote: Remote, fields: map<string, Json>, height: nat, k: string)
    requires height > 0 && ChildrenBounded(remote, fields, height - 1)
    requires Descend(remote, fields, height).Returned? && k in fields
    ensures Descend(remote, fields, height).fields.Keys == fields.Keys
    ensures Reserved(k) ==> Descend(remote, fields, height).fields[k] == fields[k]
    ensures !Reserved(k) ==>
      && Subtree(remote, fields, k, height).Returned?
      && Descend(remote, fields, height).fields[k] == JObject(Subtree(remote, fields, k, height).fields)
  {
  }

  /** A node without folder keys is returned as it is. */
  lemma DescendLeaf(remote: Remote, fields: map<string, Json>, height: nat)
    requires height > 0 && forall k | k in fields :: Reserved(k)
    ensures ChildrenBounded(remote, fields, height - 1)
    ensures Descend(remote, fields, height) == Returned(fields)
  {
    assert Descend(remote, fields, height).Returned?;
    forall k | k in fields
      ensures Descend(remote, fields, height).fields[k] == fields[k]
    {
      DescendedKey(remote, fields, height, k);
    }
  }

  /** A node with a single folder key whose crawl returns holds that crawl
      under the key, beside its unchanged `files` and `id`. */
  lemma DescendSingleFolder(remote: Remote, fields: map<string, Json>, height: nat, key: string, sub: map<string, Json>)
    requires height > 0 && ChildrenBounded(remote, fields, height - 1)
    requires key in fields && !Reserved(key) && Subtree(remote, fields, key, height) == Returned(sub)
    requires forall k | k in fields && !Reserved(k) :: k == key
    ensures Descend(remote, fields, height) == Returned(fields[key := JObject(sub)])
  {
    assert Descend(remote, fields, height).Returned?;
    var d := Descend(remote, fields, height).fields;
    forall k | k in fields
      ensures d[k] == fields[key := JObject(sub)][k]
    {
      DescendedKey(remote, fields, height, k);
    }
  }

  /** `AppendFolders` lists the folder of `json.id`, classifies the last
      page's entries into the node and recurses into every other key, ending
      as `Crawl` says. */
  method AppendFolders(remote: Remote, json: map<string, Json>, ghost height: nat) returns (r: Crawled)
    requires IsSeed(json) && Bounded(remote, json["id"].str, height)
    ensures r == Crawl(remote, json["id"].str, height)
    decreases height, 2
  {
    var id := json["id"].str;
    assert json == Seed(id);
    var listing := ListFolder(remote.listings[id]);
    if listing.Aborted? {
      return Returned(json);
    }
    var classified := ClassifyEntries(json, listing.entries);
    if classified.TypeError? {
      return Threw;
    }
    ClassifiedChildrenBounded(remote, id, height, classified.fields);
    r := AppendChildren(remote, classified.fields, height);
  }

  /** The `for … in` over the node's keys: every key but `files` and `id` is
      crawled and replaced by its subtree, ending as `Descend` says. Siblings
      own disjoint nodes, so crawling them one after the other leaves what
      `Promise.all` leaves. */
  method AppendChildren(remote: Remote, fields: map<string, Json>, ghost height: nat) returns (r: Crawled)
    requires height > 0 && ChildrenBounded(remote, fields, height - 1)
    ensures r == Descend(remote, fields, height)
    decreases height, 1
  {
    var pending := fields.Keys;
    var node := fields;
    while pending != {}
      invariant pending <= fields.Keys && node.Keys == fields.Keys
      invariant forall k | k in fields && (k in pending || Reserved(k)) :: node[k] == fields[k]
      invariant forall k | k in fields && k !in pending && !Reserved(k) ::
        Subtree(remote, fields, k, height).Returned? && node[k] == JObject(Subtree(remote, fields, k, height).fields)
      decreases pending
    {
      var k :| k in pending;
      pending := pending - {k};
      if k != "files" && k != "id" {
        var child := AppendFolders(remote, fields[k].fields, height - 1);
        assert child == Subtree(remote, fields, k, height);
        if child.Threw? {
          return Threw;
        }
        node := node[k := JObject(child.fields)];
      }
    }
    r := Returned(node);
    assert node == map k | k in fields ::
      if Reserved(k) then fields[k] else JObject(Subtree(remote, fields, k, height).fields);
  }

  /** An error other than the rate limit ends the folder's listing early:
      the node keeps its seed, with no folder key and no `files`, and the
      crawl still returns normally. */
  lemma AbortLeavesSeed(remote: Remote, id: string, height: nat)
    requires Bounded(remote, id, height)
    requires remote.listings[id][FirstFinal(remote.listings[id], 0)].Failure?
    ensures Crawl(remote, id, height) == Returned(Seed(id))
  {
    RunStopsAtFirstFinal(remote.listings[id]);
  }

  /** A crawled node has exactly the keys classification gave it, and each
      key but `files` and `id` holds the complete crawl of the folder last
      listed under that name on the final page: the node is returned only
      after all of its subtrees have been. */
  lemma CrawledKeys(remote: Remote, id: string, height: nat)
    requires Bounded(remote, id, height) && Crawl(remote, id, height).Returned?
    requires Run(remote.listings[id]).Listed?
    ensures var entries := Run(remote.listings[id]).entries;
      var m := Crawl(remote, id, height).fields;
      && Classify(Seed(id), entries).Classified?
      && m.Keys == Classify(Seed(id), entries).fields.Keys
      && ProtoKey !in m
      && (forall k | k in m && Reserved(k) :: m[k] == Classify(Seed(id), entries).fields[k])
      && forall k | k in m && !Reserved(k) ::
           && LastFolder(entries, k).Some?
           && var child := entries[LastFolder(entries, k).value].id;
           && Bounded(remote, child, height - 1)
           && Crawl(remote, child, height - 1).Returned?
           && m[k] == JObject(Crawl(remote, child, height - 1).fields)
  {
    var entries := Run(remote.listings[id]).entries;
    var fields := Classify(Seed(id), entries).fields;
    ClassifiedChildrenBounded(remote, id, height, fields);
    assert Crawl(remote, id, height) == Descend(remote, fields, height);
    ClassifyProtoKey(Seed(id), entries);
    forall k | k in fields
      ensures k in Crawl(remote, id, height).fields
      ensures Reserved(k) ==> Crawl(remote, id, height).fields[k] == fields[k]
      ensures !Reserved(k) ==>
        && LastFolder(entries, k).Some?
        && var child := entries[LastFolder(entries, k).value].id;
        && Bounded(remote, child, height - 1)
        && Crawl(remote, child, height - 1).Returned?
        && Crawl(remote, id, height).fields[k] == JObject(Crawl(remote, child, height - 1).fields)
    {
      DescendedKey(remote, fields, height, k);
      if !Reserved(k) {
        ClassifyProtoKey(Seed(id), entries);
        ClassifyFolderKeys(Seed(id), entries, k);
      }
    }
  }

  /** A subtree whose listing fails with an error other than the rate limit
      stays `{id}` inside a tree that is otherwise complete and returned, so
      the driver writes that partial tree. */
  lemma FailedFolderStaysSeed(remote: Remote, id: string, height: nat, key: string)
    requires Bounded(remote, id, height) && Crawl(remote, id, height).Returned?
    requires Run(remote.listings[id]).Listed?
    requires key in Crawl(remote, id, height).fields && !Reserved(key)
    requires var entries := Run(remote.listings[id]).entries;
      LastFolder(entries, key).Some? &&
      var child := entries[LastFolder(entries, key).value].id;
      child in remote.listings && ExitsFrom(remote.listings[child], 0) &&
      remote.listings[child][FirstFinal(remote.listings[child], 0)].Failure?
    ensures var entries := Run(remote.listings[id]).entries;
      Crawl(remote, id, height).fields[key] == FolderNode(entries[LastFolder(entries, key).value].id)
  {
    CrawledKeys(remote, id, height);
    var entries := Run(remote.listings[id]).entries;
    AbortLeavesSeed(remote, entries[LastFolder(entries, key).value].id, height - 1);
  }

  /** What the driver did for one root: it wrote the document of the crawled tree. */
  datatype Event = Wrote(file: string, document: Json)

  /** The driver: for each configured root in order, seed `{id}`, wait for
      `AppendFolders`, then write the node to that root's file. A TypeError
      escaping a crawl rejects the driver's own promise, so that root and all
      later ones are never written. */
  method GenerateFiles(remotes: seq<Remote>, rootIds: seq<string>, files: seq<string>, ghost heights: seq<nat>)
    returns (events: seq<Event>, threw: bool)
    requires |remotes| == |rootIds| == |files| == |heights|
    requires forall i | 0 <= i < |files| :: Bounded(remotes[i], rootIds[i], heights[i])
    ensures |events| <= |files|
    ensures forall i | 0 <= i < |events| ::
      && Crawl(remotes[i], rootIds[i], heights[i]).Returned?
      && events[i] == Wrote(files[i], JObject(Crawl(remotes[i], rootIds[i], heights[i]).fields))
    ensures threw <==> |events| < |files|
    ensures threw ==> Crawl(remotes[|events|], rootIds[|events|], heights[|events|]).Threw?
  {
    events, threw := [], false;
    for i := 0 to |files|
      invariant |events| == i
      invariant forall j | 0 <= j < i ::
        && Crawl(remotes[j], rootIds[j], heights[j]).Returned?
        && events[j] == Wrote(files[j], JObject(Crawl(remotes[j], rootIds[j], heights[j]).fields))
    {
      var json := Seed(rootIds[i]);
      var crawled := AppendFolders(remotes[i], json, heights[i]);
      if crawled.Threw? {
        threw := true;
        return;
      }
      events := events + [Wrote(files[i], JObject(crawled.fields))];
    }
  }
}
