/** The crawler's output read back by the server: walking a crawled document
    by the folder names met during the crawl reaches that folder's node. */
module RoundTrip {
  import opened Options
  import opened JsonValues
  import opened Listing
  import opened Classification
  import opened Crawler
  import opened Lookup

  /** The folder the crawl reaches from `id` by entering the keys of `path`
      one after the other, each a folder key of the node above it. */
  ghost function Walk(remote: Remote, id: string, height: nat, path: seq<string>): Option<string>
    requires Bounded(remote, id, height)
    decreases |path|
  {
    if path == [] then Some(id)
    else
      match Run(remote.listings[id])
      case Aborted(_, _, _) => None
      case Listed(entries, _, _) =>
        match Classify(Seed(id), entries)
        case TypeError => None
        case Classified(fields) =>
          if path[0] in fields && !Reserved(path[0]) then
            ClassifiedChildrenBounded(remote, id, height, fields);
            Walk(remote, fields[path[0]].fields["id"].str, height - 1, path[1..])
          else None
  }

  /** Looking up, in a crawled document, the names by which the crawl found a
      folder yields exactly the node the crawl built for that folder, with
      its `id` and its `files`. */
  lemma {:induction false} LookupFindsCrawledFolder(remote: Remote, id: string, height: nat, path: seq<string>)
    requires Bounded(remote, id, height) && Crawl(remote, id, height).Returned?
    requires Walk(remote, id, height, path).Some?
    ensures |path| < height
    ensures var target := Walk(remote, id, height, path).value;
      && Bounded(remote, target, height - |path|)
      && Crawl(remote, target, height - |path|).Returned?
      && Resolve(JObject(Crawl(remote, id, height).fields), path)
         == Some(JObject(Crawl(remote, target, height - |path|).fields))
    decreases |path|
  {
    if path != [] {
      var entries := Run(remote.listings[id]).entries;
      var fields := Classify(Seed(id), entries).fields;
      ClassifiedChildrenBounded(remote, id, height, fields);
      var child := fields[path[0]].fields["id"].str;
      var m := Crawl(remote, id, height).fields;
      assert Crawl(remote, id, height) == Descend(remote, fields, height);
      DescendedKey(remote, fields, height, path[0]);
      LookupFindsCrawledFolder(remote, child, height - 1, path[1..]);
    }
  }

  /** A request for the crawled path (the names joined by "/", followed by
      the one trailing character that `slice(0, -1)` drops) is split back
      into that path and resolves to the crawled node; so `GetFilesData`
      answers with that path and that node. Names holding a "/" cannot be
      requested. */
  lemma ServeCrawledFolder(remote: Remote, id: string, height: nat, path: seq<string>)
    requires Bounded(remote, id, height) && Crawl(remote, id, height).Returned?
    requires Walk(remote, id, height, path).Some?
    requires |path| > 0 && forall i | 0 <= i < |path| :: '/' !in path[i]
    ensures |path| < height
    ensures var param := Join(path) + "/";
      var target := Walk(remote, id, height, path).value;
      && param != ""
      && Split(param[..|param| - 1]) == path
      && Bounded(remote, target, height - |path|)
      && Crawl(remote, target, height - |path|).Returned?
      && Resolve(JObject(Crawl(remote, id, height).fields), Split(param[..|param| - 1]))
         == Some(JObject(Crawl(remote, target, height - |path|).fields))
  {
    var param := Join(path) + "/";
    assert param[..|param| - 1] == Join(path);
    SplitJoin(path);
    LookupFindsCrawledFolder(remote, id, height, path);
  }
}
