/** The `forEach` over the entries of the last response in `appendFolders`:
    folders become keys of the node, other entries are pushed onto its
    `files` array. */
module Classification {
  import opened Options
  import opened JsonValues
  import opened Listing

  /** `{id}`, the node created for a listed folder. */
  function FolderNode(id: string): Json {
    JObject(map["id" := JString(id)])
  }

  /** `{name, id}`, the record pushed for a listed file. */
  function FileRecord(e: Entry): Json {
    JObject(map["name" := JString(e.name), "id" := JString(e.id)])
  }

  /** The node's keys after classification, or the TypeError thrown by
      `push` when `files` holds something other than an array. */
  datatype Classified = Classified(fields: map<string, Json>) | TypeError

  /** The one name under which `json[name] = …` adds no own key: it calls
      the `__proto__` setter of `Object.prototype`, which only replaces the
      node's prototype. That prototype's one key, `id`, is hidden by the
      node's own `id` from `for … in`, and `JSON.stringify` ignores it. */
  const ProtoKey := "__proto__"

  /** One call of the `forEach` callback. */
  function AddEntry(json: map<string, Json>, v: Entry): Classified {
    if IsFolder(v) then
      if v.name == ProtoKey then Classified(json) else Classified(json[v.name := FolderNode(v.id)])
    else
      var withFiles := if "files" !in json then json["files" := JArray([])] else json;
      match withFiles["files"]
      case JArray(items) => Classified(withFiles["files" := JArray(items + [FileRecord(v)])])
      case _ => TypeError
  }

  /** The callback applied to the entries in listing order. */
  function Classify(json: map<string, Json>, entries: seq<Entry>): Classified {
    if entries == [] then Classified(json)
    else
      match Classify(json, entries[..|entries| - 1])
      case TypeError => TypeError
      case Classified(m) => AddEntry(m, entries[|entries| - 1])
  }

  predicate NamesFolder(e: Entry, name: string) {
    IsFolder(e) && e.name == name
  }

  /** The position of the last folder entry called `name`. */
  function LastFolder(entries: seq<Entry>, name: string): (r: Option<nat>)
    ensures r.Some? ==> r.value < |entries| && NamesFolder(entries[r.value], name)
    ensures r.Some? ==> forall j | r.value < j < |entries| :: !NamesFolder(entries[j], name)
    ensures r.None? ==> forall j | 0 <= j < |entries| :: !NamesFolder(entries[j], name)
  {
    if entries == [] then None
    else if NamesFolder(entries[|entries| - 1], name) then Some(|entries| - 1)
    else LastFolder(entries[..|entries| - 1], name)
  }

  /** The `{name, id}` records of the entries that are not folders, in
      listing order. */
  function FileRecords(entries: seq<Entry>): seq<Json> {
    if entries == [] then []
    else
      var e := entries[|entries| - 1];
      FileRecords(entries[..|entries| - 1]) + (if IsFolder(e) then [] else [FileRecord(e)])
  }

  /** A folder named `files` is listed before some file. */
  predicate FolderThenFile(entries: seq<Entry>) {
    exists i, j :: 0 <= i < j < |entries| && NamesFolder(entries[i], "files") && !IsFolder(entries[j])
  }

  /** Every key but `files` ends up holding `{id}` of the LAST folder listed
      under that name (a later folder overwrites an earlier one); a key no
      folder is named after keeps what the node had. */
  lemma {:induction false} ClassifyFolderKeys(json: map<string, Json>, entries: seq<Entry>, key: string)
    requires key != "files" && key != ProtoKey && Classify(json, entries).Classified?
    ensures var m := Classify(json, entries).fields;
      match LastFolder(entries, key)
      case Some(i) => key in m && m[key] == FolderNode(entries[i].id)
      case None => (key in m <==> key in json) && (key in json ==> m[key] == json[key])
  {
    if entries != [] {
      var p := entries[..|entries| - 1];
      ClassifyFolderKeys(json, p, key);
    }
  }

  /** What `files` holds after the entries: the `{id}` of the last folder
      named `files` if there is one, otherwise the records of all files in
      listing order, the key being absent while there are none. */
  predicate FilesAs(m: map<string, Json>, entries: seq<Entry>) {
    match LastFolder(entries, "files")
    case Some(i) => "files" in m && m["files"] == FolderNode(entries[i].id)
    case None =>
      && ("files" in m <==> FileRecords(entries) != [])
      && ("files" in m ==> m["files"] == JArray(FileRecords(entries)))
  }

  /** One callback keeps `FilesAs`, and throws exactly when a file meets a
      `files` key holding a folder. */
  lemma AddEntryFiles(m: map<string, Json>, p: seq<Entry>, e: Entry)
    requires FilesAs(m, p)
    ensures AddEntry(m, e).TypeError? <==> !IsFolder(e) && LastFolder(p, "files").Some?
    ensures AddEntry(m, e).Classified? ==> FilesAs(AddEntry(m, e).fields, p + [e])
  {
    var entries := p + [e];
    assert entries[..|entries| - 1] == p;
    if NamesFolder(e, "files") {
      assert LastFolder(entries, "files") == Some(|p|);
    } else if IsFolder(e) {
      assert LastFolder(entries, "files") == LastFolder(p, "files");
      assert FileRecords(entries) == FileRecords(p);
    } else {
      assert LastFolder(entries, "files") == LastFolder(p, "files");
      assert FileRecords(entries) == FileRecords(p) + [FileRecord(e)];
    }
  }

  /** A folder named `__proto__` never becomes a key: the node's own
      `__proto__` key, if any, is kept as it was. */
  lemma {:induction false} ClassifyProtoKey(json: map<string, Json>, entries: seq<Entry>)
    requires Classify(json, entries).Classified?
    ensures var m := Classify(json, entries).fields;
      && (ProtoKey in m <==> ProtoKey in json)
      && (ProtoKey in json ==> m[ProtoKey] == json[ProtoKey])
  {
    if entries != [] {
      ClassifyProtoKey(json, entries[..|entries| - 1]);
    }
  }

  /** For a node without `files`: the callback throws exactly when a folder
      named `files` comes before a file (the folder's `{id}` object has no
      `push`). Otherwise `files` is as `FilesAs` says. */
  lemma {:induction false} ClassifyFiles(json: map<string, Json>, entries: seq<Entry>)
    requires "files" !in json
    ensures Classify(json, entries).TypeError? <==> FolderThenFile(entries)
    ensures Classify(json, entries).Classified? ==> FilesAs(Classify(json, entries).fields, entries)
  {
    if entries != [] {
      var n := |entries|;
      var p, e := entries[..n - 1], entries[n - 1];
      ClassifyFiles(json, p);
      FolderThenFileLast(entries);
      assert entries == p + [e];
      if Classify(json, p).Classified? {
        AddEntryFiles(Classify(json, p).fields, p, e);
      }
    }
  }

  /** A folder named `files` precedes a file in `entries` when it does so
      before the last entry, or the last entry is a file and such a folder
      came earlier. */
  lemma FolderThenFileLast(entries: seq<Entry>)
    requires entries != []
    ensures var p := entries[..|entries| - 1];
      FolderThenFile(entries)
      <==> FolderThenFile(p) || (!IsFolder(entries[|entries| - 1]) && LastFolder(p, "files").Some?)
  {
    var n := |entries|;
    var p := entries[..n - 1];
    if FolderThenFile(entries) && !FolderThenFile(p) {
      var i, j :| 0 <= i < j < n && NamesFolder(entries[i], "files") && !IsFolder(entries[j]);
      assert j == n - 1;
      assert NamesFolder(p[i], "files");
    }
    if FolderThenFile(p) {
      var i, j :| 0 <= i < j < |p| && NamesFolder(p[i], "files") && !IsFolder(p[j]);
      assert NamesFolder(entries[i], "files") && !IsFolder(entries[j]);
    }
    if !IsFolder(entries[n - 1]) && LastFolder(p, "files").Some? {
      var i := LastFolder(p, "files").value;
      assert NamesFolder(entries[i], "files");
    }
  }

  /** Once the callback has thrown, the rest of the entries are not seen. */
  lemma {:induction false} ThrownStaysThrown(json: map<string, Json>, entries: seq<Entry>, k: nat)
    requires k <= |entries| && Classify(json, entries[..k]).TypeError?
    ensures Classify(json, entries).TypeError?
    decreases |entries| - k
  {
    if k < |entries| {
      assert entries[..k + 1][..k] == entries[..k];
      ThrownStaysThrown(json, entries, k + 1);
    } else {
      assert entries[..k] == entries;
    }
  }

  /** `ClassifyEntries` runs the `forEach` over the entries, stopping at the
      TypeError, and ends as `Classify` says. */
  method ClassifyEntries(json: map<string, Json>, entries: seq<Entry>) returns (r: Classified)
    ensures r == Classify(json, entries)
  {
    var node := json;
    for i := 0 to |entries|
      invariant Classify(json, entries[..i]) == Classified(node)
    {
      var v := entries[i];
      assert entries[..i + 1][..i] == entries[..i];
      if IsFolder(v) {
        if v.name != ProtoKey {
          node := node[v.name := FolderNode(v.id)];
        }
      } else {
        if "files" !in node {
          node := node["files" := JArray([])];
        }
        if !node["files"].JArray? {
          ThrownStaysThrown(json, entries, i + 1);
          return TypeError;
        }
        node := node["files" := JArray(node["files"].items + [FileRecord(v)])];
      }
    }
    assert entries[..|entries|] == entries;
    r := Classified(node);
  }
}
