/** Referenced-set extraction: the file ids and the collection names that
    chats, knowledge, files and memory rows still use. */
module Referenced {
  import opened Results
  import opened JsonPath
  import opened PyBuiltins
  import opened Stores

  /** `SELECT DISTINCT jsonb_path_query(chat::jsonb, '$.**.<key>') FROM chat`. */
  function ChatMatches(chats: map<string, Chat>, key: string): set<Json>
  {
    set id, v | id in chats && v in Matches(chats[id].chat, key) :: v
  }

  /** `SELECT DISTINCT jsonb_path_query(chat::jsonb, '$.**.file.id') FROM chat`. */
  function ChatFileObjectIds(chats: map<string, Chat>): set<Json>
  {
    set id, v | id in chats && v in MemberOfAll(Matches(chats[id].chat, "file"), "id") :: v
  }

  /** The file ids of one knowledge row: `set(row[0].get('file_ids', []))`. */
  function KnowledgeFileIds(data: Json): Result<set<Json>>
  {
    match data
    case JObj(m) => SetOf(if "file_ids" in m then m["file_ids"] else JArr([]))
    case _ => Err(NoGetMethod)
  }

  /** The loop over the knowledge rows: the union of their file ids, or the
      error of the first row that raises. */
  function KnowledgeRefs(rows: seq<Json>): Result<set<Json>>
  {
    if rows == [] then Ok({})
    else
      match KnowledgeRefs(rows[..|rows| - 1])
      case Err(e) => Err(e)
      case Ok(earlier) =>
        match KnowledgeFileIds(rows[|rows| - 1])
        case Err(e) => Err(e)
        case Ok(ids) => Ok(earlier + ids)
  }

  /** What `find_referenced_files` returns or raises on tables `t`. */
  function ReferencedFiles(t: MainTables): Result<set<Json>>
  {
    match SetOfRows(ChatMatches(t.chats, "file_id"))
    case Err(e) => Err(e)
    case Ok(byKey) =>
      match SetOfRows(ChatFileObjectIds(t.chats))
      case Err(e) => Err(e)
      case Ok(byObject) =>
        match KnowledgeRefs(t.knowledge)
        case Err(e) => Err(e)
        case Ok(byKnowledge) => Ok(byKey + byObject + byKnowledge)
  }

  /** `find_referenced_files`: the two chat queries, then the knowledge rows
      one by one, growing the set in place. */
  method FindReferencedFiles(db: MainDb) returns (r: Result<set<Json>>)
    ensures r == ReferencedFiles(db.live)
  {
    var t := db.live;
    var first := SetOfRows(ChatMatches(t.chats, "file_id"));
    if first.Err? {
      return Err(first.error);
    }
    var files := first.value;
    var second := SetOfRows(ChatFileObjectIds(t.chats));
    if second.Err? {
      return Err(second.error);
    }
    files := files + second.value;
    var rows := t.knowledge;
    var i := 0;
    while i < |rows|
      invariant 0 <= i <= |rows|
      invariant KnowledgeRefs(rows[..i]).Ok?
      invariant files == first.value + second.value + KnowledgeRefs(rows[..i]).value
    {
      assert rows[..i + 1][..i] == rows[..i];
      var ids := KnowledgeFileIds(rows[i]);
      if ids.Err? {
        KnowledgeErrorPersists(rows, i + 1);
        return Err(ids.error);
      }
      files := files + ids.value;
      i := i + 1;
    }
    assert rows[..i] == rows;
    r := Ok(files);
  }

  /** `SELECT DISTINCT jsonb_path_query(meta::jsonb, '$.collection_name') FROM file`:
      the top level of each meta document only. */
  function FileMetaCollections(files: map<string, FileRow>): set<Json>
  {
    set id, v | id in files && v in Member(files[id].meta, "collection_name") :: v
  }

  /** The prefix of the per-user memory collection. */
  const MemoryPrefix: string := "user-memory-"

  /** `f"user-memory-{user_id}"` for every memory row. */
  function MemoryCollections(memory: seq<string>): set<Json>
  {
    set i | 0 <= i < |memory| :: JStr(MemoryPrefix + memory[i])
  }

  /** What `find_referenced_collections` returns or raises on tables `t`. */
  function ReferencedCollections(t: MainTables): Result<set<Json>>
  {
    match SetOfRows(ChatMatches(t.chats, "collection_name"))
    case Err(e) => Err(e)
    case Ok(inChats) =>
      match SetOfRows(FileMetaCollections(t.files))
      case Err(e) => Err(e)
      case Ok(inFiles) => Ok(inChats + inFiles + MemoryCollections(t.memory))
  }

  /** `find_referenced_collections`: three queries whose results are added
      to one set in place. */
  method FindReferencedCollections(db: MainDb) returns (r: Result<set<Json>>)
    ensures r == ReferencedCollections(db.live)
  {
    var t := db.live;
    var inChats := SetOfRows(ChatMatches(t.chats, "collection_name"));
    if inChats.Err? {
      return Err(inChats.error);
    }
    var collections := inChats.value;
    var inFiles := SetOfRows(FileMetaCollections(t.files));
    if inFiles.Err? {
      return Err(inFiles.error);
    }
    collections := collections + inFiles.value;
    collections := collections + MemoryCollections(t.memory);
    r := Ok(collections);
  }

  // ---------------------------------------------------------------------
  // Reference definitions and the lemmas that connect them to the above

  /** A chat document refers to `v` as a file: under a `file_id` key at any
      depth, or as the `id` of a `file` object at any depth. */
  ghost predicate ChatRefersToFile(c: Json, v: Json)
  {
    v in AnyDepth(c, "file_id") || v in MemberOfAll(AnyDepth(c, "file"), "id")
  }

  /** Some knowledge row lists `v` among its file ids. */
  ghost predicate KnowledgeRefersToFile(rows: seq<Json>, v: Json)
  {
    exists i :: 0 <= i < |rows| && KnowledgeFileIds(rows[i]).Ok? && v in KnowledgeFileIds(rows[i]).value
  }

  /** The knowledge loop succeeds exactly when no row raises; it then yields
      the union of the rows' file ids, and otherwise the first row's error. */
  lemma {:induction false} KnowledgeRefsIsUnion(rows: seq<Json>)
    ensures KnowledgeRefs(rows).Ok? <==> forall i :: 0 <= i < |rows| ==> KnowledgeFileIds(rows[i]).Ok?
    ensures KnowledgeRefs(rows).Ok? ==>
      forall v :: v in KnowledgeRefs(rows).value <==> KnowledgeRefersToFile(rows, v)
    ensures KnowledgeRefs(rows).Err? ==>
      exists i :: 0 <= i < |rows| && KnowledgeFileIds(rows[i]) == Err(KnowledgeRefs(rows).error)
        && forall j :: 0 <= j < i ==> KnowledgeFileIds(rows[j]).Ok?
  {
    if rows != [] {
      var init := rows[..|rows| - 1];
      var n := |rows| - 1;
      KnowledgeRefsIsUnion(init);
      assert forall i :: 0 <= i < n ==> rows[i] == init[i];
      if KnowledgeRefs(init).Err? {
        var i :| 0 <= i < |init| && KnowledgeFileIds(init[i]) == Err(KnowledgeRefs(init).error)
          && forall j :: 0 <= j < i ==> KnowledgeFileIds(init[j]).Ok?;
        assert KnowledgeFileIds(rows[i]) == Err(KnowledgeRefs(rows).error);
      } else if KnowledgeRefs(rows).Ok? {
        forall v ensures v in KnowledgeRefs(rows).value <==> KnowledgeRefersToFile(rows, v) {
          if KnowledgeRefersToFile(rows, v) {
            var i :| 0 <= i < |rows| && KnowledgeFileIds(rows[i]).Ok? && v in KnowledgeFileIds(rows[i]).value;
            if i < n {
              assert KnowledgeRefersToFile(init, v);
            }
          }
          if v in KnowledgeRefs(rows).value && v !in KnowledgeFileIds(rows[n]).value {
            assert KnowledgeRefersToFile(init, v);
            var i :| 0 <= i < |init| && KnowledgeFileIds(init[i]).Ok? && v in KnowledgeFileIds(init[i]).value;
            assert rows[i] == init[i];
          }
        }
      }
    }
  }

  /** Once a knowledge row raises, the rows after it are never looked at. */
  lemma {:induction false} KnowledgeErrorPersists(rows: seq<Json>, k: nat)
    requires k <= |rows|
    requires KnowledgeRefs(rows[..k]).Err?
    ensures KnowledgeRefs(rows) == KnowledgeRefs(rows[..k])
    decreases |rows| - k
  {
    if k < |rows| {
      assert rows[..k + 1][..k] == rows[..k];
      KnowledgeErrorPersists(rows, k + 1);
    } else {
      assert rows[..k] == rows;
    }
  }

  /** A knowledge row without `file_ids` contributes nothing. */
  lemma KnowledgeWithoutFileIds(m: map<string, Json>)
    requires "file_ids" !in m
    ensures KnowledgeFileIds(JObj(m)) == Ok({})
  {
    var none: seq<Json> := [];
    assert (set i | 0 <= i < |none| :: none[i]) == {};
  }

  /** A knowledge row whose `file_ids` is a list of strings contributes exactly
      those strings. */
  lemma KnowledgeWithFileIdList(m: map<string, Json>, ids: seq<string>)
    requires "file_ids" in m && m["file_ids"] == JArr(seq(|ids|, i requires 0 <= i < |ids| => JStr(ids[i])))
    ensures KnowledgeFileIds(JObj(m)).Ok?
    ensures forall s :: JStr(s) in KnowledgeFileIds(JObj(m)).value <==> s in ids
  {
    var a := seq(|ids|, i requires 0 <= i < |ids| => JStr(ids[i]));
    SetOfList(a);
    forall s ensures JStr(s) in a <==> s in ids {
      if s in ids {
        var i :| 0 <= i < |ids| && ids[i] == s;
        assert a[i] == JStr(s);
      }
    }
  }

  /** The search of one chat document is exactly the two path expressions. */
  lemma ChatSearchIsPaths(c: Json, v: Json)
    ensures ChatRefersToFile(c, v) <==> v in Matches(c, "file_id") || v in MemberOfAll(Matches(c, "file"), "id")
  {
    MatchesIsAnyDepth(c, "file_id");
    MatchesIsAnyDepth(c, "file");
  }

  /** The referenced file ids are exactly the three-way union: every file
      reference of every chat, and every knowledge row's file ids. */
  lemma ReferencedFilesIsUnion(t: MainTables)
    requires ReferencedFiles(t).Ok?
    ensures forall v :: v in ReferencedFiles(t).value <==>
      (exists id :: id in t.chats && ChatRefersToFile(t.chats[id].chat, v))
      || KnowledgeRefersToFile(t.knowledge, v)
  {
    KnowledgeRefsIsUnion(t.knowledge);
    forall v ensures v in ReferencedFiles(t).value <==>
      (exists id :: id in t.chats && ChatRefersToFile(t.chats[id].chat, v))
      || KnowledgeRefersToFile(t.knowledge, v)
    {
      if exists id :: id in t.chats && ChatRefersToFile(t.chats[id].chat, v) {
        var id :| id in t.chats && ChatRefersToFile(t.chats[id].chat, v);
        ChatSearchIsPaths(t.chats[id].chat, v);
      }
      if v in ChatMatches(t.chats, "file_id") {
        var id :| id in t.chats && v in Matches(t.chats[id].chat, "file_id");
        ChatSearchIsPaths(t.chats[id].chat, v);
      }
      if v in ChatFileObjectIds(t.chats) {
        var id :| id in t.chats && v in MemberOfAll(Matches(t.chats[id].chat, "file"), "id");
        ChatSearchIsPaths(t.chats[id].chat, v);
      }
    }
  }

  /** The extraction raises exactly when a chat refers to a mapping or a list
      as a file id, or a knowledge row raises. */
  lemma ReferencedFilesFails(t: MainTables)
    ensures ReferencedFiles(t).Err? <==>
      (exists v :: v in ChatMatches(t.chats, "file_id") + ChatFileObjectIds(t.chats) && !Hashable(v))
      || (exists i :: 0 <= i < |t.knowledge| && KnowledgeFileIds(t.knowledge[i]).Err?)
  {
    KnowledgeRefsIsUnion(t.knowledge);
  }

  /** Fewer chats (the knowledge rows unchanged) never refer to more files:
      once the extraction succeeds on `t`, it succeeds on `t'` with a subset. */
  lemma ReferencedFilesMonotone(t: MainTables, t': MainTables)
    requires t'.chats.Keys <= t.chats.Keys
    requires forall id :: id in t'.chats ==> t'.chats[id] == t.chats[id]
    requires t'.knowledge == t.knowledge
    requires ReferencedFiles(t).Ok?
    ensures ReferencedFiles(t').Ok?
    ensures ReferencedFiles(t').value <= ReferencedFiles(t).value
  {
    assert ChatMatches(t'.chats, "file_id") <= ChatMatches(t.chats, "file_id");
    assert ChatFileObjectIds(t'.chats) <= ChatFileObjectIds(t.chats);
  }

  /** The referenced collections are exactly the union of the chats'
      `collection_name` values at any depth, the top-level `collection_name`
      of every file's meta, and one collection per memory user. */
  lemma ReferencedCollectionsIsUnion(t: MainTables)
    requires ReferencedCollections(t).Ok?
    ensures forall v :: v in ReferencedCollections(t).value <==>
      (exists id :: id in t.chats && v in AnyDepth(t.chats[id].chat, "collection_name"))
      || (exists id :: id in t.files && t.files[id].meta.JObj? && "collection_name" in t.files[id].meta.members
            && v == t.files[id].meta.members["collection_name"])
      || (exists i :: 0 <= i < |t.memory| && v == JStr(MemoryPrefix + t.memory[i]))
  {
    forall v ensures v in ReferencedCollections(t).value <==>
      (exists id :: id in t.chats && v in AnyDepth(t.chats[id].chat, "collection_name"))
      || (exists id :: id in t.files && t.files[id].meta.JObj? && "collection_name" in t.files[id].meta.members
            && v == t.files[id].meta.members["collection_name"])
      || (exists i :: 0 <= i < |t.memory| && v == JStr(MemoryPrefix + t.memory[i]))
    {
      if exists id :: id in t.chats && v in AnyDepth(t.chats[id].chat, "collection_name") {
        var id :| id in t.chats && v in AnyDepth(t.chats[id].chat, "collection_name");
        MatchesIsAnyDepth(t.chats[id].chat, "collection_name");
      }
      if v in ChatMatches(t.chats, "collection_name") {
        var id :| id in t.chats && v in Matches(t.chats[id].chat, "collection_name");
        MatchesIsAnyDepth(t.chats[id].chat, "collection_name");
      }
      if exists id :: id in t.files && t.files[id].meta.JObj? && "collection_name" in t.files[id].meta.members
            && v == t.files[id].meta.members["collection_name"] {
        var id :| id in t.files && t.files[id].meta.JObj? && "collection_name" in t.files[id].meta.members
            && v == t.files[id].meta.members["collection_name"];
        assert v in Member(t.files[id].meta, "collection_name");
      }
    }
  }

  /** Every memory user's collection is referenced. */
  lemma MemoryCollectionsReferenced(t: MainTables)
    requires ReferencedCollections(t).Ok?
    ensures forall u :: u in t.memory ==> JStr("user-memory-" + u) in ReferencedCollections(t).value
  {
    forall u | u in t.memory ensures JStr("user-memory-" + u) in MemoryCollections(t.memory) {
      var i :| 0 <= i < |t.memory| && t.memory[i] == u;
    }
  }

  /** The collection extraction raises exactly when a chat or a file's meta
      names a mapping or a list as its collection. */
  lemma ReferencedCollectionsFails(t: MainTables)
    ensures ReferencedCollections(t).Err? <==>
      exists v :: v in ChatMatches(t.chats, "collection_name") + FileMetaCollections(t.files) && !Hashable(v)
  {
  }
}
