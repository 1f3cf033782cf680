/** Concrete runs of the extraction, calculation and retention steps on
    small stores. */
module Scenarios {
  import opened Results
  import opened JsonPath
  import opened PyBuiltins
  import opened Stores
  import opened Referenced
  import opened UnusedSets
  import opened Passes
  import opened Cleanup

  /** A chat whose only message carries `file_id` "f1". */
  function MessageChat(): Json
  {
    JObj(map["messages" := JArr([JObj(map["file_id" := JStr("f1")])])])
  }

  /** A one-element array holds the matches of its element. */
  lemma MatchesOfSingleton(x: Json, key: string)
    ensures Matches(JArr([x]), key) == Matches(x, key)
  {
    forall v | v in Matches(x, key) ensures v in Matches(JArr([x]), key) {
      assert [x][0] == x;
    }
  }

  /** A one-member object holds its member's value when the key is the one
      sought, and the member's matches. */
  lemma MatchesOfSingleMember(k: string, x: Json, key: string)
    ensures Matches(JObj(map[k := x]), key) == (if k == key then {x} else {}) + Matches(x, key)
  {
    var m := map[k := x];
    forall v | v in Matches(x, key) ensures v in Matches(JObj(m), key) {
      assert k in m && m[k] == x;
    }
  }

  /** The visitor finds the nested `file_id` and nothing under other keys. */
  lemma MessageChatFileIds()
    ensures Matches(MessageChat(), "file_id") == {JStr("f1")}
    ensures Matches(MessageChat(), "file") == {}
  {
    var inner := JObj(map["file_id" := JStr("f1")]);
    MatchesOfSingleMember("file_id", JStr("f1"), "file_id");
    MatchesOfSingleMember("file_id", JStr("f1"), "file");
    MatchesOfSingleton(inner, "file_id");
    MatchesOfSingleton(inner, "file");
    MatchesOfSingleMember("messages", JArr([inner]), "file_id");
    MatchesOfSingleMember("messages", JArr([inner]), "file");
  }

  /** One chat referring to f1, file rows f1 and f2, no knowledge and no
      memory rows: the unused file set is {f2}. */
  lemma UnusedFileScenario()
    ensures var t := MainTables(
                map["c1" := Chat(false, 0, MessageChat())],
                map["f1" := FileRow(Some("/data/f1"), JNull), "f2" := FileRow(Some("/data/f2"), JNull)],
                [], []);
      ReferencedFiles(t) == Ok({JStr("f1")})
      && UnusedFilesDb(t.files, ReferencedFiles(t).value) == {"f2"}
  {
    var t := MainTables(
                map["c1" := Chat(false, 0, MessageChat())],
                map["f1" := FileRow(Some("/data/f1"), JNull), "f2" := FileRow(Some("/data/f2"), JNull)],
                [], []);
    MessageChatFileIds();
    assert "c1" in t.chats && t.chats["c1"].chat == MessageChat();
    assert ChatMatches(t.chats, "file_id") == {JStr("f1")};
    assert ChatFileObjectIds(t.chats) == {};
    var u := UnusedFilesDb(t.files, {JStr("f1")});
    assert "f2" in u;
    assert "f1" !in u;
  }

  /** A memory row of user 42 and nothing else: "user-memory-42" is a
      referenced collection. */
  lemma MemoryUserScenario()
    ensures var t := MainTables(map[], map[], [], ["42"]);
      ReferencedCollections(t).Ok? && JStr("user-memory-42") in ReferencedCollections(t).value
  {
    var t := MainTables(map[], map[], [], ["42"]);
    assert ChatMatches(t.chats, "collection_name") == {};
    assert FileMetaCollections(t.files) == {};
    MemoryCollectionsReferenced(t);
    assert "42" in t.memory;
    assert "user-memory-" + "42" == "user-memory-42";
  }

  /** A `collection_name` nested inside a file's meta is not a reference; the
      top-level one is. */
  lemma MetaTopLevelOnly()
    ensures var nested := map["f" := FileRow(None, JObj(map["data" := JObj(map["collection_name" := JStr("x")])]))];
      FileMetaCollections(nested) == {}
    ensures var top := map["f" := FileRow(None, JObj(map["collection_name" := JStr("x")]))];
      FileMetaCollections(top) == {JStr("x")}
  {
    var top := map["f" := FileRow(None, JObj(map["collection_name" := JStr("x")]))];
    assert JStr("x") in Member(top["f"].meta, "collection_name");
  }

  /** The basename of /data/a.png is a.png. */
  lemma DataPathBasename()
    ensures Basename("/data/a.png") == "a.png"
  {
    assert "/data/a.png" == "/data/" + "a.png";
    BasenameAfterSeparator("/data/", "a.png");
  }

  /** Uploads a.png and b.png, the one referenced file row at /data/a.png:
      the unused upload set is {b.png}. */
  lemma UnusedUploadScenario()
    ensures var files := map["f1" := FileRow(Some("/data/a.png"), JNull)];
      FilenamesByIds(files, {JStr("f1")}) == Ok({"a.png"})
      && UnusedFilenamesFs({"a.png"}, Ok({"a.png", "b.png"})) == Ok({"b.png"})
  {
    var files := map["f1" := FileRow(Some("/data/a.png"), JNull)];
    var ids := {JStr("f1")};
    DataPathBasename();
    FilenamesByIdsExact(files, ids);
    assert forall id :: Selected(files, ids, id) <==> id == "f1";
    assert FilenamesByIds(files, ids).Ok?;
    assert FilenamesByIds(files, ids).value == {"a.png"};
    assert {"a.png", "b.png"} - {"a.png"} == {"b.png"};
  }

  /** Keeping 30 days, an unarchived chat created 40 days ago is deleted, and
      the same chat archived is kept. */
  lemma RetentionScenario(now: int)
    ensures var old40 := Chat(false, now - 40 * 86400, JNull);
      ExpiredChats(map["c" := old40], Cutoff(now, 30)) == {"c"}
      && ExpiredChats(map["c" := old40.(archived := true)], Cutoff(now, 30)) == {}
  {
  }

  /** A `file_ids` that is a string contributes its characters, as `set()`
      of a `str` does. */
  lemma KnowledgeFileIdsString()
    ensures KnowledgeFileIds(JObj(map["file_ids" := JStr("ab")])) == Ok({JStr("a"), JStr("b")})
  {
    SetOfString("ab");
    var r := SetOf(JStr("ab")).value;
    assert JStr("a") in r by {
      assert "ab"[0] == 'a';
    }
    assert JStr("b") in r by {
      assert "ab"[1] == 'b';
    }
    forall v | v in r ensures v == JStr("a") || v == JStr("b") {
      assert v.s == [v.s[0]];
    }
    assert r == {JStr("a"), JStr("b")};
  }

  /** A `file_ids` that is a number makes the extraction raise TypeError. */
  lemma KnowledgeFileIdsNumber()
    ensures KnowledgeFileIds(JObj(map["file_ids" := JNum(5)])) == Err(NotIterable)
  {
    SetOfScalar(JNum(5));
  }

  /** A knowledge row whose data is NULL makes the extraction raise
      AttributeError, so the whole run aborts having committed nothing. */
  lemma NullKnowledgeAbortsRun(main: MainTables, chunks: map<string, Chunk>, uploads: set<string>,
                               listable: bool, undeletable: set<string>, args: Args, now: int)
    requires main.knowledge == [JNull]
    ensures var o := Run(main, chunks, uploads, listable, undeletable, args, now);
      o.error.Some? && o.main == main && o.chunks == chunks && o.uploads == uploads
  {
    var t1 := Retained(main, args, now);
    ReferencedFilesFails(t1);
    assert KnowledgeFileIds(t1.knowledge[0]).Err?;
  }
}
