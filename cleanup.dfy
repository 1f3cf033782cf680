/** The whole run of the cleanup job (`main`): the retention pass, then the
    file, collection and filesystem passes in that order, and the commit of
    both databases unless it is a dry run. */
module Cleanup {
  import opened Results
  import opened JsonPath
  import opened PyBuiltins
  import opened Stores
  import opened Referenced
  import opened UnusedSets
  import opened Passes

  /** The command-line options the passes use. */
  datatype Args = Args(keepDays: int, dryRun: bool, debug: bool)

  /** Debug mode forces a dry run. */
  function DryRun(args: Args): bool
  {
    args.dryRun || args.debug
  }

  /** What a run leaves behind: the committed state of both databases, the
      uploads directory, whether the databases were committed, and the
      exception that aborted the run, if one did. */
  datatype Outcome = Outcome(
    main: MainTables,
    chunks: map<string, Chunk>,
    uploads: set<string>,
    committed: bool,
    error: Option<Error>)

  /** A run aborted by `e`: nothing was committed and no upload was removed. */
  function Aborted(main: MainTables, chunks: map<string, Chunk>, uploads: set<string>, e: Error): Outcome
  {
    Outcome(main, chunks, uploads, false, Some(e))
  }

  /** The main database as the passes after the retention pass see it. */
  function Retained(main: MainTables, args: Args, now: int): MainTables
  {
    ChatsPass(main, Cutoff(now, args.keepDays), args.debug)
  }

  /** The main database as the passes after the file pass see it. */
  function Pruned(retained: MainTables, referencedFiles: set<Json>, debug: bool): MainTables
  {
    FilesPass(retained, UnusedFilesDb(retained.files, referencedFiles), debug)
  }

  /** The outcome of `main` on stores `main`, `chunks` and an uploads
      directory holding `uploads`. */
  function Run(main: MainTables, chunks: map<string, Chunk>, uploads: set<string>,
               listable: bool, undeletable: set<string>, args: Args, now: int): Outcome
  {
    var t1 := Retained(main, args, now);
    match ReferencedFiles(t1)
    case Err(e) => Aborted(main, chunks, uploads, e)
    case Ok(referencedFiles) =>
      var t2 := Pruned(t1, referencedFiles, args.debug);
      match ReferencedCollections(t2)
      case Err(e) => Aborted(main, chunks, uploads, e)
      case Ok(referencedCollections) =>
        var c2 := CollectionsPass(chunks, UnusedCollections(chunks, referencedCollections), args.debug);
        match FilenamesByIds(t2.files, referencedFiles)
        case Err(e) => Aborted(main, chunks, uploads, e)
        case Ok(filenames) =>
          match UnusedFilenamesFs(filenames, if listable then Ok(uploads) else Err(ListingFailed))
          case Err(e) => Aborted(main, chunks, uploads, e)
          case Ok(unusedFs) =>
            var u := FsPass(uploads, unusedFs, undeletable, DryRun(args));
            if DryRun(args) then Outcome(main, chunks, u, false, None)
            else Outcome(t2, c2, u, true, None)
  }

  /** `main`: opens both connections on the stores, runs the four passes and
      commits both databases unless it is a dry run; returns the committed
      state of both databases. An exception ends the run before the commit. */
  method RunJob(store: MainTables, vectorStore: map<string, Chunk>, dir: Uploads, args: Args, now: int)
    returns (mainAfter: MainTables, vectorAfter: map<string, Chunk>, committed: bool, error: Option<Error>)
    modifies dir
    ensures Outcome(mainAfter, vectorAfter, dir.names, committed, error)
         == Run(store, vectorStore, old(dir.names), dir.listable, dir.undeletable, args, now)
  {
    var dryRun := args.dryRun;
    if args.debug {
      dryRun := true;
    }
    var mainConn := new MainDb(store);
    var vectorConn := new VectorDb(vectorStore);
    committed := false;

    // Step 1: old chats
    CleanupChats(mainConn, args.keepDays, now, args.debug);

    // Step 2: unused file rows
    var referencedFiles := FindReferencedFiles(mainConn);
    if referencedFiles.Err? {
      return mainConn.durable, vectorConn.durable, false, Some(referencedFiles.error);
    }
    var unusedFiles := UnusedFilesDb(mainConn.live.files, referencedFiles.value);
    CleanupFilesDb(mainConn, unusedFiles, args.debug);

    // Step 3: unused collections
    var referencedCollections := FindReferencedCollections(mainConn);
    if referencedCollections.Err? {
      return mainConn.durable, vectorConn.durable, false, Some(referencedCollections.error);
    }
    var unusedCollections := UnusedCollections(vectorConn.live, referencedCollections.value);
    CleanupCollections(vectorConn, unusedCollections, args.debug);

    // Step 4: unused uploads
    var filenames := FilenamesByIds(mainConn.live.files, referencedFiles.value);
    if filenames.Err? {
      return mainConn.durable, vectorConn.durable, false, Some(filenames.error);
    }
    var listing := dir.ListDir();
    var unusedFs := UnusedFilenamesFs(filenames.value, listing);
    if unusedFs.Err? {
      return mainConn.durable, vectorConn.durable, false, Some(unusedFs.error);
    }
    var _ := CleanupFilesFs(unusedFs.value, dir, dryRun);

    if !dryRun {
      mainConn.Commit();
      vectorConn.Commit();
      committed := true;
    }
    return mainConn.durable, vectorConn.durable, committed, None;
  }

  // ---------------------------------------------------------------------
  // Properties of a whole run

  /** The databases are committed exactly when the run completes and is not
      a dry run; otherwise (an exception, a dry run, debug mode) neither
      database nor the uploads directory changes. */
  lemma CommitOnlyWhenNotDryRun(main: MainTables, chunks: map<string, Chunk>, uploads: set<string>,
                                listable: bool, undeletable: set<string>, args: Args, now: int)
    ensures var o := Run(main, chunks, uploads, listable, undeletable, args, now);
      && (o.committed <==> o.error.None? && !DryRun(args))
      && (!o.committed ==> o.main == main && o.chunks == chunks && o.uploads == uploads)
      && (args.debug ==> !o.committed)
  {
    var t1 := Retained(main, args, now);
    if ReferencedFiles(t1).Ok? {
      var t2 := Pruned(t1, ReferencedFiles(t1).value, args.debug);
      if ReferencedCollections(t2).Ok? && FilenamesByIds(t2.files, ReferencedFiles(t1).value).Ok? && listable {
        var unusedFs := UnusedFilenamesFs(FilenamesByIds(t2.files, ReferencedFiles(t1).value).value, Ok(uploads));
        assert unusedFs.Ok?;
        if DryRun(args) {
          assert FsPass(uploads, unusedFs.value, undeletable, true) == uploads;
        }
      }
    }
  }

  /** Debug mode never changes either database or the uploads directory. */
  lemma DebugChangesNothing(main: MainTables, chunks: map<string, Chunk>, uploads: set<string>,
                            listable: bool, undeletable: set<string>, args: Args, now: int)
    requires args.debug
    ensures var o := Run(main, chunks, uploads, listable, undeletable, args, now);
      o.main == main && o.chunks == chunks && o.uploads == uploads
  {
    CommitOnlyWhenNotDryRun(main, chunks, uploads, listable, undeletable, args, now);
  }

  /** A committed run leaves exactly: the chats the retention pass keeps, the
      file rows whose id is referenced, the chunks of referenced collections,
      and the uploads minus the removable unused ones. */
  lemma CommittedRunExact(main: MainTables, chunks: map<string, Chunk>, uploads: set<string>,
                          listable: bool, undeletable: set<string>, args: Args, now: int)
    requires Run(main, chunks, uploads, listable, undeletable, args, now).committed
    ensures var o := Run(main, chunks, uploads, listable, undeletable, args, now);
      var t1 := Retained(main, args, now);
      && !args.debug && ReferencedFiles(t1).Ok?
      && var t2 := Pruned(t1, ReferencedFiles(t1).value, false);
      && ReferencedCollections(t2).Ok?
      && o.main.chats == main.chats - ExpiredChats(main.chats, Cutoff(now, args.keepDays))
      && (forall id :: id in o.main.files <==> id in main.files && JStr(id) in ReferencedFiles(t1).value)
      && (forall c :: c in o.chunks <==> c in chunks && JStr(chunks[c].collectionName) in ReferencedCollections(t2).value)
      && o.main.knowledge == main.knowledge && o.main.memory == main.memory
      && var refs := ReferencedFiles(t1).value;
      && FilenamesByIds(t2.files, refs).Ok?
      && o.uploads == uploads - Removable(uploads - FilenamesByIds(t2.files, refs).value, uploads, undeletable)
  {
  }

  /** No file row that the chats kept by the retention pass, or a knowledge
      row, refers to is ever deleted. */
  lemma RunKeepsReferencedFiles(main: MainTables, chunks: map<string, Chunk>, uploads: set<string>,
                                listable: bool, undeletable: set<string>, args: Args, now: int, id: string)
    requires id in main.files
    requires var t1 := Retained(main, args, now);
      (exists cid :: cid in t1.chats && ChatRefersToFile(t1.chats[cid].chat, JStr(id)))
      || KnowledgeRefersToFile(t1.knowledge, JStr(id))
    ensures var o := Run(main, chunks, uploads, listable, undeletable, args, now);
      id in o.main.files && o.main.files[id] == main.files[id]
  {
    var t1 := Retained(main, args, now);
    if ReferencedFiles(t1).Ok? {
      ReferencedFilesIsUnion(t1);
    }
  }

  /** A file row deleted by a run was not referenced when the file pass ran. */
  lemma RunDeletesOnlyUnreferencedFiles(main: MainTables, chunks: map<string, Chunk>, uploads: set<string>,
                                        listable: bool, undeletable: set<string>, args: Args, now: int)
    ensures var o := Run(main, chunks, uploads, listable, undeletable, args, now);
      var t1 := Retained(main, args, now);
      forall id :: id in main.files && id !in o.main.files ==>
        o.committed && ReferencedFiles(t1).Ok? && JStr(id) !in ReferencedFiles(t1).value
  {
  }

  /** A chunk deleted by a run belonged to a collection that no chat, no
      remaining file and no memory user referred to when the collection pass
      ran. */
  lemma RunDeletesOnlyUnreferencedChunks(main: MainTables, chunks: map<string, Chunk>, uploads: set<string>,
                                         listable: bool, undeletable: set<string>, args: Args, now: int)
    ensures var o := Run(main, chunks, uploads, listable, undeletable, args, now);
      var t1 := Retained(main, args, now);
      forall c :: c in chunks && c !in o.chunks ==>
        && o.committed && ReferencedFiles(t1).Ok?
        && var t2 := Pruned(t1, ReferencedFiles(t1).value, args.debug);
        && ReferencedCollections(t2).Ok?
        && JStr(chunks[c].collectionName) !in ReferencedCollections(t2).value
        && forall u :: u in t2.memory ==> chunks[c].collectionName != "user-memory-" + u
  {
    var o := Run(main, chunks, uploads, listable, undeletable, args, now);
    var t1 := Retained(main, args, now);
    forall c | c in chunks && c !in o.chunks
      ensures forall u :: u in main.memory ==> chunks[c].collectionName != "user-memory-" + u
    {
      var t2 := Pruned(t1, ReferencedFiles(t1).value, args.debug);
      MemoryCollectionsReferenced(t2);
    }
  }

  /** The file rows the referenced ids select are the same before and after
      the file pass, so resolving the filenames after it loses nothing. */
  lemma FilePassKeepsReferencedRows(t1: MainTables, referencedFiles: set<Json>, debug: bool)
    ensures FilenamesByIds(Pruned(t1, referencedFiles, debug).files, referencedFiles)
         == FilenamesByIds(t1.files, referencedFiles)
  {
    var files2 := Pruned(t1, referencedFiles, debug).files;
    assert forall id :: id in t1.files && JStr(id) in referencedFiles ==> id in files2 && files2[id] == t1.files[id];
    assert forall id :: id in files2 ==> id in t1.files && files2[id] == t1.files[id];
    assert (exists id :: id in files2 && JStr(id) in referencedFiles && files2[id].path.None?)
        == (exists id :: id in t1.files && JStr(id) in referencedFiles && t1.files[id].path.None?);
    assert (set id | id in files2 && JStr(id) in referencedFiles && files2[id].path.Some? :: Basename(files2[id].path.value))
        == (set id | id in t1.files && JStr(id) in referencedFiles && t1.files[id].path.Some? :: Basename(t1.files[id].path.value));
  }

  /** No upload whose name is the basename of a referenced file row's path
      is removed. */
  lemma RunKeepsReferencedUploads(main: MainTables, chunks: map<string, Chunk>, uploads: set<string>,
                                  listable: bool, undeletable: set<string>, args: Args, now: int)
    ensures var o := Run(main, chunks, uploads, listable, undeletable, args, now);
      var t1 := Retained(main, args, now);
      forall name :: name in uploads && name !in o.uploads ==>
        && o.committed && ReferencedFiles(t1).Ok?
        && forall id :: id in main.files && JStr(id) in ReferencedFiles(t1).value && main.files[id].path.Some?
             ==> Basename(main.files[id].path.value) != name
  {
    var o := Run(main, chunks, uploads, listable, undeletable, args, now);
    var t1 := Retained(main, args, now);
    if o.committed {
      var refs := ReferencedFiles(t1).value;
      var t2 := Pruned(t1, refs, args.debug);
      FilePassKeepsReferencedRows(t1, refs, args.debug);
      var names := FilenamesByIds(t2.files, refs).value;
      assert forall id :: id in main.files && JStr(id) in refs && main.files[id].path.Some? ==>
                Basename(main.files[id].path.value) in names;
    }
  }

  /** Every file row surviving a run keeps its upload. */
  lemma RunKeepsUploadsOfSurvivingFiles(main: MainTables, chunks: map<string, Chunk>, uploads: set<string>,
                                        listable: bool, undeletable: set<string>, args: Args, now: int)
    ensures var o := Run(main, chunks, uploads, listable, undeletable, args, now);
      forall id :: id in o.main.files && o.main.files[id].path.Some? && Basename(o.main.files[id].path.value) in uploads
        ==> Basename(o.main.files[id].path.value) in o.uploads
  {
    var o := Run(main, chunks, uploads, listable, undeletable, args, now);
    var t1 := Retained(main, args, now);
    if o.committed {
      var refs := ReferencedFiles(t1).value;
      var t2 := Pruned(t1, refs, args.debug);
      var names := FilenamesByIds(t2.files, refs).value;
      assert forall id :: id in t2.files && JStr(id) in refs && t2.files[id].path.Some? ==>
                Basename(t2.files[id].path.value) in names;
    }
  }

  /** Debug mode lets the retention pass delete nothing, so its file pass sees
      every chat and reports no more unused file rows than a real run deletes. */
  lemma DebugReportsNoMoreFiles(main: MainTables, cutoff: int)
    requires ReferencedFiles(main).Ok?
    ensures ReferencedFiles(ChatsPass(main, cutoff, false)).Ok?
    ensures UnusedFilesDb(main.files, ReferencedFiles(main).value)
         <= UnusedFilesDb(main.files, ReferencedFiles(ChatsPass(main, cutoff, false)).value)
  {
    ReferencedFilesMonotone(main, ChatsPass(main, cutoff, false));
  }
}
