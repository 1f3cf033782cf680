# Open WebUI Postgres cleanup job, modelled in Dafny

`scripts/cleanup_pg/cleanup_pg.py` is a run-to-completion garbage collector
for an Open WebUI installation that keeps its data in PostgreSQL. It works in
four stages:

1. **Retention.** It deletes unarchived chats older than a retention cutoff.
2. **Referenced sets.** It collects the file ids that the chats and knowledge
   rows still refer to. It also collects the vector collections that the
   chats, file metadata and memory rows still refer to.
3. **Unused rows.** It deletes the file rows and the `document_chunk` rows
   that nothing refers to.
4. **Uploads.** It removes the upload files whose name is not the basename
   of a referenced file row's path. Finally it commits both databases, unless
   the run is a dry run.

This project models the four stages over in-memory stores and proves what
the job promises: nothing referenced is deleted, a committed run removes
exactly the unreferenced file rows and chunks, and debug and dry-run modes
leave the stores untouched.

Module layout, in dependency order:

- `Results` (`results.dfy`) holds `Option`, `Result`, and the Python
  exceptions the job can raise on the data it reads.
- `JsonPath` (`json_path.dfy`) holds the JSON documents and the `$.**.key`
  path expression of SQL/JSON path (PostgreSQL manual, section 9.16.2):
  - `AnyDepth` is the path semantics: the member `key` of any descendant;
  - `Matches` is a recursive-descent visitor;
  - `MatchesIsAnyDepth` proves the two agree.
- `PyBuiltins` (`py_builtins.dfy`) holds the Python built-ins applied to the
  decoded values:
  - `set()` of query rows, which raises TypeError when a row is a dict or a
    list;
  - `set()` of a `file_ids` value;
  - text/jsonb comparison;
  - POSIX `os.path.basename`.
- `Stores` (`stores.dfy`) holds the tables, and the classes for the
  connections and the uploads directory:
  - each connection holds a live (uncommitted) and a durable (committed)
    state;
  - the uploads directory holds its names, whether it can be listed, and
    which names `os.remove` fails on.
- `Referenced` (`referenced.dfy`) holds `find_referenced_files` and
  `find_referenced_collections`. Each is a method that grows its set in
  place, specified by a function; `find_referenced_files` also has the loop
  over the knowledge rows. Lemmas tie each function to a
  reference definition: three-way unions, and the conditions under which it
  raises.
- `UnusedSets` (`unused.dfy`) holds the three "existing minus referenced"
  differences and `get_filenames_by_ids`.
- `Passes` (`passes.dfy`):
  - the three database passes, as functions on tables together with the
    methods that update a connection;
  - the filesystem loop `cleanup_files_fs`;
  - the pure functions that specify all four.
- `Cleanup` (`cleanup.dfy`) holds `main`:
  - the method runs the passes on fresh connections and commits them;
  - the function `Run` states the outcome of a whole run;
  - the safety lemmas are stated on `Run`.
- `Scenarios` (`scenarios.dfy`) states what the functions above compute on
  small, concrete stores.

Behaviour worth knowing, followed by the model as the code has it:

- **Dry-run also skips the commit.** `--dry-run` (and `--debug`, which
  sets it, line 277) skips the commit of both databases as well as the
  removal of upload files (lines 299-303). The docstring of
  `cleanup_files_fs` mentions dry-run only for the files it skips deleting.
  The model follows the code: in a dry run without debug mode, the
  retention, file and collection passes run inside the transaction, but
  nothing is committed (`Cleanup.CommitOnlyWhenNotDryRun`).
- **A NULL knowledge row aborts the run.** A knowledge row whose `data` is
  NULL, or is not a JSON object, makes `row[0].get` raise AttributeError.
  The whole run then aborts before any commit
  (`Scenarios.NullKnowledgeAbortsRun`).
- **Debug mode may report fewer file rows than a real run deletes.** Its
  retention pass deletes nothing, so the later passes see every chat,
  including those a real run would have deleted first. The unused file
  rows it reports are therefore never more than a real run would delete
  (`Cleanup.DebugReportsNoMoreFiles`).
- **Text ids against jsonb values.** A referenced id is a decoded jsonb
  value. It removes a text id from an unused set, or selects a file row,
  only when it is that same string (`PyBuiltins.TextValues`).

## Model

| member | source | states |
|---|---|---|
| JsonPath.MatchesIsAnyDepth | scripts/cleanup_pg/cleanup_pg.py:23-28 | the recursive visitor yields exactly the values `$.**.key` selects: the member `key` of the document or of any value nested in it |
| JsonPath.ArrayMatchesIsAnyDepth | scripts/cleanup_pg/cleanup_pg.py:24 | the array step of that equivalence: agreement on every element gives agreement on the array |
| JsonPath.ObjectMatchesIsAnyDepth | scripts/cleanup_pg/cleanup_pg.py:24 | the object step: the object's own member `key` plus agreement on every member value gives agreement on the object |
| PyBuiltins.SetOfList | scripts/cleanup_pg/cleanup_pg.py:42 | `set()` of a list succeeds exactly when every element is hashable, and then holds exactly the list's elements |
| PyBuiltins.SetOfString | scripts/cleanup_pg/cleanup_pg.py:42 | `set()` of a string succeeds and holds exactly its one-character strings |
| PyBuiltins.SetOfScalar | scripts/cleanup_pg/cleanup_pg.py:42 | `set()` of None, a boolean or a number raises TypeError |
| PyBuiltins.TextValues | scripts/cleanup_pg/cleanup_pg.py:63 | a text value counts as referenced exactly when the same string is among the decoded values |
| PyBuiltins.RFind | scripts/cleanup_pg/cleanup_pg.py:136 | the index found holds the separator and no later index does; -1 when there is none |
| PyBuiltins.BasenameIsLastComponent | scripts/cleanup_pg/cleanup_pg.py:136 | the basename is a suffix of the path, holds no `/`, and is the whole path or comes right after a `/` |
| PyBuiltins.BasenameAfterSeparator | scripts/cleanup_pg/cleanup_pg.py:136 | a prefix ending in `/` followed by a name without `/` has that name as its basename |
| Stores.MainDb.Commit | scripts/cleanup_pg/cleanup_pg.py:302 | the committed state becomes the transaction's state, which stays as it is |
| Stores.VectorDb.Commit | scripts/cleanup_pg/cleanup_pg.py:303 | the same for the vector database |
| Stores.Uploads.ListDir | scripts/cleanup_pg/cleanup_pg.py:150 | the listing is the directory's names, or ListingFailed when it cannot be listed |
| Stores.Uploads.Remove | scripts/cleanup_pg/cleanup_pg.py:247 | removal succeeds exactly when the name is present and removable, and only then is the name gone |
| Referenced.FindReferencedFiles | scripts/cleanup_pg/cleanup_pg.py:16-45 | the two chat queries followed by the knowledge loop return exactly `ReferencedFiles` of the transaction's tables, including the error that aborts the loop |
| Referenced.KnowledgeRefsIsUnion | scripts/cleanup_pg/cleanup_pg.py:40-42 | the knowledge loop succeeds exactly when no row raises; it then yields the union of every row's file ids, and otherwise the error of the first row that raises |
| Referenced.KnowledgeErrorPersists | scripts/cleanup_pg/cleanup_pg.py:41-42 | once a row raises, the later rows do not change the result |
| Referenced.KnowledgeWithoutFileIds | scripts/cleanup_pg/cleanup_pg.py:42 | a knowledge object without `file_ids` contributes no id |
| Referenced.KnowledgeWithFileIdList | scripts/cleanup_pg/cleanup_pg.py:42 | a `file_ids` list of strings contributes exactly those strings |
| Referenced.ChatSearchIsPaths | scripts/cleanup_pg/cleanup_pg.py:23-28 | a chat refers to a file exactly when the value is found under `$.**.file_id` or `$.**.file.id` by the visitor |
| Referenced.ReferencedFilesIsUnion | scripts/cleanup_pg/cleanup_pg.py:23-42 | the referenced file ids are exactly the file references at any depth of any chat, plus every knowledge row's file ids |
| Referenced.ReferencedFilesFails | scripts/cleanup_pg/cleanup_pg.py:35-42 | the extraction raises exactly when a chat's file id is a mapping or a list, or a knowledge row raises |
| Referenced.ReferencedFilesMonotone | scripts/cleanup_pg/cleanup_pg.py:23-42 | fewer chats, with the same knowledge rows, never refer to more files, and never make a successful extraction fail |
| Referenced.FindReferencedCollections | scripts/cleanup_pg/cleanup_pg.py:68-97 | the three queries, added to one set, return exactly `ReferencedCollections` of the transaction's tables |
| Referenced.ReferencedCollectionsIsUnion | scripts/cleanup_pg/cleanup_pg.py:76-94 | the referenced collections are exactly the chats' `collection_name` values at any depth, each file meta's top-level `collection_name`, and `user-memory-<user_id>` per memory row |
| Referenced.MemoryCollectionsReferenced | scripts/cleanup_pg/cleanup_pg.py:82-94 | every memory user's `user-memory-` collection is referenced |
| Referenced.ReferencedCollectionsFails | scripts/cleanup_pg/cleanup_pg.py:87-91 | the extraction raises exactly when a chat or a file meta names a mapping or a list as a collection |
| UnusedSets.Unused | scripts/cleanup_pg/cleanup_pg.py:63 | the unused set is within the existing set, disjoint from the referenced set, and holds every unreferenced existing element |
| UnusedSets.UnusedIdempotent | scripts/cleanup_pg/cleanup_pg.py:63 | after removing the unused elements none is left, what remains is the referenced part, and an empty store has none |
| UnusedSets.UnusedFilesDb | scripts/cleanup_pg/cleanup_pg.py:47-66 | an id is unused exactly when it is a file row's id and that string is not referenced |
| UnusedSets.UnusedCollections | scripts/cleanup_pg/cleanup_pg.py:99-118 | a collection is unused exactly when some chunk belongs to it and its name is not referenced |
| UnusedSets.FilenamesByIds | scripts/cleanup_pg/cleanup_pg.py:131-132 | an empty id set gives the empty set without a query; the only error is a NULL path |
| UnusedSets.FilenamesByIdsExact | scripts/cleanup_pg/cleanup_pg.py:128-136 | on a non-empty id set, resolution fails exactly when a selected row has a NULL path; otherwise it yields exactly the basenames of the selected rows' paths, none holding `/` |
| UnusedSets.FilenamesIgnoreMissingIds | scripts/cleanup_pg/cleanup_pg.py:128-136 | ids that name no file row change nothing, also when they turn an empty id set (no query) into a non-empty one (a query that selects nothing) |
| UnusedSets.UnusedFilenamesFs | scripts/cleanup_pg/cleanup_pg.py:141-159 | a failed listing is re-raised; otherwise a name is unused exactly when it is listed and not referenced |
| Passes.ChatsPassExact | scripts/cleanup_pg/cleanup_pg.py:169-181 | outside debug mode, exactly the unarchived chats created before the cutoff are deleted; every other chat and table is unchanged; debug mode changes nothing |
| Passes.RetentionSpares | scripts/cleanup_pg/cleanup_pg.py:172 | an archived chat, or one created at or after the cutoff, survives |
| Passes.CleanupChats | scripts/cleanup_pg/cleanup_pg.py:161-184 | the transaction's tables become `ChatsPass` at cutoff `now - days*86400`; nothing is committed |
| Passes.FilesPassExact | scripts/cleanup_pg/cleanup_pg.py:194-205 | outside debug mode exactly the rows whose id is in the set are deleted; every other row is unchanged |
| Passes.CleanupFilesDb | scripts/cleanup_pg/cleanup_pg.py:186-208 | the transaction's tables become `FilesPass`; nothing is committed |
| Passes.CollectionsPassExact | scripts/cleanup_pg/cleanup_pg.py:218-229 | outside debug mode exactly the chunks of the given collections are deleted; every other chunk is unchanged |
| Passes.CleanupCollections | scripts/cleanup_pg/cleanup_pg.py:210-232 | the vector transaction becomes `CollectionsPass`; nothing is committed |
| Passes.FsPassExact | scripts/cleanup_pg/cleanup_pg.py:242-255 | only names in the unused set are removed, none in a dry run, and a failed removal leaves the name; the number removed is at most the number of unused names |
| Passes.RemovableStep | scripts/cleanup_pg/cleanup_pg.py:243-251 | visiting one more name adds it to the removed names exactly when it is present and removable |
| Passes.VisitUpload | scripts/cleanup_pg/cleanup_pg.py:244-254 | one iteration counts the name in a dry run, and otherwise counts and removes it exactly when removal succeeds |
| Passes.CleanupFilesFs | scripts/cleanup_pg/cleanup_pg.py:234-255 | the directory becomes `FsPass`; the count is the number of unused names in a dry run, and otherwise the number of successful removals; a failure does not stop the loop |
| Cleanup.RunJob | scripts/cleanup_pg/cleanup_pg.py:257-310 | the committed databases, the uploads directory, the commit flag and the aborting error are exactly `Run` of the initial stores |
| Cleanup.CommitOnlyWhenNotDryRun | scripts/cleanup_pg/cleanup_pg.py:275-303 | the databases are committed exactly when the run completes outside a dry run; otherwise they and the uploads are unchanged; debug mode never commits |
| Cleanup.DebugChangesNothing | scripts/cleanup_pg/cleanup_pg.py:275-303 | in debug mode neither database nor the uploads directory changes |
| Cleanup.CommittedRunExact | scripts/cleanup_pg/cleanup_pg.py:282-303 | a committed run keeps exactly the chats the retention pass keeps, the file rows whose id is referenced, and the chunks of referenced collections; knowledge and memory are unchanged; the uploads lose exactly the removable ones among those not named by a referenced row |
| Cleanup.RunKeepsReferencedFiles | scripts/cleanup_pg/cleanup_pg.py:282-289 | a file row that a retained chat or a knowledge row refers to survives the run unchanged |
| Cleanup.RunDeletesOnlyUnreferencedFiles | scripts/cleanup_pg/cleanup_pg.py:286-303 | a file row is deleted only by a committed run, and only when its id was not referenced |
| Cleanup.RunDeletesOnlyUnreferencedChunks | scripts/cleanup_pg/cleanup_pg.py:291-303 | a chunk is deleted only by a committed run, when its collection was not referenced, and never a memory user's collection |
| Cleanup.FilePassKeepsReferencedRows | scripts/cleanup_pg/cleanup_pg.py:289-297 | resolving the referenced ids after the file pass gives the same filenames as before it |
| Cleanup.RunKeepsReferencedUploads | scripts/cleanup_pg/cleanup_pg.py:296-303 | an upload is removed only by a committed run, and never when it is the basename of a referenced file row's path |
| Cleanup.RunKeepsUploadsOfSurvivingFiles | scripts/cleanup_pg/cleanup_pg.py:286-299 | every file row that survives a run keeps its upload |
| Cleanup.DebugReportsNoMoreFiles | scripts/cleanup_pg/cleanup_pg.py:169-177 | with nothing deleted by retention, the unused file rows reported are no more than after a real retention pass |
| Scenarios.MessageChatFileIds | scripts/cleanup_pg/cleanup_pg.py:24-27 | a `file_id` nested in a message is found, and nothing matches `file` |
| Scenarios.UnusedFileScenario | scripts/cleanup_pg/cleanup_pg.py:23-63 | one chat referring to f1 and file rows f1 and f2: the unused file set is {f2} |
| Scenarios.MemoryUserScenario | scripts/cleanup_pg/cleanup_pg.py:82-94 | memory user 42 makes `user-memory-42` referenced |
| Scenarios.MetaTopLevelOnly | scripts/cleanup_pg/cleanup_pg.py:79-80 | a `collection_name` nested inside meta is not a reference; a top-level one is |
| Scenarios.DataPathBasename | scripts/cleanup_pg/cleanup_pg.py:136 | the basename of /data/a.png is a.png |
| Scenarios.UnusedUploadScenario | scripts/cleanup_pg/cleanup_pg.py:128-156 | a referenced row at /data/a.png, with uploads a.png and b.png: the unused uploads are {b.png} |
| Scenarios.RetentionScenario | scripts/cleanup_pg/cleanup_pg.py:169-179 | keeping 30 days, an unarchived 40-day-old chat is deleted, and the same chat archived is kept |
| Scenarios.KnowledgeFileIdsString | scripts/cleanup_pg/cleanup_pg.py:42 | a `file_ids` string "ab" contributes the ids "a" and "b" |
| Scenarios.KnowledgeFileIdsNumber | scripts/cleanup_pg/cleanup_pg.py:42 | a `file_ids` number makes the extraction raise TypeError |
| Scenarios.NullKnowledgeAbortsRun | scripts/cleanup_pg/cleanup_pg.py:42 | a NULL knowledge row aborts the run with both databases and the uploads unchanged |

## Left out

- Connections, cursors, `close` and `rowcount` are left out. So are the
  logging calls, argparse and log-level handling. A connection is reduced
  to its live and committed table states; `close` and rollback have no
  effect on the committed state.
- A failing `commit` is left out, as is the fact that the two commits are
  separate transactions: the model commits both or neither.
- The SQL engine's lax-mode corner cases are left out. These are array
  unwrapping after a member accessor (`$.**.file.id` where `file` is an
  array), a `meta` that is an array, and jsonb's own key ordering. Queries
  are modelled by their set semantics.
- JSON numbers are integers only. Floating-point numbers are left out, and
  so is Python's equality of `True` and `1` inside a set.
- In `= ANY(%s)`, a referenced value that is not a string is treated as
  matching no row. The database's own coercion or type error is left out.
- NULL `collection_name` rows in `document_chunk` and NULL `user_id` rows
  in `memory` are left out: both columns are modelled as text.
- `datetime.now()` is left out. The current time is an integer parameter
  `now` in epoch seconds, and the cutoff is `now - days*86400`. Sub-second
  truncation and daylight-saving effects on the timestamp are left out.
- Real filesystem I/O is left out. Whether the directory can be listed,
  and the names `os.remove` fails on, are fixed inputs of the directory.
  An upload is removed by its listed name: `os.path.join` with the
  directory (line 244) is left out, and so are subdirectories.
- The order in which a Python set is iterated is left out. The filesystem
  loop picks names in an arbitrary order, and its result does not depend
  on that order.
