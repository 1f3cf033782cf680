/** The four deletion passes. Each database pass deletes in the open
    transaction, or in debug mode only selects; the filesystem pass removes
    files unless it is a dry run. */
module Passes {
  import opened Results
  import opened JsonPath
  import opened Stores

  const SecondsPerDay: int := 86400

  /** The retention cutoff in epoch seconds, `days` days before `now`. */
  function Cutoff(now: int, days: int): int
  {
    now - days * SecondsPerDay
  }

  /** `WHERE NOT archived AND created_at < cutoff`: the chats the retention
      pass selects. */
  function ExpiredChats(chats: map<string, Chat>, cutoff: int): set<string>
  {
    set id | id in chats && !chats[id].archived && chats[id].createdAt < cutoff
  }

  /** The main database after the retention pass. */
  function ChatsPass(t: MainTables, cutoff: int, debug: bool): MainTables
  {
    if debug then t else t.(chats := t.chats - ExpiredChats(t.chats, cutoff))
  }

  /** Outside debug mode the retention pass deletes exactly the unarchived
      chats created before the cutoff; every other chat, and every other
      table, is unchanged. In debug mode nothing changes. */
  lemma ChatsPassExact(t: MainTables, cutoff: int, debug: bool)
    ensures var t' := ChatsPass(t, cutoff, debug);
      && t'.files == t.files && t'.knowledge == t.knowledge && t'.memory == t.memory
      && t'.chats.Keys <= t.chats.Keys
      && (forall id :: id in t'.chats ==> t'.chats[id] == t.chats[id])
      && (forall id :: id in t.chats ==>
            (id !in t'.chats <==> !debug && !t.chats[id].archived && t.chats[id].createdAt < cutoff))
  {
  }

  /** Archived chats, and chats created at or after the cutoff, survive the
      retention pass whatever their age or mode. */
  lemma RetentionSpares(t: MainTables, cutoff: int, debug: bool, id: string)
    requires id in t.chats && (t.chats[id].archived || t.chats[id].createdAt >= cutoff)
    ensures id in ChatsPass(t, cutoff, debug).chats
  {
  }

  /** `cleanup_chats`. */
  method CleanupChats(db: MainDb, days: int, now: int, debug: bool)
    modifies db
    ensures db.live == ChatsPass(old(db.live), Cutoff(now, days), debug)
    ensures db.durable == old(db.durable)
  {
    var cutoff := Cutoff(now, days);
    if !debug {
      db.live := db.live.(chats := db.live.chats - ExpiredChats(db.live.chats, cutoff));
    }
  }

  /** The main database after `DELETE FROM file WHERE id = ANY(unused)`. */
  function FilesPass(t: MainTables, unused: set<string>, debug: bool): MainTables
  {
    if debug then t else t.(files := t.files - unused)
  }

  /** Outside debug mode the file pass removes exactly the rows whose id is in
      `unused`; every other row and table stays. */
  lemma FilesPassExact(t: MainTables, unused: set<string>, debug: bool)
    ensures var t' := FilesPass(t, unused, debug);
      && t'.chats == t.chats && t'.knowledge == t.knowledge && t'.memory == t.memory
      && (forall id :: id in t'.files <==> id in t.files && (debug || id !in unused))
      && (forall id :: id in t'.files ==> t'.files[id] == t.files[id])
  {
  }

  /** `cleanup_files_db`. */
  method CleanupFilesDb(db: MainDb, unused: set<string>, debug: bool)
    modifies db
    ensures db.live == FilesPass(old(db.live), unused, debug)
    ensures db.durable == old(db.durable)
  {
    if !debug {
      db.live := db.live.(files := db.live.files - unused);
    }
  }

  /** The chunks after `DELETE FROM document_chunk WHERE collection_name = ANY(unused)`. */
  function CollectionsPass(chunks: map<string, Chunk>, unused: set<string>, debug: bool): map<string, Chunk>
  {
    if debug then chunks
    else map c | c in chunks && chunks[c].collectionName !in unused :: chunks[c]
  }

  /** Outside debug mode the collection pass removes exactly the chunks of the
      collections in `unused`; every other chunk stays. */
  lemma CollectionsPassExact(chunks: map<string, Chunk>, unused: set<string>, debug: bool)
    ensures var c' := CollectionsPass(chunks, unused, debug);
      && (forall c :: c in c' <==> c in chunks && (debug || chunks[c].collectionName !in unused))
      && (forall c :: c in c' ==> c'[c] == chunks[c])
  {
  }

  /** `cleanup_collections`. */
  method CleanupCollections(vdb: VectorDb, unused: set<string>, debug: bool)
    modifies vdb
    ensures vdb.live == CollectionsPass(old(vdb.live), unused, debug)
    ensures vdb.durable == old(vdb.durable)
  {
    if !debug {
      vdb.live := map c | c in vdb.live && vdb.live[c].collectionName !in unused :: vdb.live[c];
    }
  }

  /** The names whose removal succeeds: those to delete that are present and
      removable. */
  function Removable(unused: set<string>, names: set<string>, undeletable: set<string>): set<string>
  {
    unused * names - undeletable
  }

  /** The uploads directory after the filesystem pass. */
  function FsPass(names: set<string>, unused: set<string>, undeletable: set<string>, dryRun: bool): set<string>
  {
    if dryRun then names else names - Removable(unused, names, undeletable)
  }

  /** The filesystem pass removes only names it was given, never one outside
      `unused`, and removes nothing in a dry run; every name it fails on stays. */
  lemma FsPassExact(names: set<string>, unused: set<string>, undeletable: set<string>, dryRun: bool)
    ensures var n' := FsPass(names, unused, undeletable, dryRun);
      && n' <= names
      && (forall n :: n in names && n !in n' ==> n in unused && !dryRun && n !in undeletable)
      && (forall n :: n in names && n in unused && n !in undeletable && !dryRun ==> n !in n')
      && |Removable(unused, names, undeletable)| <= |unused|
  {
    SubsetNoLarger(Removable(unused, names, undeletable), unused);
  }

  /** A subset is no larger than its superset. */
  lemma {:induction false} SubsetNoLarger<T>(a: set<T>, b: set<T>)
    requires a <= b
    ensures |a| <= |b|
    decreases b
  {
    if a != {} {
      var x :| x in a;
      SubsetNoLarger(a - {x}, b - {x});
    }
  }

  /** Visiting one more name adds it to the removed names exactly when it is
      present and removable. */
  lemma RemovableStep(done: set<string>, name: string, names: set<string>, undeletable: set<string>)
    requires name !in done
    ensures name !in Removable(done, names, undeletable)
    ensures Removable(done + {name}, names, undeletable)
      == Removable(done, names, undeletable) + (if name in names && name !in undeletable then {name} else {})
    ensures names - Removable(done + {name}, names, undeletable)
      == if name in names && name !in undeletable
         then (names - Removable(done, names, undeletable)) - {name}
         else names - Removable(done, names, undeletable)
  {
    var r := Removable(done, names, undeletable);
    var r' := Removable(done + {name}, names, undeletable);
    if name in names && name !in undeletable {
      assert r' == r + {name};
      assert names - r' == (names - r) - {name};
    } else {
      assert r' == r;
    }
  }

  /** One iteration of `cleanup_files_fs`: in a dry run the name is only
      counted; otherwise it is counted exactly when `os.remove` succeeds. */
  method VisitUpload(name: string, dir: Uploads, dryRun: bool) returns (counted: bool)
    modifies dir
    ensures counted == (dryRun || (name in old(dir.names) && name !in dir.undeletable))
    ensures dir.names == if !dryRun && counted then old(dir.names) - {name} else old(dir.names)
  {
    if !dryRun {
      counted := dir.Remove(name);
    } else {
      counted := true;
    }
  }

  /** `cleanup_files_fs`: visits the names in any order, counting removals
      (or, in a dry run, every name); a failed removal is logged and skipped. */
  method CleanupFilesFs(unused: set<string>, dir: Uploads, dryRun: bool) returns (count: nat)
    modifies dir
    ensures dir.names == FsPass(old(dir.names), unused, dir.undeletable, dryRun)
    ensures count == if dryRun then |unused| else |Removable(unused, old(dir.names), dir.undeletable)|
  {
    ghost var before := dir.names;
    ghost var undeletable := dir.undeletable;
    count := 0;
    var remaining := unused;
    ghost var done: set<string> := {};
    while remaining != {}
      invariant done + remaining == unused && done !! remaining
      invariant dryRun ==> dir.names == before && count == |done|
      invariant !dryRun ==> dir.names == before - Removable(done, before, undeletable)
      invariant !dryRun ==> count == |Removable(done, before, undeletable)|
      decreases remaining
    {
      var name :| name in remaining;
      RemovableStep(done, name, before, undeletable);
      var counted := VisitUpload(name, dir, dryRun);
      if counted {
        count := count + 1;
      }
      done := done + {name};
      remaining := remaining - {name};
    }
    assert done == unused;
  }
}
