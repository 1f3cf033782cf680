/** The unused-set calculation (existing minus referenced, at three call
    sites) and the resolution of file ids to upload filenames. */
module UnusedSets {
  import opened Results
  import opened JsonPath
  import opened PyBuiltins
  import opened Stores

  /** What is in a store but not referenced: plain set difference. */
  function Unused<T>(existing: set<T>, referenced: set<T>): (r: set<T>)
    ensures r <= existing && r !! referenced
    ensures forall x :: x in existing && x !in referenced ==> x in r
  {
    existing - referenced
  }

  /** Unused sets are idempotent: once the unused elements are removed, none
      is left; and what remains of the store is what is referenced. */
  lemma UnusedIdempotent<T>(existing: set<T>, referenced: set<T>)
    ensures Unused(existing - Unused(existing, referenced), referenced) == {}
    ensures existing - Unused(existing, referenced) == existing * referenced
    ensures existing == {} ==> Unused(existing, referenced) == {}
  {
  }

  /** `find_unused_files_db`: the ids of the file table minus the referenced
      file ids (a text id is referenced when that same string is). */
  function UnusedFilesDb(files: map<string, FileRow>, referenced: set<Json>): (r: set<string>)
    ensures forall id :: id in r <==> id in files && JStr(id) !in referenced
  {
    Unused(files.Keys, TextValues(referenced))
  }

  /** `SELECT DISTINCT collection_name FROM document_chunk`. */
  function Collections(chunks: map<string, Chunk>): set<string>
  {
    set c | c in chunks :: chunks[c].collectionName
  }

  /** `find_unused_collections`: the collections holding chunks minus the
      referenced ones. */
  function UnusedCollections(chunks: map<string, Chunk>, referenced: set<Json>): (r: set<string>)
    ensures forall name :: name in r <==>
      (exists c :: c in chunks && chunks[c].collectionName == name) && JStr(name) !in referenced
  {
    Unused(Collections(chunks), TextValues(referenced))
  }

  /** `get_filenames_by_ids`: the basenames of the paths of the file rows
      whose id is among `ids`; no query at all for an empty `ids`. */
  function FilenamesByIds(files: map<string, FileRow>, ids: set<Json>): (r: Result<set<string>>)
    ensures ids == {} ==> r == Ok({})
    ensures r.Err? ==> r.error == PathIsNone
  {
    if ids == {} then Ok({})
    else if exists id :: id in files && JStr(id) in ids && files[id].path.None? then Err(PathIsNone)
    else Ok(set id | id in files && JStr(id) in ids && files[id].path.Some? :: Basename(files[id].path.value))
  }

  /** A file row selected by `ids` is one whose id is among them. */
  ghost predicate Selected(files: map<string, FileRow>, ids: set<Json>, id: string)
  {
    id in files && JStr(id) in ids
  }

  /** Filename resolution on a non-empty id set fails exactly when a selected
      row has no path, and otherwise yields exactly the basenames of the
      selected rows' paths, none of which holds a `/`. */
  lemma FilenamesByIdsExact(files: map<string, FileRow>, ids: set<Json>)
    requires ids != {}
    ensures FilenamesByIds(files, ids).Err? <==> exists id :: Selected(files, ids, id) && files[id].path.None?
    ensures FilenamesByIds(files, ids).Ok? ==>
      forall n :: n in FilenamesByIds(files, ids).value <==>
        exists id :: Selected(files, ids, id) && Basename(files[id].path.value) == n
    ensures FilenamesByIds(files, ids).Ok? ==> forall n :: n in FilenamesByIds(files, ids).value ==> NoSeparator(n)
  {
    if FilenamesByIds(files, ids).Ok? {
      forall n | n in FilenamesByIds(files, ids).value ensures NoSeparator(n) {
        var id :| id in files && JStr(id) in ids && files[id].path.Some? && Basename(files[id].path.value) == n;
        BasenameIsLastComponent(files[id].path.value);
      }
    }
  }

  /** Ids that name no file row contribute nothing, also when they are the
      only ids and the query does run. */
  lemma FilenamesIgnoreMissingIds(files: map<string, FileRow>, ids: set<Json>, missing: set<Json>)
    requires forall id :: id in files ==> JStr(id) !in missing
    ensures FilenamesByIds(files, ids + missing) == FilenamesByIds(files, ids)
  {
    var all := ids + missing;
    if ids == {} {
      if missing != {} {
        assert all == missing;
        var r := FilenamesByIds(files, all);
        assert r.Ok?;
        forall n ensures n !in r.value {
        }
        assert r.value == {};
      }
      return;
    }
    assert forall id :: id in files ==> (JStr(id) in all <==> JStr(id) in ids);
    assert (exists id :: id in files && JStr(id) in all && files[id].path.None?)
      == (exists id :: id in files && JStr(id) in ids && files[id].path.None?);
    assert (set id | id in files && JStr(id) in all && files[id].path.Some? :: Basename(files[id].path.value))
      == (set id | id in files && JStr(id) in ids && files[id].path.Some? :: Basename(files[id].path.value));
  }

  /** `find_unused_filenames_fs`: the listed names minus the referenced
      filenames; a failed listing is re-raised. */
  function UnusedFilenamesFs(referenced: set<string>, listing: Result<set<string>>): (r: Result<set<string>>)
    ensures r.Err? <==> listing.Err?
    ensures r.Ok? ==> forall n :: n in r.value <==> n in listing.value && n !in referenced
  {
    match listing
    case Err(e) => Err(e)
    case Ok(names) => Ok(Unused(names, referenced))
  }
}
