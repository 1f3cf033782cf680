/** The three stores the job reconciles, held in memory: the main database
    (chat, file, knowledge, memory tables), the vector database
    (document_chunk rows) and the uploads directory. */
module Stores {
  import opened Results
  import opened JsonPath

  /** A chat row: the archived flag, the creation time in epoch seconds and
      the chat document. */
  datatype Chat = Chat(archived: bool, createdAt: int, chat: Json)

  /** A file row: its path (NULL is None) and its meta document. */
  datatype FileRow = FileRow(path: Option<string>, meta: Json)

  /** A document_chunk row of the vector database. */
  datatype Chunk = Chunk(collectionName: string)

  /** The tables of the main database: chats and files keyed by id, the data
      documents of the knowledge rows in the order the query returns them,
      and the user ids of the memory rows. */
  datatype MainTables = MainTables(
    chats: map<string, Chat>,
    files: map<string, FileRow>,
    knowledge: seq<Json>,
    memory: seq<string>)

  /** A connection to the main database: `live` is what the open transaction
      sees, `durable` what has been committed. */
  class MainDb {
    var live: MainTables
    var durable: MainTables

    constructor (store: MainTables)
      ensures live == store && durable == store
    {
      live := store;
      durable := store;
    }

    method Commit()
      modifies this
      ensures durable == live && live == old(live)
    {
      durable := live;
    }
  }

  /** A connection to the vector database, document_chunk rows keyed by id. */
  class VectorDb {
    var live: map<string, Chunk>
    var durable: map<string, Chunk>

    constructor (store: map<string, Chunk>)
      ensures live == store && durable == store
    {
      live := store;
      durable := store;
    }

    method Commit()
      modifies this
      ensures durable == live && live == old(live)
    {
      durable := live;
    }
  }

  /** The uploads directory: the names it holds, whether listing it succeeds,
      and the names whose removal raises (a locked or protected file); these
      two stand for the operating system's answers. */
  class Uploads {
    var names: set<string>
    const listable: bool
    const undeletable: set<string>

    constructor (names: set<string>, listable: bool, undeletable: set<string>)
      ensures this.names == names && this.listable == listable && this.undeletable == undeletable
    {
      this.names := names;
      this.listable := listable;
      this.undeletable := undeletable;
    }

    /** `os.listdir`: the names in the directory, or the error it raises. */
    method ListDir() returns (r: Result<set<string>>)
      ensures r == if listable then Ok(names) else Err(ListingFailed)
    {
      r := if listable then Ok(names) else Err(ListingFailed);
    }

    /** `os.remove`: succeeds, and removes the name, exactly when the name is
        present and removable. */
    method Remove(name: string) returns (ok: bool)
      modifies this
      ensures ok == (name in old(names) && name !in undeletable)
      ensures names == if ok then old(names) - {name} else old(names)
    {
      ok := name in names && name !in undeletable;
      if ok {
        names := names - {name};
      }
    }
  }
}
