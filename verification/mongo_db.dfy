/**
 The document store: a MongoExport object bound to one collection of one
 database, which it may clear once while it is being constructed and to
 which it then appends documents one at a time.

 The database driver is not modelled; a collection is an object holding
 its documents in insertion order, and its two operations (drop and
 insert one) stand for the driver's calls.
 */
module MongoDb {

  import opened Options
  import opened MongoUri

  /** A database collection; other objects may hold a reference to it too. */
  class Collection<D> {
    var docs: seq<D>

    constructor (docs: seq<D>)
      ensures this.docs == docs
    {
      this.docs := docs;
    }

    /** Removes every document of the collection. */
    method Drop()
      modifies this
      ensures docs == []
    {
      docs := [];
    }

    /** Stores one more document; no uniqueness check is made. */
    method InsertOne(d: D)
      modifies this
      ensures docs == old(docs) + [d]
    {
      docs := docs + [d];
    }
  }

  class MongoExport<D> {
    // Connection settings, fixed at construction.
    const host: string
    const port: int
    const user: Option<string>
    const password: Option<string>
    const credentials: string
    const uri: string
    const database: string
    const collection: string

    /** The collection that the database resolves `collection` to. */
    const coll: Collection<D>

    /** What the collection held when construction finished. */
    ghost var kept: seq<D>
    /** Every document passed to Insert, in order. */
    ghost var inserted: seq<D>

    /** The collection is what construction left in it, followed by every inserted document. */
    ghost predicate Valid()
      reads this, coll
    {
      coll.docs == kept + inserted
    }

    /**
     Applies the host and port defaults, builds the connection string and,
     when `clear` is set, drops the collection before the object exists.
     `target` stands for the collection that the client resolves from the
     database and collection names.
     */
    constructor (database: string, collection: string, clear: bool,
                 host: Option<string>, port: Option<int>,
                 user: Option<string>, password: Option<string>,
                 target: Collection<D>)
      modifies target
      ensures this.host == HostOrDefault(host) && this.port == PortOrDefault(port)
      ensures this.user == user && this.password == password
      ensures credentials == Credentials(user, password)
      ensures uri == BuildUri(host, port, user, password)
      ensures this.database == database && this.collection == collection && coll == target
      ensures clear ==> target.docs == []
      ensures !clear ==> target.docs == old(target.docs)
      ensures Valid() && kept == target.docs && inserted == []
    {
      this.host := HostOrDefault(host);
      this.port := PortOrDefault(port);
      this.user := user;
      this.password := password;
      this.credentials := Credentials(user, password);
      this.uri := BuildUri(host, port, user, password);
      this.database := database;
      this.collection := collection;
      if clear {
        var _ := DropColl(target);
      }
      this.coll := target;
      this.kept := target.docs;
      this.inserted := [];
    }

    /** Drops the given collection and hands it back. */
    static method DropColl(c: Collection<D>) returns (r: Collection<D>)
      modifies c
      ensures r == c && c.docs == []
    {
      c.Drop();
      r := c;
    }

    /**
     Appends one document to the collection. Nothing is removed: the
     documents kept at construction and all earlier inserts stay in place.
     */
    method Insert(d: D)
      requires Valid()
      modifies this, coll
      ensures Valid()
      ensures coll.docs == old(coll.docs) + [d]
      ensures kept == old(kept) && inserted == old(inserted) + [d]
    {
      coll.InsertOne(d);
      inserted := inserted + [d];
    }

    /** Releases the client; the modelled state is left as it is. */
    method Close()
      ensures unchanged(this, coll)
    {
    }
  }
}
