# xml2mongo document store, modelled in Dafny

xml2mongo imports a directory of XML files into a MongoDB collection. The
logic it owns lives in the `MongoExport` class: its constructor turns the
optional host, port, user and password into a MongoDB connection string and,
when asked to, drops the target collection once, before any document is
inserted; `insert` then appends documents one at a time.

The model has two modules.

- `MongoUri` (`mongo_uri.dfy`) holds the pure part: Python's truthiness
  defaults (`None` and `""` for host, user and password, `None` and `0` for
  the port), the `user:password@` segment, Python's decimal text of the port,
  and the connection string `mongodb://[user:password@]host:port`. Beside
  each function stands a partner: the port's decimal text is read back
  (`ParseDecimal`), the port is recovered from the finished string
  (`AfterLastColon`), and the separators the segment adds are counted.
- `MongoDb` (`mongo_db.dfy`) holds the stateful part: a `Collection` object
  standing for the driver's collection (its documents as a `seq`, in
  insertion order), and the `MongoExport` class with its constructor,
  `Insert`, `Close` and the static `DropColl`. Its invariant `Valid()` says
  that the collection holds what construction left in it (`kept`), followed
  by every inserted document (`inserted`). Dropping happens only in the
  constructor, so no document inserted through an object can be removed by
  that object's own clear. Any other writer to the same collection (a
  second `MongoExport` that clears it or inserts into it) makes the first
  object's `Valid()` false, so the model no longer lets that object insert,
  while the program still would. The program itself builds a single object
  per run.

Documents are left abstract (a type parameter `D`). The client connection,
the database lookup and the collection lookup are calls into the driver; the
collection they resolve to is passed to the constructor as `target`.

How the credentials segment behaves: the `user:password@` segment is left out
only when neither user nor password is truthy. When only one of them is
truthy, the f-string renders the other as the text `None` if it is absent,
or as the empty text if it is empty. Neither side is escaped.

The command-line help gives 27017 as the default port; the code uses 27019,
and the model follows the code.

## Model

| member | source | states |
|---|---|---|
| `MongoUri.HostOrDefault` | python/e2m/mongodb/mongoExport.py:7 | the host used is never empty: a truthy host is used unchanged, an absent or empty one becomes "localhost" |
| `MongoUri.PortOrDefault` | python/e2m/mongodb/mongoExport.py:8 | the port used is never 0: a truthy port is used unchanged, an absent or zero one becomes 27019 |
| `MongoUri.Credentials` | python/e2m/mongodb/mongoExport.py:11 | the segment is empty exactly when both user and password are absent or empty; otherwise it is the rendered user, ":", the rendered password and "@", ending in "@" |
| `MongoUri.CountAppend` | python/e2m/mongodb/mongoExport.py:11 | occurrences of a character in a concatenation add up; used to count the segment's separators |
| `MongoUri.CredentialsSeparators` | python/e2m/mongodb/mongoExport.py:11 | a non-empty segment holds exactly one ":" and one "@" more than the user and password bring themselves |
| `MongoUri.CredentialsNotInjective` | python/e2m/mongodb/mongoExport.py:11 | because nothing is escaped, user "a:b" with password "c" and user "a" with password "b:c" give the same segment |
| `MongoUri.Digits` | python/e2m/mongodb/mongoExport.py:12 | the decimal text of a natural number is non-empty, all digits, "0" for zero and has no leading zero otherwise |
| `MongoUri.Decimal` | python/e2m/mongodb/mongoExport.py:12 | Python's text of an int is non-empty, holds no ":", starts with "-" exactly for negatives, is all digits after any sign, is "0" for zero and has no leading zero otherwise |
| `MongoUri.DigitsRoundTrip` | python/e2m/mongodb/mongoExport.py:12 | reading back the digits of a natural number gives the number |
| `MongoUri.DecimalRoundTrip` | python/e2m/mongodb/mongoExport.py:12 | reading back the decimal text of any int, sign included, gives the int |
| `MongoUri.DecimalInjective` | python/e2m/mongodb/mongoExport.py:12 | two ports with the same text are the same port |
| `MongoUri.BuildUri` | python/e2m/mongodb/mongoExport.py:7-12 | the connection string starts with "mongodb://", holds the credentials segment right after it, ends with ":" and the decimal port in use, and without credentials is exactly "mongodb://" + host + ":" + port |
| `MongoUri.AfterLastColon` | python/e2m/mongodb/mongoExport.py:12 | the result is a colon-free suffix of the string that is either the whole string or preceded by a ":", so it is the text after the last ":" |
| `MongoUri.AfterLastColonOfJoin` | python/e2m/mongodb/mongoExport.py:12 | joining any text, ":" and a colon-free tail, the text after the last ":" is that tail |
| `MongoUri.UriPortRecoverable` | python/e2m/mongodb/mongoExport.py:7-12 | the port in use is read back from the text after the last ":" of the connection string, whatever the host and credentials contain |
| `MongoUri.UriHostPortIndependentOfCredentials` | python/e2m/mongodb/mongoExport.py:11-12 | after the scheme and the credentials segment, the connection string is host + ":" + port, the same for any user and password |
| `MongoDb.Collection.Drop` | python/e2m/mongodb/mongoExport.py:28 | dropping leaves the collection empty |
| `MongoDb.Collection.InsertOne` | python/e2m/mongodb/mongoExport.py:21 | inserting one document appends exactly that document |
| `MongoDb.MongoExport.constructor` | python/e2m/mongodb/mongoExport.py:6-18 | the stored host, port, credentials and connection string are the defaulted values above; with clear set the collection is empty afterwards, without it the collection is untouched; the invariant holds with nothing inserted yet |
| `MongoDb.MongoExport.DropColl` | python/e2m/mongodb/mongoExport.py:26-29 | drops the given collection and returns that same collection, now empty |
| `MongoDb.MongoExport.Insert` | python/e2m/mongodb/mongoExport.py:20-21 | the collection grows by exactly the given document at its end, duplicates included; the documents kept at construction and all earlier inserts stay in place |
| `MongoDb.MongoExport.Close` | python/e2m/mongodb/mongoExport.py:23-24 | the modelled state, the collection included, is unchanged |

## Left out

- All of `python/e2m/xml2mongo.py`: directory listing, file reading, XML parsing and serialisation, the XML-to-document conversion, progress output, command-line parsing. These are I/O and calls into other libraries. Its export loop calls `insert_one` on a `MongoExport`, which defines only `insert`, so that loop is not a user of this model.
- The pymongo client, `get_database` and `get_collection`: foreign calls. Their result is the constructor's `target` parameter; connection failures are not modelled.
- The private `__clear` attribute, which stores either the collection or a one-element set holding it; nothing reads it.
- Insert failures (write errors raised by the driver) and the `_id` field the driver adds to an inserted document: the model treats documents as opaque values and every insert as successful.
- MongoDb.MongoExport.Close: the driver's closing of the client, and what a later insert on a closed client does, are not modelled; only the fact that the modelled state is unchanged is stated.
- MongoDb.MongoExport.constructor: the driver parses the connection string when the client is created, before the drop, and raises on strings it rejects (user or password holding `@`, a bare `%` or an extra `:`, an empty user beside a truthy password, a port outside 0-65535, a host with an unbracketed `:`). The model treats every string `BuildUri` builds as accepted, so its promise that `clear` empties the collection holds only for connection strings the driver accepts; for the others the program raises and the collection is left as it was.
- The port is modelled as an unbounded integer, as the command line passes it (any int, negative ones included); the driver's range check on it is covered by the constructor line above.
