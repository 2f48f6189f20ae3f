/** The record types of the book service and the replies its handlers write. */
module Catalog {

  datatype Option<+T> = None | Some(value: T)

  /** A catalog record. `id` is the primary key of the table, supplied by the client. */
  datatype Book = Book(id: string, name: string, author: string)

  /** The envelope used by the listing and by the batch import. */
  datatype BookList = BookList(items: seq<Book>)

  /** What the storage engine may report instead of a result. */
  datatype StoreError =
    | IoFailure                 // the connection or the database failed
    | DuplicateKey(id: string)  // an insert hit an existing primary key

  /** The JSON body of one `ctx.JSON(status, body)` write. */
  datatype Body =
    | NoBody                     // `nil`
    | ErrorDetail(err: StoreError)
    | Record(book: Book)
    | Listing(list: BookList)

  /** One `ctx.JSON` call: a status and a body. A handler may make several. */
  datatype Reply = Reply(status: int, body: Body)

  const StatusOK: int := 200
  const StatusBadRequest: int := 400
  const StatusUnauthorized: int := 401
  const StatusNotFound: int := 404
  const StatusInternalServerError: int := 500

  /** The reply written for a storage error. */
  function Failed(e: StoreError): (r: Reply)
    ensures r.status == StatusInternalServerError && r.body.ErrorDetail?
  {
    Reply(StatusInternalServerError, ErrorDetail(e))
  }

  /** The table invariant: every row is filed under its own primary key. */
  ghost predicate Keyed(rows: map<string, Book>)
  {
    forall id | id in rows :: rows[id].id == id
  }

  /** No two entries of `books` share an id. */
  ghost predicate DistinctIds(books: seq<Book>)
  {
    forall i, j | 0 <= i < j < |books| :: books[i].id != books[j].id
  }

  /** `books` enumerates the table: every entry is a stored row, every stored
      row occurs, and none occurs twice. The order is left open. */
  ghost predicate Lists(books: seq<Book>, rows: map<string, Book>)
  {
    && (forall b | b in books :: b.id in rows && rows[b.id] == b)
    && (forall id | id in rows :: rows[id] in books)
    && DistinctIds(books)
  }

  /** The ids carried by a sequence of books. */
  ghost function IdSet(books: seq<Book>): set<string>
  {
    set b | b in books :: b.id
  }

  /** An enumeration has exactly one entry per stored row. */
  lemma ListsHasOneEntryPerRow(books: seq<Book>, rows: map<string, Book>)
    requires Keyed(rows) && Lists(books, rows)
    ensures |books| == |rows|
  {
    assert IdSet(books) == rows.Keys by {
      forall id | id in rows ensures id in IdSet(books) {
        assert rows[id] in books;
      }
    }
    IdsOfDistinct(books);
  }

  /** The ids of a sequence with distinct ids are as many as its entries. */
  lemma {:induction false} IdsOfDistinct(books: seq<Book>)
    requires DistinctIds(books)
    ensures |IdSet(books)| == |books|
  {
    if books != [] {
      var first, rest := books[0], books[1..];
      assert DistinctIds(rest) by {
        forall i, j | 0 <= i < j < |rest| ensures rest[i].id != rest[j].id {
          assert rest[i] == books[i + 1] && rest[j] == books[j + 1];
        }
      }
      IdsOfDistinct(rest);
      assert first.id !in IdSet(rest) by {
        forall b | b in rest ensures b.id != first.id {
          var k :| 0 <= k < |rest| && rest[k] == b;
          assert books[k + 1] == b;
        }
      }
      assert IdSet(books) == IdSet(rest) + {first.id} by {
        assert books == [first] + rest;
      }
    }
  }
}
