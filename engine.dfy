/** The storage engine the handlers call: one table of books under the
    primary key `id`. Every call may fail; whether it does is an input
    (`ioFails`), since it depends on the database and the network. */
module Storage {
  import opened Catalog

  class Engine {
    /** The table, keyed by primary key. */
    var rows: map<string, Book>

    ghost predicate Valid()
      reads this
    {
      Keyed(rows)
    }

    constructor ()
      ensures Valid() && rows == map[]
    {
      rows := map[];
    }

    /** `Get(&book)` with only `ID` set: is there a row with that key, and if
        so, which. A failed call reports no row. */
    method Get(id: string, ioFails: bool) returns (has: bool, book: Book, err: Option<StoreError>)
      requires Valid()
      ensures err == (if ioFails then Some(IoFailure) else None)
      ensures has <==> !ioFails && id in rows
      ensures has ==> book == rows[id] && book.id == id
    {
      if ioFails {
        return false, Book(id, "", ""), Some(IoFailure);
      }
      has := id in rows;
      book := if has then rows[id] else Book(id, "", "");
      err := None;
    }

    /** `Insert(book)`: adds a row, refusing a key that is already stored. */
    method Insert(book: Book, ioFails: bool) returns (err: Option<StoreError>)
      requires Valid()
      modifies this
      ensures Valid()
      ensures err == (if ioFails then Some(IoFailure)
                      else if book.id in old(rows) then Some(DuplicateKey(book.id))
                      else None)
      ensures rows == if err == None then old(rows)[book.id := book] else old(rows)
    {
      if ioFails {
        return Some(IoFailure);
      }
      if book.id in rows {
        return Some(DuplicateKey(book.id));
      }
      rows := rows[book.id := book];
      err := None;
    }

    /** `Find(&books)`: every row, in an order the storage chooses. */
    method Find(ioFails: bool) returns (books: seq<Book>, err: Option<StoreError>)
      requires Valid()
      ensures err == (if ioFails then Some(IoFailure) else None)
      ensures ioFails ==> books == []
      ensures !ioFails ==> Lists(books, rows)
    {
      if ioFails {
        return [], Some(IoFailure);
      }
      books := [];
      var pending := rows.Keys;
      while pending != {}
        invariant pending <= rows.Keys
        invariant forall b | b in books :: b.id in rows && rows[b.id] == b && b.id !in pending
        invariant forall id | id in rows && id !in pending :: rows[id] in books
        invariant DistinctIds(books)
        decreases pending
      {
        var id :| id in pending;
        books := books + [rows[id]];
        pending := pending - {id};
      }
      err := None;
    }

    /** `ID(id).Update(book)`: overwrites the name and author of the row with
        key `id`. A missing key is not an error; it changes nothing, and the
        count of affected rows is 0. */
    method Update(id: string, book: Book, ioFails: bool) returns (affected: nat, err: Option<StoreError>)
      requires Valid()
      modifies this
      ensures Valid()
      ensures err == (if ioFails then Some(IoFailure) else None)
      ensures affected == (if !ioFails && id in old(rows) then 1 else 0)
      ensures rows == if affected == 1 then old(rows)[id := Book(id, book.name, book.author)]
                      else old(rows)
    {
      if ioFails {
        return 0, Some(IoFailure);
      }
      if id in rows {
        rows := rows[id := Book(id, book.name, book.author)];
        return 1, None;
      }
      return 0, None;
    }
  }
}
