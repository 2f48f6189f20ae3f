/** The five request handlers. Each calls the storage engine, writes its
    replies in order and bumps one counter once. GetBook writes exactly one
    reply. GetBooks and UpdateBook write a 500 on a storage error and then
    their 200 reply; PostBook may write a 500 for each failed lookup, insert
    or listing before its final 200. */
module Handlers {
  import opened Catalog
  import opened Storage
  import opened Metrics
  import opened BatchImport

  /** GetBook's three-way choice: a storage error gives 500 with the error,
      a stored id gives 200 with its record, an absent id gives 404 with an
      empty body. */
  function Lookup(rows: map<string, Book>, id: string, lookupFails: bool): (r: Reply)
    ensures r.status == StatusInternalServerError <==> lookupFails
    ensures r.status == StatusOK <==> !lookupFails && id in rows
    ensures r.status == StatusNotFound <==> !lookupFails && id !in rows
    ensures r.status == StatusOK ==> r.body == Record(rows[id])
    ensures r.status == StatusNotFound ==> r.body == NoBody
  {
    if lookupFails then Failed(IoFailure)
    else if id in rows then Reply(StatusOK, Record(rows[id]))
    else Reply(StatusNotFound, NoBody)
  }

  /** After a fault-free import, fetching the id of an item that was new and
      the first of its id in the batch gives 200 with exactly that item. */
  lemma ImportThenGetNew(rows: map<string, Book>, items: seq<Book>, k: nat)
    requires k < |items| && items[k].id !in rows
    requires forall j | 0 <= j < k :: items[j].id != items[k].id
    ensures Lookup(Import(rows, items, NoFaults).rows, items[k].id, false) == Reply(StatusOK, Record(items[k]))
  {
    ImportWithoutFaults(rows, items);
    FirstOccurrencesAt(items, k);
  }

  /** After any import, fetching an id that was already stored gives 200 with
      the record as it was before: the batch did not overwrite it. */
  lemma ImportThenGetOld(rows: map<string, Book>, items: seq<Book>, f: Faults, id: string)
    requires id in rows
    ensures Lookup(Import(rows, items, f).rows, id, false) == Reply(StatusOK, Record(rows[id]))
  {
  }

  /** The service: the storage engine, the counters, and the response
      writer's way of reporting a status after several writes. */
  class BookServer {
    const engine: Engine
    const counters: Counters
    const policy: WriterPolicy

    ghost predicate Valid()
      reads engine
    {
      engine.Valid()
    }

    constructor (engine: Engine, counters: Counters, policy: WriterPolicy)
      requires engine.Valid()
      ensures Valid()
      ensures this.engine == engine && this.counters == counters && this.policy == policy
    {
      this.engine := engine;
      this.counters := counters;
      this.policy := policy;
    }

    /** GET /books: the whole table as a `BookList`. */
    method GetBooks(f: Faults) returns (writes: seq<Reply>)
      requires Valid()
      modifies counters
      ensures f.find ==> writes == [Failed(IoFailure), Reply(StatusOK, Listing(BookList([])))]
      ensures !f.find ==> |writes| == 1 && writes[0].status == StatusOK && writes[0].body.Listing?
                          && Lists(writes[0].body.list.items, engine.rows)
      ensures counters.requestTotal == Bumped(old(counters.requestTotal), RequestLabel("GET", StatusOf(policy, writes)))
      ensures counters.notFoundTotal == old(counters.notFoundTotal)
    {
      writes := [];
      var books, err := engine.Find(f.find);
      if err.Some? {
        writes := writes + [Failed(err.value)];
      }
      writes := writes + [Reply(StatusOK, Listing(BookList(books)))];
      counters.CountRequest(RequestLabel("GET", StatusOf(policy, writes)));
    }

    /** GET /books/:id */
    method GetBook(id: string, f: Faults) returns (writes: seq<Reply>)
      requires Valid()
      modifies counters
      ensures writes == [Lookup(engine.rows, id, 0 in f.lookup)]
      ensures counters.requestTotal == Bumped(old(counters.requestTotal), RequestLabel("GET", writes[0].status))
      ensures counters.notFoundTotal == old(counters.notFoundTotal)
    {
      var exist, book, err := engine.Get(id, 0 in f.lookup);
      if err.Some? {
        writes := [Failed(err.value)];
      } else if exist {
        writes := [Reply(StatusOK, Record(book))];
      } else {
        writes := [Reply(StatusNotFound, NoBody)];
      }
      counters.CountRequest(RequestLabel("GET", StatusOf(policy, writes)));
    }

    /** POST /books: import the batch, then answer with the whole table. */
    method PostBook(list: BookList, f: Faults) returns (writes: seq<Reply>)
      requires Valid()
      modifies engine, counters
      ensures Valid()
      ensures engine.rows == Import(old(engine.rows), list.items, f).rows
      ensures |writes| >= 1
      ensures writes[..|writes| - 1] == Import(old(engine.rows), list.items, f).errors
                                        + (if f.find then [Failed(IoFailure)] else [])
      ensures writes[|writes| - 1].status == StatusOK && writes[|writes| - 1].body.Listing?
      ensures f.find ==> writes[|writes| - 1].body.list.items == []
      ensures !f.find ==> Lists(writes[|writes| - 1].body.list.items, engine.rows)
      ensures counters.requestTotal == Bumped(old(counters.requestTotal), RequestLabel("POST", StatusOf(policy, writes)))
      ensures counters.notFoundTotal == old(counters.notFoundTotal)
    {
      ghost var start := engine.rows;
      writes := [];
      for i := 0 to |list.items|
        modifies engine
        invariant engine.Valid()
        invariant Progress(engine.rows, writes) == Import(start, list.items[..i], f)
      {
        var val := list.items[i];
        assert list.items[..i + 1][..i] == list.items[..i];
        var has, _, err := engine.Get(val.id, i in f.lookup);
        if err.Some? {
          writes := writes + [Failed(err.value)];
        }
        if !has {
          var err' := engine.Insert(val, i in f.insert);
          if err'.Some? {
            writes := writes + [Failed(err'.value)];
          }
        }
      }
      assert list.items[..|list.items|] == list.items;
      var books, err := engine.Find(f.find);
      if err.Some? {
        writes := writes + [Failed(err.value)];
      }
      writes := writes + [Reply(StatusOK, Listing(BookList(books)))];
      counters.CountRequest(RequestLabel("POST", StatusOf(policy, writes)));
    }

    /** POST /books/:id: overwrite name and author of the row with the path's
        id, and echo the submitted book (its own `id` field plays no part). */
    method UpdateBook(id: string, book: Book, f: Faults) returns (writes: seq<Reply>)
      requires Valid()
      modifies engine, counters
      ensures Valid()
      ensures engine.rows == if !f.update && id in old(engine.rows)
                             then old(engine.rows)[id := Book(id, book.name, book.author)]
                             else old(engine.rows)
      ensures writes == (if f.update then [Failed(IoFailure)] else []) + [Reply(StatusOK, Record(book))]
      ensures counters.requestTotal == Bumped(old(counters.requestTotal), RequestLabel("Update", StatusOf(policy, writes)))
      ensures counters.notFoundTotal == old(counters.notFoundTotal)
    {
      writes := [];
      var _, err := engine.Update(id, book, f.update);
      if err.Some? {
        writes := writes + [Failed(err.value)];
      }
      writes := writes + [Reply(StatusOK, Record(book))];
      counters.CountRequest(RequestLabel("Update", StatusOf(policy, writes)));
    }

    /** The fallback for every unmatched request: 400 with an empty body, and
        only the not-found counter moves, labelled by method and raw URI. */
    method NotFoundFunc(verb: string, uri: string) returns (writes: seq<Reply>)
      modifies counters
      ensures writes == [Reply(StatusBadRequest, NoBody)]
      ensures counters.notFoundTotal == Bumped(old(counters.notFoundTotal), NotFoundLabel(verb, uri))
      ensures counters.requestTotal == old(counters.requestTotal)
    {
      writes := [Reply(StatusBadRequest, NoBody)];
      counters.CountNotFound(NotFoundLabel(verb, uri));
    }
  }
}
