/** The batch import at the heart of `PostBook`: for each submitted book, look
    its id up and insert it when the lookup reported no row. This module is the
    specification of that loop, as functions, and what it guarantees, as lemmas. */
module BatchImport {
  import opened Catalog

  /** Which storage calls of one request fail. `lookup` and `insert` hold the
      positions of the batch items whose `Get` or `Insert` fails; a request
      that makes a single `Get` uses position 0. */
  datatype Faults = Faults(lookup: set<nat>, insert: set<nat>, find: bool, update: bool)

  const NoFaults: Faults := Faults({}, {}, false, false)

  /** The table and the error replies written so far by the loop. */
  datatype Progress = Progress(rows: map<string, Book>, errors: seq<Reply>)

  /** One pass of the loop body for `item`. A failed `Get` reports no row, so
      the insert is still tried; the table's primary key then refuses it. */
  function Step(p: Progress, item: Book, lookupFails: bool, insertFails: bool): (q: Progress)
    ensures q.rows == p.rows || (item.id !in p.rows && q.rows == p.rows[item.id := item])
    ensures |p.errors| <= |q.errors| && q.errors[..|p.errors|] == p.errors
    ensures forall e | e in q.errors[|p.errors|..] :: e.status == StatusInternalServerError
  {
    var has := !lookupFails && item.id in p.rows;
    var errors := if lookupFails then p.errors + [Failed(IoFailure)] else p.errors;
    if has then Progress(p.rows, errors)
    else if insertFails then Progress(p.rows, errors + [Failed(IoFailure)])
    else if item.id in p.rows then Progress(p.rows, errors + [Failed(DuplicateKey(item.id))])
    else Progress(p.rows[item.id := item], errors)
  }

  /** The loop run over `items` in order, from the table `rows`. */
  function Import(rows: map<string, Book>, items: seq<Book>, f: Faults): (p: Progress)
    ensures |p.errors| <= 2 * |items|
    ensures forall e | e in p.errors :: e.status == StatusInternalServerError
    decreases |items|
  {
    if items == [] then Progress(rows, [])
    else
      var n := |items| - 1;
      Step(Import(rows, items[..n], f), items[n], n in f.lookup, n in f.insert)
  }

  /** Reference definition: each id of the batch mapped to the first item that
      carries it (earlier items are written last, so they win). */
  function FirstOccurrences(items: seq<Book>): map<string, Book>
  {
    if items == [] then map[] else FirstOccurrences(items[1..])[items[0].id := items[0]]
  }

  /** `FirstOccurrences` maps exactly the ids of the batch, each to the
      earliest item that carries it. */
  lemma {:induction false} FirstOccurrencesAt(items: seq<Book>, k: nat)
    requires k < |items|
    ensures items[k].id in FirstOccurrences(items)
    ensures (forall j | 0 <= j < k :: items[j].id != items[k].id) ==>
              FirstOccurrences(items)[items[k].id] == items[k]
  {
    if k > 0 {
      FirstOccurrencesAt(items[1..], k - 1);
      assert items[1..][k - 1] == items[k];
    }
  }

  /** Every id `FirstOccurrences` maps is carried by an item of the batch. */
  lemma {:induction false} FirstOccurrencesFrom(items: seq<Book>, id: string)
    requires id in FirstOccurrences(items)
    ensures FirstOccurrences(items)[id] in items && FirstOccurrences(items)[id].id == id
  {
    if items[0].id != id {
      FirstOccurrencesFrom(items[1..], id);
    }
  }

  /** Adding an item at the end changes `FirstOccurrences` only for a new id. */
  lemma {:induction false} FirstOccurrencesSnoc(s: seq<Book>, x: Book)
    ensures FirstOccurrences(s + [x]) ==
              if x.id in FirstOccurrences(s) then FirstOccurrences(s)
              else FirstOccurrences(s)[x.id := x]
  {
    if s == [] {
      assert s + [x] == [x];
      assert [x][1..] == [];
    } else {
      assert (s + [x])[1..] == s[1..] + [x];
      FirstOccurrencesSnoc(s[1..], x);
    }
  }

  /** Without storage failures the import writes no error, and the table it
      leaves is the old table plus, for each new id, the first item carrying it. */
  lemma {:induction false} ImportWithoutFaults(rows: map<string, Book>, items: seq<Book>)
    ensures Import(rows, items, NoFaults) == Progress(FirstOccurrences(items) + rows, [])
  {
    if items != [] {
      var n := |items| - 1;
      var s, x := items[..n], items[n];
      assert items == s + [x];
      ImportWithoutFaults(rows, s);
      FirstOccurrencesSnoc(s, x);
      var before := FirstOccurrences(s) + rows;
      if x.id in before && x.id !in FirstOccurrences(s) {
        assert FirstOccurrences(s)[x.id := x] + rows == before;
      } else if x.id !in before {
        assert FirstOccurrences(s)[x.id := x] + rows == before[x.id := x];
      }
    }
  }

  /** A stored row is never overwritten, whatever fails. */
  lemma {:induction false} ImportKeepsRows(rows: map<string, Book>, items: seq<Book>, f: Faults)
    ensures forall id | id in rows :: id in Import(rows, items, f).rows
                                      && Import(rows, items, f).rows[id] == rows[id]
  {
    if items != [] {
      ImportKeepsRows(rows, items[..|items| - 1], f);
    }
  }

  /** The import only adds rows, and each added row is an item of the batch,
      filed under its own id. */
  lemma {:induction false} ImportOnlyAdds(rows: map<string, Book>, items: seq<Book>, f: Faults)
    ensures forall id | id in Import(rows, items, f).rows && id !in rows ::
              Import(rows, items, f).rows[id] in items && Import(rows, items, f).rows[id].id == id
  {
    if items != [] {
      var n := |items| - 1;
      ImportOnlyAdds(rows, items[..n], f);
      forall id | id in Import(rows, items, f).rows && id !in rows
        ensures Import(rows, items, f).rows[id] in items
      {
        var b := Import(rows, items, f).rows[id];
        if b != items[n] {
          assert b in items[..n];
        }
      }
    }
  }

  /** An error on one item does not stop the loop: every item whose insert
      did not fail has its id stored afterwards. */
  lemma {:induction false} ImportAttemptsEveryItem(rows: map<string, Book>, items: seq<Book>, f: Faults, k: nat)
    requires k < |items| && k !in f.insert
    ensures items[k].id in Import(rows, items, f).rows
  {
    var n := |items| - 1;
    if k < n {
      ImportAttemptsEveryItem(rows, items[..n], f, k);
      assert items[..n][k] == items[k];
    }
  }

  /** Importing a batch a second time, after a first import without storage
      failures, changes nothing, whatever fails the second time. */
  lemma ImportIdempotent(rows: map<string, Book>, items: seq<Book>, f: Faults)
    ensures Import(Import(rows, items, NoFaults).rows, items, f).rows == Import(rows, items, NoFaults).rows
  {
    var once := Import(rows, items, NoFaults).rows;
    var twice := Import(once, items, f).rows;
    ImportWithoutFaults(rows, items);
    ImportKeepsRows(once, items, f);
    ImportOnlyAdds(once, items, f);
    forall id | id in twice ensures id in once {
      if id !in once {
        var k :| 0 <= k < |items| && items[k] == twice[id];
        FirstOccurrencesAt(items, k);
      }
    }
  }
}
