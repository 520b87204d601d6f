/** Listing a table in insertion order, as the store's GetAll does, and sums
    over what was listed. */
module Listing {
  import opened Tables
  import opened Sums

  datatype Row<R> = Row(id: string, record: R)

  function Listed<R>(order: seq<string>, rows: map<string, R>, keep: R -> bool): seq<Row<R>> {
    if order == [] then []
    else (if order[0] in rows && keep(rows[order[0]]) then [Row(order[0], rows[order[0]])] else [])
         + Listed(order[1..], rows, keep)
  }

  function GetAll<R>(t: Table<R>, keep: R -> bool): seq<Row<R>> {
    Listed(t.order, t.rows, keep)
  }

  /** Listing is exactly the kept records, each under its own id. */
  lemma {:induction false} ListedElements<R>(order: seq<string>, rows: map<string, R>, keep: R -> bool)
    ensures forall r :: r in Listed(order, rows, keep)
              <==> r.id in order && r.id in rows && r.record == rows[r.id] && keep(r.record)
  {
    if order != [] {
      ListedElements(order[1..], rows, keep);
      var rest := Listed(order[1..], rows, keep);
      assert forall id :: id in order <==> id == order[0] || id in order[1..];
      assert forall r :: r in Listed(order, rows, keep) <==>
        (order[0] in rows && keep(rows[order[0]]) && r == Row(order[0], rows[order[0]])) || r in rest;
    }
  }

  /** A sum over a listing is the sum over the order list of the kept weights. */
  lemma {:induction false} SumListed<R>(order: seq<string>, rows: map<string, R>, keep: R -> bool,
                                        w: Row<R> -> int, v: string -> int)
    requires forall id :: id in order ==>
               v(id) == (if id in rows && keep(rows[id]) then w(Row(id, rows[id])) else 0)
    ensures Sum(Listed(order, rows, keep), w) == Sum(order, v)
  {
    if order != [] {
      SumListed(order[1..], rows, keep, w, v);
      var head := if order[0] in rows && keep(rows[order[0]]) then [Row(order[0], rows[order[0]])] else [];
      SumConcat(head, Listed(order[1..], rows, keep), w);
    }
  }
}
