/** pkg/pagination: a page of results and whether another page follows.
    Callers fetch one row more than `limit`; that extra row signals the next page. */
module Pagination {

  const MaxLimit: nat := 100

  const Two64: nat := 0x1_0000_0000_0000_0000
  type U64 = x: int | 0 <= x < 0x1_0000_0000_0000_0000

  datatype List<T> = List(result: seq<T>, hasNext: bool)

  /** `NewList`. The comparison `objectLength == limit+1` is in uint64
      arithmetic, so `limit+1` wraps to 0 at the largest limit; the one input
      that then panics (largest limit, empty list) is excluded. */
  function NewList<T>(objects: seq<T>, limit: U64): (l: List<T>)
    requires |objects| < Two64
    requires limit < Two64 - 1 || |objects| > 0
    ensures l.hasNext <==> |objects| == (limit + 1) % Two64
    ensures l.result <= objects
    ensures |l.result| == if l.hasNext then |objects| - 1 else |objects|
  {
    var objectLength := |objects|;
    var hasNext := objectLength == (limit + 1) % Two64;
    if hasNext then List(objects[..objectLength - 1], true) else List(objects, false)
  }

  /** For every limit below the largest: `hasNext` exactly when one row more
      than the limit was fetched, and then that last row is dropped; otherwise
      the rows pass through untouched, however many there are. */
  lemma NewListPages<T>(objects: seq<T>, limit: U64)
    requires |objects| < Two64 && limit < Two64 - 1
    ensures NewList(objects, limit).hasNext <==> |objects| == limit + 1
    ensures NewList(objects, limit).hasNext ==>
      |NewList(objects, limit).result| == limit && NewList(objects, limit).result + [objects[limit]] == objects
    ensures !NewList(objects, limit).hasNext ==> NewList(objects, limit).result == objects
    ensures |objects| <= limit + 1 ==> |NewList(objects, limit).result| <= limit
  {
    var l := NewList(objects, limit);
    if l.hasNext {
      assert l.result == objects[..limit];
      assert objects[..limit] + [objects[limit]] == objects;
    }
  }

  /** The default and maximum limits are advisory: any limit is honoured as given. */
  lemma LimitsNotEnforced<T>(objects: seq<T>)
    requires |objects| == MaxLimit + 2
    ensures |NewList(objects, MaxLimit + 1).result| == MaxLimit + 1
    ensures NewList(objects, MaxLimit + 1).hasNext
  {
  }
}
