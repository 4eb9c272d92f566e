/**
 The cache of scoped memories (pkg/agent/context_memory.go): stores by directory, a tick of last use
 for each, and eviction down to a limit. It refines a list ordered from the most to the least
 recently used.
 */
module ScopeCache {
  const DEFAULT_MAX_ENTRIES := 128

  /** The list without a path. */
  function Without(order: seq<string>, path: string): seq<string> {
    if order == [] then []
    else if order[0] == path then Without(order[1..], path)
    else [order[0]] + Without(order[1..], path)
  }

  function Cut(order: seq<string>, limit: nat): seq<string> { if |order| <= limit then order else order[..limit] }

  /** Requesting a path puts it in front and keeps the first limit paths. */
  function Request(order: seq<string>, path: string, limit: nat): seq<string> {
    Cut([path] + Without(order, path), limit)
  }

  /** The ticks go down along the list, from at most the bound. */
  predicate Descending(order: seq<string>, lastUsed: map<string, int>, bound: int) {
    order == [] ||
    (order[0] in lastUsed && lastUsed[order[0]] <= bound && Descending(order[1..], lastUsed, lastUsed[order[0]] - 1))
  }

  predicate Distinct(order: seq<string>) { order == [] || (order[0] !in order[1..] && Distinct(order[1..])) }

  function Elements(order: seq<string>): set<string> { set path | path in order }

  // ------------------------------------------------------------------ descending lists

  lemma {:induction false} DescendingBound(order: seq<string>, lastUsed: map<string, int>, bound: int, path: string)
    requires Descending(order, lastUsed, bound) && path in order
    ensures path in lastUsed && lastUsed[path] <= bound
  {
    if path != order[0] {
      DescendingBound(order[1..], lastUsed, lastUsed[order[0]] - 1, path);
    }
  }

  lemma {:induction false} DescendingDistinct(order: seq<string>, lastUsed: map<string, int>, bound: int)
    requires Descending(order, lastUsed, bound)
    ensures Distinct(order)
  {
    if order != [] {
      DescendingDistinct(order[1..], lastUsed, lastUsed[order[0]] - 1);
      if order[0] in order[1..] {
        DescendingBound(order[1..], lastUsed, lastUsed[order[0]] - 1, order[0]);
      }
    }
  }

  /** A higher bound or the tick of a path outside the list makes no difference. */
  lemma {:induction false} DescendingFrame(
      order: seq<string>, lastUsed: map<string, int>, bound: int, lastUsed': map<string, int>, bound': int)
    requires Descending(order, lastUsed, bound) && bound <= bound'
    requires forall p :: p in order && p in lastUsed ==> p in lastUsed' && lastUsed'[p] == lastUsed[p]
    ensures Descending(order, lastUsed', bound')
  {
    if order != [] {
      assert forall p :: p in order[1..] ==> p in order;
      DescendingFrame(order[1..], lastUsed, lastUsed[order[0]] - 1, lastUsed', lastUsed[order[0]] - 1);
    }
  }

  lemma {:induction false} DescendingWithout(order: seq<string>, lastUsed: map<string, int>, bound: int, path: string)
    requires Descending(order, lastUsed, bound)
    ensures Descending(Without(order, path), lastUsed, bound)
  {
    if order != [] {
      var next := lastUsed[order[0]] - 1;
      DescendingWithout(order[1..], lastUsed, next, path);
      if order[0] == path {
        DescendingFrame(Without(order[1..], path), lastUsed, next, lastUsed, bound);
      } else {
        assert Without(order, path)[1..] == Without(order[1..], path);
      }
    }
  }

  /** The last path has the least tick, and dropping it leaves a descending list. */
  lemma {:induction false} DescendingLast(order: seq<string>, lastUsed: map<string, int>, bound: int, path: string)
    requires Descending(order, lastUsed, bound) && path in order
    ensures var last := order[|order| - 1];
            && last in lastUsed && path in lastUsed
            && (path != last ==> lastUsed[last] < lastUsed[path])
            && Descending(order[..|order| - 1], lastUsed, bound)
  {
    DescendingBound(order, lastUsed, bound, path);
    if |order| > 1 {
      var rest, next := order[1..], lastUsed[order[0]] - 1;
      var last := rest[|rest| - 1];
      DescendingLast(rest, lastUsed, next, if path == order[0] then last else path);
      DescendingBound(rest, lastUsed, next, last);
      assert order[..|order| - 1][1..] == rest[..|rest| - 1];
    }
  }

  lemma {:induction false} WithoutExact(order: seq<string>, path: string)
    ensures Elements(Without(order, path)) == Elements(order) - {path}
    ensures Distinct(order) ==> |Without(order, path)| == |order| - if path in order then 1 else 0
  {
    if order != [] {
      WithoutExact(order[1..], path);
      var rest := Without(order[1..], path);
      assert order == [order[0]] + order[1..];
      assert Elements(order) == {order[0]} + Elements(order[1..]);
      if order[0] != path {
        assert Elements([order[0]] + rest) == {order[0]} + Elements(rest);
      }
    }
  }

  lemma {:induction false} DistinctSize(order: seq<string>)
    requires Distinct(order)
    ensures |Elements(order)| == |order|
  {
    if order != [] {
      DistinctSize(order[1..]);
      assert order == [order[0]] + order[1..];
      assert Elements(order) == {order[0]} + Elements(order[1..]);
    }
  }

  lemma {:induction false} DropLast(order: seq<string>)
    requires Distinct(order) && order != []
    ensures Elements(order[..|order| - 1]) == Elements(order) - {order[|order| - 1]}
  {
    var init, last := order[..|order| - 1], order[|order| - 1];
    assert order == init + [last];
    if |order| > 1 {
      DropLast(order[1..]);
      assert order[1..][..|order| - 2] == init[1..];
      assert init == [init[0]] + init[1..];
      assert last in order[1..];
      assert forall p :: p in init <==> p == init[0] || p in Elements(init[1..]);
      assert forall p :: p in order <==> p == order[0] || p in Elements(order[1..]) by {
        assert order == [order[0]] + order[1..];
      }
    }
  }

  // ------------------------------------------------------------------ the cache

  /** A list with the maps that implement it. */
  datatype Cache = Cache(order: seq<string>, scopes: map<string, nat>, lastUsed: map<string, int>, tick: int)

  /** The list holds the cached paths in the order of their ticks. */
  ghost predicate Refines(order: seq<string>, scopes: map<string, nat>, lastUsed: map<string, int>, tick: int) {
    Descending(order, lastUsed, tick) && Elements(order) == scopes.Keys == lastUsed.Keys && |order| == |scopes|
  }

  ghost function Refinements(): iset<Cache> { iset c: Cache | Refines(c.order, c.scopes, c.lastUsed, c.tick) }

  class ScopedMemories {
    /** The stores by directory; a store is known by a number. */
    var scopes: map<string, nat>
    var lastUsed: map<string, int>
    var tick: nat
    var maxEntries: int
    var created: nat
    ghost var order: seq<string>

    ghost predicate Valid()
      reads this
    {
      Cache(order, scopes, lastUsed, tick) in Refinements() && |order| == |scopes|
    }

    function MaxScopes(): (limit: nat)
      reads this
      ensures limit >= 1
    {
      if maxEntries <= 0 then DEFAULT_MAX_ENTRIES else maxEntries
    }

    constructor (maxEntries: int)
      ensures Valid() && order == [] && this.maxEntries == maxEntries
    {
      scopes, lastUsed, tick, created, order := map[], map[], 0, 0, [];
      this.maxEntries := maxEntries;
    }

    method EvictScopes(preserve: string)
      requires Valid() && order != [] && order[0] == preserve
      modifies this`scopes, this`lastUsed, this`order
      ensures Valid() && order == Cut(old(order), MaxScopes())
      ensures Within(scopes, old(scopes))
    {
      scopes, lastUsed, order := Evict(scopes, lastUsed, order, tick, MaxScopes(), preserve);
    }

    /** The store of a directory, made when it is not cached; the directory is then the most recent. */
    method MemoryForSession(path: string) returns (store: nat)
      requires Valid()
      modifies this
      ensures Valid() && maxEntries == old(maxEntries)
      ensures order == Request(old(order), path, MaxScopes())
      ensures store == if path in old(scopes) then old(scopes)[path] else old(created)
      ensures Within(scopes, old(scopes)[path := store]) && path in scopes
    {
      if path in scopes {
        store := scopes[path];
      } else {
        store, created := created, created + 1;
      }
      TouchScope(path, store);
      RequestedIsKept(old(order), path, MaxScopes());
      EvictScopes(path);
      FirstIsCached(order, scopes, lastUsed, tick);
    }

    method TouchScope(path: string, store: nat)
      requires Valid()
      modifies this`scopes, this`lastUsed, this`tick, this`order
      ensures Valid() && order == [path] + Without(old(order), path) && scopes == old(scopes)[path := store]
    {
      Touched(order, scopes, lastUsed, tick, path, store);
      scopes := scopes[path := store];
      tick := tick + 1;
      lastUsed := lastUsed[path := tick];
      order := [path] + Without(order, path);
    }
  }

  /** The least recently used path other than the preserved one, which comes first. */
  method OldestScope(
      scopes: map<string, nat>, lastUsed: map<string, int>, ghost order: seq<string>, ghost tick: int, preserve: string)
    returns (oldest: string)
    requires Cache(order, scopes, lastUsed, tick) in Refinements() && |order| > 1 && order[0] == preserve
    ensures oldest == order[|order| - 1]
  {
    ghost var last := order[|order| - 1];
    DescendingLast(order, lastUsed, tick, preserve);
    DescendingDistinct(order, lastUsed, tick);
    assert last in order[1..] && last != preserve;
    var todo := scopes.Keys - {preserve};
    assert last in Elements(order);
    assert last in scopes.Keys && last in todo;
    oldest :| oldest in todo;
    todo := todo - {oldest};
    while todo != {}
      invariant oldest in scopes.Keys - {preserve} && todo <= scopes.Keys - {preserve}
      invariant last in todo || lastUsed[oldest] <= lastUsed[last]
      decreases todo
    {
      var path :| path in todo;
      if lastUsed[path] < lastUsed[oldest] {
        oldest := path;
      }
      todo := todo - {path};
    }
    assert oldest in Elements(order);
    DescendingLast(order, lastUsed, tick, oldest);
  }

  /** The eviction loop: drop the least recently used path while there are too many. */
  method Evict(before: map<string, nat>, lastUsedBefore: map<string, int>, ghost whole: seq<string>, ghost tick: int,
               limit: nat, preserve: string)
    returns (scopes: map<string, nat>, lastUsed: map<string, int>, ghost order: seq<string>)
    requires Cache(whole, before, lastUsedBefore, tick) in Refinements()
    requires limit >= 1 && whole != [] && whole[0] == preserve
    ensures Cache(order, scopes, lastUsed, tick) in Refinements() && |order| == |scopes|
    ensures order == Cut(whole, limit) && Within(scopes, before)
  {
    scopes, lastUsed, order := before, lastUsedBefore, whole;
    while |scopes| > limit
      invariant Cache(order, scopes, lastUsed, tick) in Refinements() && order in Prefixes(whole, preserve)
      invariant |order| == |scopes| && (|order| < |whole| ==> |order| >= limit)
      invariant Within(scopes, before)
      decreases |scopes|
    {
      ShorterPrefix(whole, order, preserve);
      scopes, lastUsed, order := DropOldest(scopes, lastUsed, order, tick, preserve);
    }
    PrefixIsCut(whole, order, preserve, limit);
  }

  lemma {:induction false} PrefixIsCut(whole: seq<string>, order: seq<string>, first: string, limit: nat)
    requires order in Prefixes(whole, first) && |order| <= limit && (|order| < |whole| ==> |order| >= limit)
    ensures order == Cut(whole, limit)
  {
  }

  method DropOldest(
      before: map<string, nat>, lastUsedBefore: map<string, int>, ghost whole: seq<string>, ghost tick: int,
      preserve: string)
    returns (scopes: map<string, nat>, lastUsed: map<string, int>, ghost order: seq<string>)
    requires Cache(whole, before, lastUsedBefore, tick) in Refinements() && |whole| > 1 && whole[0] == preserve
    ensures Cache(order, scopes, lastUsed, tick) in Refinements() && order == whole[..|whole| - 1]
    ensures |order| == |scopes| == |before| - 1 && Within(scopes, before)
  {
    var oldest := OldestScope(before, lastUsedBefore, whole, tick, preserve);
    Evicted(whole, before, lastUsedBefore, tick, oldest);
    scopes, lastUsed, order := before - {oldest}, lastUsedBefore - {oldest}, whole[..|whole| - 1];
  }

  lemma {:induction false} FirstIsCached(
      order: seq<string>, scopes: map<string, nat>, lastUsed: map<string, int>, tick: int)
    requires Cache(order, scopes, lastUsed, tick) in Refinements() && order != []
    ensures order[0] in scopes
  {
    assert order[0] in Elements(order);
  }

  /** The non-empty prefixes of a list that begins with the preserved path. */
  ghost function Prefixes(whole: seq<string>, first: string): iset<seq<string>> {
    iset order: seq<string> | 0 < |order| <= |whole| && order == whole[..|order|] && order[0] == first
  }

  lemma {:induction false} ShorterPrefix(whole: seq<string>, order: seq<string>, first: string)
    requires order in Prefixes(whole, first)
    ensures order[0] == first
    ensures |order| > 1 ==> order[..|order| - 1] in Prefixes(whole, first)
  {
  }

  /** Every cached store is one that was there. */
  ghost predicate Within(scopes: map<string, nat>, before: map<string, nat>) {
    forall path :: path in scopes ==> path in before && scopes[path] == before[path]
  }

  lemma {:induction false} Evicted(
      order: seq<string>, scopes: map<string, nat>, lastUsed: map<string, int>, tick: int, last: string)
    requires Refines(order, scopes, lastUsed, tick) && order != [] && last == order[|order| - 1]
    ensures Refines(order[..|order| - 1], scopes - {last}, lastUsed - {last}, tick)
    ensures |scopes - {last}| == |scopes| - 1
  {
    var init := order[..|order| - 1];
    DescendingLast(order, lastUsed, tick, last);
    DescendingDistinct(order, lastUsed, tick);
    DescendingDistinct(init, lastUsed, tick);
    DropLast(order);
    assert forall p :: p in init ==> p in Elements(init);
    DescendingFrame(init, lastUsed, tick, lastUsed - {last}, tick);
    DistinctSize(init);
    assert (scopes - {last}).Keys == Elements(init);
  }

  lemma {:induction false} Touched(
      order: seq<string>, scopes: map<string, nat>, lastUsed: map<string, int>, tick: int, path: string, store: nat)
    requires Refines(order, scopes, lastUsed, tick)
    ensures Refines([path] + Without(order, path), scopes[path := store], lastUsed[path := tick + 1], tick + 1)
  {
    var rest, moved := Without(order, path), [path] + Without(order, path);
    WithoutExact(order, path);
    assert forall p :: p in rest ==> p in Elements(rest);
    DescendingWithout(order, lastUsed, tick, path);
    DescendingFrame(rest, lastUsed, tick, lastUsed[path := tick + 1], tick);
    assert moved[1..] == rest;
    DescendingDistinct(moved, lastUsed[path := tick + 1], tick + 1);
    assert forall p :: p in moved <==> p == path || p in Elements(rest);
    DistinctSize(moved);
    assert scopes[path := store].Keys == Elements(moved);
  }

  // ------------------------------------------------------------------ what the list guarantees

  function Requests(order: seq<string>, paths: seq<string>, limit: nat): seq<string> {
    if paths == [] then order else Request(Requests(order, paths[..|paths| - 1], limit), paths[|paths| - 1], limit)
  }

  /** The distinct paths of a run of requests, the latest first. */
  function Recent(paths: seq<string>): seq<string> {
    if paths == [] then [] else [paths[|paths| - 1]] + Without(Recent(paths[..|paths| - 1]), paths[|paths| - 1])
  }

  lemma {:induction false} WithoutConcat(a: seq<string>, b: seq<string>, path: string)
    ensures Without(a + b, path) == Without(a, path) + Without(b, path)
  {
    if a == [] {
      assert a + b == b;
    } else {
      WithoutConcat(a[1..], b, path);
      assert (a + b)[1..] == a[1..] + b;
      if a[0] != path {
        assert [a[0]] + (Without(a[1..], path) + Without(b, path)) == [a[0]] + Without(a[1..], path) + Without(b, path);
      }
    }
  }

  lemma {:induction false} WithoutDistinct(order: seq<string>, path: string)
    requires Distinct(order)
    ensures Distinct(Without(order, path))
  {
    if order != [] {
      WithoutDistinct(order[1..], path);
      WithoutExact(order[1..], path);
      var rest := Without(order[1..], path);
      assert forall p :: p in rest ==> p in Elements(rest) && p in Elements(order[1..]);
      assert order[0] != path ==> Without(order, path)[1..] == rest;
    }
  }

  lemma {:induction false} RecentDistinct(paths: seq<string>)
    ensures Distinct(Recent(paths))
  {
    if paths != [] {
      var init, last := paths[..|paths| - 1], paths[|paths| - 1];
      RecentDistinct(init);
      WithoutDistinct(Recent(init), last);
      WithoutExact(Recent(init), last);
      assert last !in Elements(Without(Recent(init), last));
      assert Recent(paths)[1..] == Without(Recent(init), last);
    }
  }

  lemma {:induction false} PrefixDistinct(order: seq<string>, k: nat)
    requires Distinct(order) && k <= |order|
    ensures Distinct(order[..k])
  {
    if k > 0 {
      PrefixDistinct(order[1..], k - 1);
      assert order[..k][1..] == order[1..][..k - 1];
    }
  }

  /** Cutting to the limit before a request makes no difference to the first limit paths after it. */
  lemma {:induction false} CutThenRequest(order: seq<string>, path: string, limit: nat)
    requires Distinct(order) && limit >= 1
    ensures Request(Cut(order, limit), path, limit) == Request(order, path, limit)
  {
    if |order| > limit {
      var front, back := order[..limit], order[limit..];
      assert order == front + back;
      WithoutConcat(front, back, path);
      PrefixDistinct(order, limit);
      WithoutExact(front, path);
      var kept := Without(front, path);
      assert [path] + (kept + Without(back, path)) == ([path] + kept) + Without(back, path);
      assert ([path] + kept + Without(back, path))[..limit] == ([path] + kept)[..limit];
    }
  }

  /** After any run of requests the cache holds exactly the latest distinct paths, as many as the limit allows. */
  lemma {:induction false} HoldsMostRecent(paths: seq<string>, limit: nat)
    requires limit >= 1
    ensures Requests([], paths, limit) == Cut(Recent(paths), limit)
  {
    if paths != [] {
      var init, last := paths[..|paths| - 1], paths[|paths| - 1];
      HoldsMostRecent(init, limit);
      RecentDistinct(init);
      CutThenRequest(Recent(init), last, limit);
    }
  }

  /** The path just requested comes first and is never dropped. */
  lemma {:induction false} RequestedIsKept(order: seq<string>, path: string, limit: nat)
    requires limit >= 1
    ensures var order' := Request(order, path, limit);
            0 < |order'| <= limit && order'[0] == path
  {
    assert ([path] + Without(order, path))[0] == path;
  }
}
