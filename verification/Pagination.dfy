/** The cursor iterator over a sorted key space, and paging with it. */
module Pagination {
  import opened Operations

  newtype byte = x: int | 0 <= x < 256
  type Key = seq<byte>

  /* ---- the order of keys ---- */

  predicate Less(a: Key, b: Key) {
    b != [] && (a == [] || a[0] < b[0] || (a[0] == b[0] && Less(a[1..], b[1..])))
  }

  lemma {:induction false} LessIsTransitive(a: Key, b: Key, c: Key)
    requires Less(a, b) && Less(b, c)
    ensures Less(a, c)
    decreases |a|
  {
    if a != [] && a[0] == b[0] && b[0] == c[0] {
      LessIsTransitive(a[1..], b[1..], c[1..]);
    }
  }

  lemma {:induction false} LessIsTotal(a: Key, b: Key)
    ensures !(Less(a, b) && Less(b, a)) && (Less(a, b) || Less(b, a) <==> a != b)
    decreases |a|
  {
    if a != [] && b != [] && a[0] == b[0] {
      LessIsTotal(a[1..], b[1..]);
      assert a == [a[0]] + a[1..] && b == [b[0]] + b[1..];
    }
  }

  ghost predicate Sorted(keys: seq<Key>) {
    forall i, j :: 0 <= i < j < |keys| ==> Less(keys[i], keys[j])
  }

  /** The keys under a prefix, in order. */
  function Under(all: seq<Key>, prefix: Key): seq<Key> {
    if all == [] then []
    else (if prefix <= all[0] then [all[0]] else []) + Under(all[1..], prefix)
  }

  lemma {:induction false} UnderIs(all: seq<Key>, prefix: Key)
    requires Sorted(all)
    ensures Sorted(Under(all, prefix))
    ensures forall k :: k in Under(all, prefix) <==> k in all && prefix <= k
    decreases |all|
  {
    if all != [] {
      var rest := Under(all[1..], prefix);
      UnderIs(all[1..], prefix);
      assert all == [all[0]] + all[1..];
      forall k | k in rest ensures Less(all[0], k) {
        var i :| 0 <= i < |all[1..]| && all[1..][i] == k;
        assert all[i + 1] == k;
      }
    }
  }

  /* ---- the iterator of the store ---- */

  /** Before the first key, at a key, or after the last one. */
  datatype Position = Start | At(i: nat) | End

  /** The first index from `i` on whose key is not below `c`. */
  function BoundFrom(keys: seq<Key>, c: Key, i: nat): (b: nat)
    requires i <= |keys|
    ensures i <= b <= |keys|
    ensures forall j :: i <= j < b ==> Less(keys[j], c)
    ensures b < |keys| ==> !Less(keys[b], c)
    decreases |keys| - i
  {
    if i == |keys| || !Less(keys[i], c) then i else BoundFrom(keys, c, i + 1)
  }

  /** The first index whose key is not below `c`. */
  function LowerBound(keys: seq<Key>, c: Key): nat { BoundFrom(keys, c, 0) }

  function AtOrEnd(keys: seq<Key>, i: nat): Position { if i < |keys| then At(i) else End }

  function First(keys: seq<Key>): Position { AtOrEnd(keys, 0) }

  function Last(keys: seq<Key>): Position { if keys == [] then Start else At(|keys| - 1) }

  function Seek(keys: seq<Key>, c: Key): Position { AtOrEnd(keys, LowerBound(keys, c)) }

  function Next(keys: seq<Key>, p: Position): Position {
    match p
    case Start => First(keys)
    case At(i) => AtOrEnd(keys, i + 1)
    case End => End
  }

  function Prev(keys: seq<Key>, p: Position): Position {
    match p
    case Start => Start
    case At(i) => if i == 0 then Start else At(i - 1)
    case End => Last(keys)
  }

  /* ---- what a page should hold ---- */

  datatype Options = Options(reverse: bool, cursor: Option<Key>, limit: nat)

  function Reversed(keys: seq<Key>): seq<Key> {
    seq(|keys|, i requires 0 <= i < |keys| => keys[|keys| - 1 - i])
  }

  /** All keys the iterator has in front of it. */
  function Ahead(keys: seq<Key>, o: Options): seq<Key> {
    match o.cursor
    case None => if o.reverse then Reversed(keys) else keys
    case Some(c) =>
      var i := LowerBound(keys, c);
      if o.reverse then Reversed(keys[..i]) else if i < |keys| then keys[i + 1..] else []
  }

  function Take(keys: seq<Key>, limit: nat): seq<Key> {
    if limit == 0 || |keys| <= limit then keys else keys[..limit]
  }

  function Page(keys: seq<Key>, o: Options): seq<Key> { Take(Ahead(keys, o), o.limit) }

  /** The first index ahead of a forward iterator. */
  function StartIndex(keys: seq<Key>, o: Options): (i: nat)
    ensures i <= |keys|
  {
    if o.cursor.None? then 0
    else if LowerBound(keys, o.cursor.value) < |keys| then LowerBound(keys, o.cursor.value) + 1 else |keys|
  }

  /** The number of keys ahead of a reverse iterator. */
  function StopIndex(keys: seq<Key>, o: Options): (i: nat)
    ensures i <= |keys|
  {
    if o.cursor.None? then |keys| else LowerBound(keys, o.cursor.value)
  }

  lemma AheadIsSlice(keys: seq<Key>, o: Options)
    ensures Ahead(keys, o) == if o.reverse then Reversed(keys[..StopIndex(keys, o)]) else keys[StartIndex(keys, o)..]
  {
    assert keys[..|keys|] == keys && keys[0..] == keys;
  }

  /* ---- the iterator closure ---- */

  /** How many keys lie ahead. */
  function Count(keys: seq<Key>, o: Options): nat {
    if o.reverse then StopIndex(keys, o) else |keys| - StartIndex(keys, o)
  }

  /** The index of the key that is `j` keys ahead of the start. */
  function IndexAhead(keys: seq<Key>, o: Options, j: nat): (i: nat)
    requires j < Count(keys, o)
    ensures i < |keys|
  {
    if o.reverse then StopIndex(keys, o) - 1 - j else StartIndex(keys, o) + j
  }

  lemma AheadCount(keys: seq<Key>, o: Options)
    ensures |Ahead(keys, o)| == Count(keys, o)
  {
    AheadIsSlice(keys, o);
  }

  lemma AheadAt(keys: seq<Key>, o: Options, j: nat)
    requires j < Count(keys, o)
    ensures |Ahead(keys, o)| == Count(keys, o) && Ahead(keys, o)[j] == keys[IndexAhead(keys, o, j)]
  {
    AheadIsSlice(keys, o);
    if o.reverse {
      ReversedAt(keys, StopIndex(keys, o), j);
    } else {
      assert keys[StartIndex(keys, o)..][j] == keys[StartIndex(keys, o) + j];
    }
  }

  lemma ReversedAt(keys: seq<Key>, stop: nat, j: nat)
    requires j < stop <= |keys|
    ensures |Reversed(keys[..stop])| == stop && Reversed(keys[..stop])[j] == keys[stop - 1 - j]
  {
  }

  /** Where the first call goes. */
  function FirstPosition(keys: seq<Key>, o: Options): Position {
    match o.cursor
    case None => if o.reverse then Last(keys) else First(keys)
    case Some(c) => StepFrom(keys, o, Seek(keys, c))
  }

  /** Where a later call goes. */
  function StepFrom(keys: seq<Key>, o: Options, p: Position): Position {
    if o.reverse then Prev(keys, p) else Next(keys, p)
  }

  /** The first call lands on the first key ahead, if there is one, and on no key otherwise. */
  lemma FirstLands(keys: seq<Key>, o: Options)
    ensures if Count(keys, o) > 0 then FirstPosition(keys, o) == At(IndexAhead(keys, o, 0))
            else !FirstPosition(keys, o).At?
  {
  }

  /** A later call lands on the next key ahead, if there is one, and on no key otherwise. */
  lemma StepLands(keys: seq<Key>, o: Options, j: nat)
    requires j < Count(keys, o)
    ensures var p := StepFrom(keys, o, At(IndexAhead(keys, o, j)));
            if j + 1 < Count(keys, o) then p == At(IndexAhead(keys, o, j + 1)) else !p.At?
  {
  }

  class Iterator {
    const keys: seq<Key>
    const options: Options
    var position: Position
    var n: nat

    constructor (keys: seq<Key>, options: Options)
      ensures this.keys == keys && this.options == options && position == Start && n == 0
    {
      this.keys, this.options := keys, options;
      position, n := Start, 0;
    }

    /** `n` keys have been passed. */
    predicate Valid()
      reads this
    {
      && n <= Count(keys, options)
      && (n > 0 ==> position == At(IndexAhead(keys, options, n - 1)))
    }

    method MoveFirst() returns (found: bool)
      modifies `position
      ensures position == FirstPosition(keys, options) && (found <==> position.At?)
    {
      match options.cursor {
        case None => position := if options.reverse then Last(keys) else First(keys);
        case Some(c) =>
          position := Seek(keys, c);
          position := if options.reverse then Prev(keys, position) else Next(keys, position);
      }
      found := position.At?;
    }

    /** One call: the next key, and whether it belongs to the page. */
    method MoveNext() returns (key: Key, found: bool)
      requires Valid() && (options.limit == 0 || n <= options.limit)
      modifies this
      ensures var ahead := Ahead(keys, options);
              && (old(n) < |ahead| ==> Valid() && n == old(n) + 1 && key == ahead[old(n)])
              && (found <==> old(n) < |ahead| && (options.limit == 0 || old(n) < options.limit))
    {
      AheadCount(keys, options);
      if n == 0 {
        FirstLands(keys, options);
        found := MoveFirst();
      } else {
        StepLands(keys, options, n - 1);
        position := if options.reverse then Prev(keys, position) else Next(keys, position);
        found := position.At?;
      }
      if found {
        AheadAt(keys, options, n);
        n := n + 1;
      }
      key := if position.At? && position.i < |keys| then keys[position.i] else [];
      if options.limit != 0 && n > options.limit {
        found := false;
      }
    }

    /** Calls until the end of the page. */
    method Collect() returns (page: seq<Key>)
      requires position == Start && n == 0
      modifies this
      ensures page == Page(keys, options)
    {
      ghost var ahead := Ahead(keys, options);
      page := [];
      var found := true;
      while found
        invariant |page| <= |ahead| && page == ahead[..|page|]
        invariant options.limit != 0 ==> |page| <= options.limit
        invariant found ==> Valid() && n == |page|
        invariant !found ==> page == Take(ahead, options.limit)
        decreases |ahead| - |page|, if found then 1 else 0
      {
        var key;
        key, found := MoveNext();
        if found {
          page := page + [key];
        }
      }
    }
  }

  /* ---- following cursors ---- */

  lemma BoundOfMember(keys: seq<Key>, i: nat)
    requires Sorted(keys) && i < |keys|
    ensures LowerBound(keys, keys[i]) == i
  {
    LessIsTotal(keys[i], keys[i]);
  }

  lemma RestOfReversed(keys: seq<Key>, j: nat)
    requires j < |keys|
    ensures Reversed(keys)[j + 1..] == Reversed(keys[..|keys| - 1 - j])
  {
  }

  lemma AheadForward(keys: seq<Key>, limit: nat, start: nat, j: nat)
    requires Sorted(keys) && start + j < |keys|
    ensures Ahead(keys, Options(false, Some(keys[start + j]), limit)) == keys[start..][j + 1..]
  {
    BoundOfMember(keys, start + j);
    assert keys[start + j + 1..] == keys[start..][j + 1..];
  }

  lemma AheadBackward(keys: seq<Key>, limit: nat, stop: nat, j: nat)
    requires Sorted(keys) && j < stop <= |keys|
    ensures Ahead(keys, Options(true, Some(keys[stop - 1 - j]), limit)) == Reversed(keys[..stop])[j + 1..]
  {
    BoundOfMember(keys, stop - 1 - j);
    RestOfReversed(keys[..stop], j);
    assert keys[..stop][..stop - 1 - j] == keys[..stop - 1 - j];
  }

  /** From the last key of a page on, exactly the rest is ahead. */
  lemma AheadOfMember(keys: seq<Key>, o: Options, j: nat)
    requires Sorted(keys) && j < |Ahead(keys, o)|
    ensures Ahead(keys, o.(cursor := Some(Ahead(keys, o)[j]))) == Ahead(keys, o)[j + 1..]
  {
    AheadIsSlice(keys, o);
    var ahead := Ahead(keys, o);
    if o.reverse {
      var stop := StopIndex(keys, o);
      AheadBackward(keys, o.limit, stop, j);
      assert ahead[j] == keys[stop - 1 - j];
      assert o.(cursor := Some(ahead[j])) == Options(true, Some(keys[stop - 1 - j]), o.limit);
    } else {
      var start := StartIndex(keys, o);
      AheadForward(keys, o.limit, start, j);
      assert ahead[j] == keys[start + j];
      assert o.(cursor := Some(ahead[j])) == Options(false, Some(keys[start + j]), o.limit);
    }
  }

  /** The pages a client gets by passing on the last key of each page, until one is empty. */
  function Pages(keys: seq<Key>, o: Options): seq<seq<Key>>
    requires Sorted(keys) && o.limit >= 1
    decreases |Ahead(keys, o)|
  {
    var page := Page(keys, o);
    if page == [] then []
    else
      AheadOfMember(keys, o, |page| - 1);
      [page] + Pages(keys, o.(cursor := Some(page[|page| - 1])))
  }

  function Flatten(pages: seq<seq<Key>>): seq<Key> {
    if pages == [] then [] else pages[0] + Flatten(pages[1..])
  }

  /** A list cut into pieces of `limit`. */
  function Chunks(list: seq<Key>, limit: nat): seq<seq<Key>>
    requires limit >= 1
    decreases |list|
  {
    if list == [] then [] else if |list| <= limit then [list] else [list[..limit]] + Chunks(list[limit..], limit)
  }

  /** The pages are the pieces of what lies ahead. */
  lemma {:induction false} PagesAreChunks(keys: seq<Key>, o: Options)
    requires Sorted(keys) && o.limit >= 1
    ensures Pages(keys, o) == Chunks(Ahead(keys, o), o.limit)
    decreases |Ahead(keys, o)|
  {
    var page, ahead := Page(keys, o), Ahead(keys, o);
    if page != [] {
      var rest := o.(cursor := Some(page[|page| - 1]));
      AheadOfMember(keys, o, |page| - 1);
      assert Ahead(keys, rest) == ahead[|page|..];
      PagesAreChunks(keys, rest);
      assert Pages(keys, o) == [page] + Chunks(ahead[|page|..], o.limit);
      if |ahead| <= o.limit {
        assert ahead[|page|..] == [];
      }
    }
  }

  lemma {:induction false} ChunksFlatten(list: seq<Key>, limit: nat)
    requires limit >= 1
    ensures Flatten(Chunks(list, limit)) == list
    decreases |list|
  {
    if |list| > limit {
      ChunksFlatten(list[limit..], limit);
      FlattenMore(list[..limit], Chunks(list[limit..], limit));
      assert list == list[..limit] + list[limit..];
    } else if list != [] {
      FlattenMore(list, []);
      assert [list] + [] == [list];
    }
  }

  lemma FlattenMore(page: seq<Key>, pages: seq<seq<Key>>)
    ensures Flatten([page] + pages) == page + Flatten(pages)
  {
    assert ([page] + pages)[1..] == pages;
  }

  /** All pages but the last are full, and none is empty. */
  ghost predicate Full(pages: seq<seq<Key>>, limit: nat) {
    && (forall i :: 0 <= i < |pages| - 1 ==> |pages[i]| == limit)
    && (forall i :: 0 <= i < |pages| ==> 1 <= |pages[i]| <= limit)
  }

  lemma {:induction false} ChunksAreFull(list: seq<Key>, limit: nat)
    requires limit >= 1
    ensures Full(Chunks(list, limit), limit)
    decreases |list|
  {
    if |list| > limit {
      ChunksAreFull(list[limit..], limit);
    }
  }

  /**
   Paging through a prefix, in either direction and with any limit, yields every key exactly once in
   order, and every page but the last is full.
   */
  lemma PagingIsComplete(all: seq<Key>, prefix: Key, reverse: bool, limit: nat)
    requires Sorted(all) && limit >= 1
    ensures var keys := Under(all, prefix);
            && Sorted(keys)
            && var pages := Pages(keys, Options(reverse, None, limit));
            && Flatten(pages) == (if reverse then Reversed(keys) else keys)
            && Full(pages, limit)
  {
    UnderIs(all, prefix);
    var o := Options(reverse, None, limit);
    PagesAreChunks(Under(all, prefix), o);
    ChunksFlatten(Ahead(Under(all, prefix), o), limit);
    ChunksAreFull(Ahead(Under(all, prefix), o), limit);
  }

  /* ---- cursors that are not keys ---- */

  /** The keys that lie after a cursor in the direction of the iteration. */
  ghost predicate After(o: Options, c: Key, k: Key) { if o.reverse then Less(k, c) else Less(c, k) }

  /**
   Everything after the cursor is ahead, exactly when the cursor is a key, the iteration is reversed, or
   nothing lies after it: a forward iterator steps over the first key above a cursor that is not one.
   */
  lemma CursorIsExactIff(keys: seq<Key>, o: Options)
    requires Sorted(keys) && o.cursor.Some?
    ensures (forall k :: k in keys && After(o, o.cursor.value, k) ==> k in Ahead(keys, o))
            <==> o.reverse || o.cursor.value in keys || forall k :: k in keys ==> !Less(o.cursor.value, k)
  {
    var c := o.cursor.value;
    var b := LowerBound(keys, c);
    if o.reverse {
      forall k | k in keys && Less(k, c) ensures k in Ahead(keys, o) {
        BelowIsAhead(keys, o, k);
      }
    } else if b < |keys| {
      LessIsTotal(keys[b], c);
      SkippedKey(keys, c);
      forall k | k in keys && Less(c, k) && k != keys[b] ensures k in Ahead(keys, o) {
        AboveIsAhead(keys, c, k);
      }
    } else {
      forall k | k in keys ensures !Less(c, k) {
        LessIsTotal(k, c);
      }
    }
  }

  /** Keys 1 and 3, cursor 2: nothing is ahead, although 3 lies after the cursor. */
  lemma KeyAfterCursorIsSkipped()
    ensures var keys: seq<Key>, o := [[1], [3]], Options(false, Some([2]), 10);
            Sorted(keys) && Less([2], [3]) && Page(keys, o) == []
  {
    var keys: seq<Key> := [[1], [3]];
    assert BoundFrom(keys, [2], 1) == 1;
    assert LowerBound(keys, [2]) == 1;
  }

  lemma BelowIsAhead(keys: seq<Key>, o: Options, k: Key)
    requires Sorted(keys) && o.reverse && o.cursor.Some? && k in keys && Less(k, o.cursor.value)
    ensures k in Ahead(keys, o)
  {
    var b := LowerBound(keys, o.cursor.value);
    var i :| 0 <= i < |keys| && keys[i] == k;
    assert i < b by {
      if b < i {
        LessIsTransitive(keys[b], keys[i], o.cursor.value);
      }
    }
    assert Ahead(keys, o)[b - 1 - i] == k;
  }

  lemma AboveIsAhead(keys: seq<Key>, c: Key, k: Key)
    requires Sorted(keys) && k in keys && Less(c, k) && LowerBound(keys, c) < |keys| && k != keys[LowerBound(keys, c)]
    ensures k in keys[LowerBound(keys, c) + 1..]
  {
    var b := LowerBound(keys, c);
    var i :| 0 <= i < |keys| && keys[i] == k;
    LessIsTotal(k, c);
    NotBelow(keys, c, i);
    assert keys[b + 1..][i - b - 1] == k;
  }

  lemma NotBelow(keys: seq<Key>, c: Key, i: nat)
    requires i < |keys| && !Less(keys[i], c)
    ensures i >= LowerBound(keys, c)
  {
  }

  /** The key at the bound is never ahead, and it is above the cursor unless it is the cursor. */
  lemma SkippedKey(keys: seq<Key>, c: Key)
    requires Sorted(keys) && LowerBound(keys, c) < |keys|
    ensures var k := keys[LowerBound(keys, c)];
            k !in keys[LowerBound(keys, c) + 1..] && (k == c || Less(c, k)) && (c in keys ==> k == c)
  {
    var b := LowerBound(keys, c);
    LessIsTotal(keys[b], c);
    forall i | b < i < |keys| ensures keys[i] != keys[b] {
      LessIsTotal(keys[b], keys[i]);
    }
    if c in keys {
      var i :| 0 <= i < |keys| && keys[i] == c;
      BoundOfMember(keys, i);
    }
  }

  /** A limit of zero is no limit. */
  lemma ZeroMeansAll(keys: seq<Key>, reverse: bool)
    ensures Page(keys, Options(reverse, None, 0)) == if reverse then Reversed(keys) else keys
  {
  }
}
