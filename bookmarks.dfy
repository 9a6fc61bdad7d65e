/**
 * The bookmark store (app/src/lib/state/bookmarkStore.ts): an object from
 * item hash to news item, changed by a reducer that always builds a new
 * object. The object is kept as its own properties in enumeration order,
 * the order `Object.values` lists the bookmarks in.
 */
module Bookmarks {
  import opened Wrappers
  import opened NewsItems

  /** One own property of the store: an item hash and the bookmarked item. */
  datatype Entry = Entry(hash: string, item: NewsItem)

  /** The hashes of a list of properties. */
  function Hashes(s: seq<Entry>): set<string>
  {
    if s == [] then {} else {s[0].hash} + Hashes(s[1..])
  }

  /** No hash appears twice, as in any JS object. */
  predicate Distinct(s: seq<Entry>)
  {
    s == [] || (s[0].hash !in Hashes(s[1..]) && Distinct(s[1..]))
  }

  /** A JS object's own properties, in enumeration order. */
  type Props = s: seq<Entry> | Distinct(s)

  type BookmarkState = Props

  /** `object[hash]`: the item stored under `hash`, if any. */
  function Find(s: seq<Entry>, hash: string): (r: Option<NewsItem>)
    ensures r.Some? <==> hash in Hashes(s)
  {
    if s == [] then None else if s[0].hash == hash then Some(s[0].item) else Find(s[1..], hash)
  }

  /** `object[e.hash] = e.item`: an existing property keeps its place, a new one goes last. */
  function Assign(s: seq<Entry>, e: Entry): (r: seq<Entry>)
    ensures Hashes(r) == Hashes(s) + {e.hash}
    ensures Find(r, e.hash) == Some(e.item)
    ensures forall h :: h != e.hash ==> Find(r, h) == Find(s, h)
    ensures e.hash !in Hashes(s) ==> r == s + [e]
    ensures Distinct(s) ==> Distinct(r)
  {
    if s == [] then [e]
    else if s[0].hash == e.hash then [e] + s[1..]
    else
      var rest := Assign(s[1..], e);
      assert ([s[0]] + rest)[1..] == rest;
      [s[0]] + rest
  }

  /** The spread `{...target, ...src}` once `target`'s properties are in place: `src`'s are assigned in order. */
  function Spread(target: seq<Entry>, src: seq<Entry>): (r: seq<Entry>)
    ensures Hashes(r) == Hashes(target) + Hashes(src)
    ensures Distinct(target) ==> Distinct(r)
    ensures forall h :: h !in Hashes(src) ==> Find(r, h) == Find(target, h)
    ensures Distinct(src) ==> forall h :: h in Hashes(src) ==> Find(r, h) == Find(src, h)
    decreases src
  {
    if src == [] then target else Spread(Assign(target, src[0]), src[1..])
  }

  /** `delete copy[hash]`: every other property keeps its place. */
  function Remove(s: seq<Entry>, hash: string): (r: seq<Entry>)
    ensures Hashes(r) == Hashes(s) - {hash}
    ensures forall h :: h != hash ==> Find(r, h) == Find(s, h)
    ensures Distinct(s) ==> Distinct(r)
    ensures hash !in Hashes(s) ==> r == s
  {
    if s == [] then []
    else if s[0].hash == hash then Remove(s[1..], hash)
    else
      var rest := Remove(s[1..], hash);
      assert ([s[0]] + rest)[1..] == rest;
      [s[0]] + rest
  }

  /** The store's actions; every other action of the app is `Unknown`. */
  datatype BookmarkAction =
    | AddBookmark(payload: Props)
    | RemoveBookmark(hash: string)
    | Unknown

  /** `addBookmark(item)`: a payload with the one property from the item's hash to a copy of the item. */
  function AddBookmarkAction(item: NewsItem): (a: BookmarkAction)
    ensures a.AddBookmark? && Hashes(a.payload) == {item.itemHash} && Find(a.payload, item.itemHash) == Some(item)
  {
    var one := [Entry(item.itemHash, item)];
    assert one[1..] == [] && Hashes(one[1..]) == {} && Distinct(one[1..]);
    AddBookmark(one)
  }

  /**
   * `bookmarkReducer`: ADD spreads the payload first and the state after it, so
   * an entry already in the state wins; REMOVE deletes from a copy.
   */
  function BookmarkReducer(state: BookmarkState, action: BookmarkAction): (r: BookmarkState)
    ensures action.AddBookmark? ==> Hashes(r) == Hashes(state) + Hashes(action.payload)
    ensures action.AddBookmark? ==> forall h :: h in Hashes(state) ==> Find(r, h) == Find(state, h)
    ensures action.AddBookmark? ==>
      forall h :: h in Hashes(action.payload) && h !in Hashes(state) ==> Find(r, h) == Find(action.payload, h)
    ensures action.RemoveBookmark? ==> Hashes(r) == Hashes(state) - {action.hash}
    ensures action.RemoveBookmark? ==> forall h :: h != action.hash ==> Find(r, h) == Find(state, h)
    ensures action.Unknown? ==> r == state
  {
    match action
    case AddBookmark(payload) => Spread(Spread([], payload), state)
    case RemoveBookmark(hash) => Remove(state, hash)
    case Unknown => state
  }

  // ---------------------------------------------------------------------------
  // Enumeration order

  lemma {:induction false} HashesConcat(a: seq<Entry>, b: seq<Entry>)
    ensures Hashes(a + b) == Hashes(a) + Hashes(b)
  {
    if a == [] {
      assert a + b == b;
    } else {
      assert (a + b)[1..] == a[1..] + b;
      HashesConcat(a[1..], b);
    }
  }

  /** Spreading properties none of which the target has appends them in their order. */
  lemma {:induction false} SpreadDisjoint(target: seq<Entry>, src: seq<Entry>)
    requires Distinct(src) && Hashes(target) * Hashes(src) == {}
    ensures Spread(target, src) == target + src
    decreases src
  {
    if src != [] {
      var t := target + [src[0]];
      assert Hashes(src) == {src[0].hash} + Hashes(src[1..]);
      assert Assign(target, src[0]) == t by {
        assert src[0].hash !in Hashes(target);
      }
      assert Hashes(t) * Hashes(src[1..]) == {} by {
        HashesConcat(target, [src[0]]);
        assert Hashes([src[0]]) == {src[0].hash};
      }
      assert Spread(target, src) == Spread(t, src[1..]);
      SpreadDisjoint(t, src[1..]);
      assert t + src[1..] == target + src;
    }
  }

  /**
   * Spreading `src` over `[e] + rest`, where `src` also has `e`'s hash and
   * nothing of `rest`: the property stays first and takes `src`'s value, and
   * the rest of `src` follows `rest` in its own order.
   */
  lemma {:induction false} SpreadOverFirst(e: Entry, rest: seq<Entry>, src: seq<Entry>)
    requires Distinct(src) && e.hash in Hashes(src)
    requires e.hash !in Hashes(rest) && Hashes(rest) * Hashes(src) == {}
    ensures Spread([e] + rest, src) == [Entry(e.hash, Find(src, e.hash).value)] + rest + Remove(src, e.hash)
    decreases src
  {
    var s0 := src[0];
    assert Hashes(src) == {s0.hash} + Hashes(src[1..]);
    if s0.hash == e.hash {
      SpreadOverHere(e, rest, src);
    } else {
      var rest' := rest + [s0];
      assert Assign([e] + rest, s0) == [e] + rest' by {
        assert ([e] + rest)[1..] == rest;
        assert s0.hash !in Hashes(rest);
      }
      assert e.hash !in Hashes(rest') && Hashes(rest') * Hashes(src[1..]) == {} by {
        HashesConcat(rest, [s0]);
        assert Hashes([s0]) == {s0.hash};
      }
      assert Spread([e] + rest, src) == Spread([e] + rest', src[1..]);
      SpreadOverFirst(e, rest', src[1..]);
      assert Find(src[1..], e.hash) == Find(src, e.hash);
      assert Remove(src, e.hash) == [s0] + Remove(src[1..], e.hash);
      Regroup([Entry(e.hash, Find(src, e.hash).value)], rest, s0, Remove(src[1..], e.hash));
    }
  }

  lemma Regroup(a: seq<Entry>, b: seq<Entry>, x: Entry, c: seq<Entry>)
    ensures a + (b + [x]) + c == a + b + ([x] + c)
  {
  }

  /** The case of `SpreadOverFirst` where `src` starts with `e`'s hash. */
  lemma SpreadOverHere(e: Entry, rest: seq<Entry>, src: seq<Entry>)
    requires Distinct(src) && src != [] && src[0].hash == e.hash
    requires e.hash !in Hashes(rest) && Hashes(rest) * Hashes(src) == {}
    ensures Spread([e] + rest, src) == [Entry(e.hash, Find(src, e.hash).value)] + rest + Remove(src, e.hash)
  {
    var s0 := src[0];
    assert Hashes(src) == {s0.hash} + Hashes(src[1..]);
    assert Assign([e] + rest, s0) == [s0] + rest by {
      assert ([e] + rest)[1..] == rest;
    }
    assert Hashes([s0] + rest) * Hashes(src[1..]) == {} by {
      HashesConcat([s0], rest);
      assert Hashes([s0]) == {s0.hash};
    }
    SpreadDisjoint([s0] + rest, src[1..]);
    assert Remove(src, e.hash) == src[1..];
  }

  /**
   * ADD of one item: a new hash is listed first, before every earlier
   * bookmark; a hash already bookmarked moves to the front and keeps the
   * stored item; the others keep their order.
   */
  lemma AddBookmarkOrder(state: BookmarkState, item: NewsItem)
    ensures var h := item.itemHash;
      BookmarkReducer(state, AddBookmarkAction(item)) ==
        if h in Hashes(state) then [Entry(h, Find(state, h).value)] + Remove(state, h)
        else [Entry(h, item)] + state
  {
    var e := Entry(item.itemHash, item);
    AddOneSpreads(state, item);
    if e.hash in Hashes(state) {
      assert Spread([e], state) == [Entry(e.hash, Find(state, e.hash).value)] + Remove(state, e.hash) by {
        var none: seq<Entry> := [];
        var f := Entry(e.hash, Find(state, e.hash).value);
        assert Hashes(none) == {};
        SpreadOverFirst(e, none, state);
        assert [e] + none == [e] && [f] + none == [f];
      }
    } else {
      assert Spread([e], state) == [e] + state by {
        assert Hashes([e]) == {e.hash};
        SpreadDisjoint([e], state);
      }
    }
  }

  /** The ADD action for one item spreads that single entry over the state. */
  lemma AddOneSpreads(state: BookmarkState, item: NewsItem)
    ensures BookmarkReducer(state, AddBookmarkAction(item)) == Spread([Entry(item.itemHash, item)], state)
  {
    var e := Entry(item.itemHash, item);
    assert Spread([], [e]) == [e];
  }

  /** Removing a bookmark keeps every other one in its place. */
  lemma {:induction false} RemoveKeepsOrder(before: seq<Entry>, x: Entry, after: seq<Entry>)
    requires Distinct(before + [x] + after)
    ensures BookmarkReducer(before + [x] + after, RemoveBookmark(x.hash)) == before + after
  {
    var s := before + [x] + after;
    if before == [] {
      assert s == [x] + after && s[1..] == after;
    } else {
      var tail := before[1..] + [x] + after;
      assert s[1..] == tail;
      HashesConcat(before[1..] + [x], after);
      HashesConcat(before[1..], [x]);
      assert Hashes([x]) == {x.hash};
      assert x.hash in Hashes(tail) && before[0].hash != x.hash;
      RemoveKeepsOrder(before[1..], x, after);
      assert before + after == [before[0]] + (before[1..] + after);
    }
  }

  // ---------------------------------------------------------------------------
  // Properties of the reducer

  /** After adding an item its hash is bookmarked, listed first; an existing bookmark keeps its item. */
  lemma AddBookmarkContains(state: BookmarkState, item: NewsItem)
    ensures var r := BookmarkReducer(state, AddBookmarkAction(item));
      && item.itemHash in Hashes(r) && |r| > 0 && r[0].hash == item.itemHash
      && Find(r, item.itemHash) == (if item.itemHash in Hashes(state) then Find(state, item.itemHash) else Some(item))
  {
    AddBookmarkOrder(state, item);
  }

  /** Adding the same item twice is adding it once. */
  lemma AddBookmarkIdempotent(state: BookmarkState, item: NewsItem)
    ensures var once := BookmarkReducer(state, AddBookmarkAction(item));
      BookmarkReducer(once, AddBookmarkAction(item)) == once
  {
    var h := item.itemHash;
    var once := BookmarkReducer(state, AddBookmarkAction(item));
    AddBookmarkOrder(state, item);
    AddBookmarkOrder(once, item);
    var rest := if h in Hashes(state) then Remove(state, h) else state;
    assert once == [once[0]] + rest && once[1..] == rest;
    assert h !in Hashes(rest);
    assert Find(once, h) == Some(once[0].item);
  }

  /** Removing a hash that is not bookmarked gives an equal store. */
  lemma RemoveAbsentBookmark(state: BookmarkState, hash: string)
    requires hash !in Hashes(state)
    ensures BookmarkReducer(state, RemoveBookmark(hash)) == state
  {
  }

  /** Adding a new item and removing it again restores the store, order included. */
  lemma AddThenRemoveBookmark(state: BookmarkState, item: NewsItem)
    requires item.itemHash !in Hashes(state)
    ensures BookmarkReducer(BookmarkReducer(state, AddBookmarkAction(item)), RemoveBookmark(item.itemHash)) == state
  {
    AddBookmarkOrder(state, item);
    var added := [Entry(item.itemHash, item)] + state;
    assert added[1..] == state;
  }
}
