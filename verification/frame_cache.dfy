/**
 * The player's texture cache: a JavaScript `Map` from frame index to entry,
 * which remembers insertion order. It is a sequence of entries with distinct
 * keys, oldest first. `Map.set` on a key already present replaces the value
 * where it stands; on a new key it appends.
 */
module FrameCache {
  import opened Wrappers

  /** A decoded texture: an identity (each decode makes a new object) and the URL it came from. */
  datatype Texture = Texture(id: nat, url: string)

  /** A cache entry holds the texture only (`{ tex }`): no bitmap or image handle is kept. */
  datatype Entry = Entry(key: int, tex: Texture)

  function Keys(c: seq<Entry>): (ks: seq<int>)
    ensures |ks| == |c| && forall i :: 0 <= i < |c| ==> ks[i] == c[i].key
  {
    if c == [] then [] else [c[0].key] + Keys(c[1..])
  }

  /** No key occurs twice. */
  predicate Distinct(c: seq<Entry>) {
    c == [] || (c[0].key !in Keys(c[1..]) && Distinct(c[1..]))
  }

  /** The textures of the entries, oldest first. */
  function Textures(c: seq<Entry>): (ts: seq<Texture>)
    ensures |ts| == |c| && forall i :: 0 <= i < |c| ==> ts[i] == c[i].tex
  {
    if c == [] then [] else [c[0].tex] + Textures(c[1..])
  }

  /** `Math.max(0, maxCache)`: the most entries the cache can hold between loads. */
  function Capacity(maxCache: int): nat {
    if maxCache > 0 then maxCache else 0
  }

  /** `c.get(k)`. */
  function Get(c: seq<Entry>, k: int): (r: Option<Texture>)
    ensures r.Some? <==> k in Keys(c)
    ensures r.Some? ==> Entry(k, r.value) in c
  {
    if c == [] then None
    else if c[0].key == k then Some(c[0].tex)
    else
      assert Keys(c) == [c[0].key] + Keys(c[1..]);
      Get(c[1..], k)
  }

  /** `c.delete(k)`: every other entry stays, in its order. */
  function Delete(c: seq<Entry>, k: int): (d: seq<Entry>)
    ensures |d| <= |c|
  {
    if c == [] then []
    else if c[0].key == k then Delete(c[1..], k)
    else [c[0]] + Delete(c[1..], k)
  }

  /** `c.set(k, { tex: t })`. */
  function Set(c: seq<Entry>, k: int, t: Texture): (s: seq<Entry>)
    ensures |s| == if k in Keys(c) then |c| else |c| + 1
  {
    if c == [] then [Entry(k, t)]
    else
      assert Keys(c) == [c[0].key] + Keys(c[1..]);
      if c[0].key == k then [Entry(k, t)] + c[1..]
      else [c[0]] + Set(c[1..], k, t)
  }

  /** A cache hit: `c.delete(k); c.set(k, hit)` moves the entry to the newest position. */
  function MoveToEnd(c: seq<Entry>, k: int): seq<Entry>
    requires k in Keys(c)
  {
    Delete(c, k) + [Entry(k, Get(c, k).value)]
  }

  /** The eviction after an insert: when over `maxCache`, the first (oldest) entry goes. */
  function Evict(c: seq<Entry>, maxCache: int): seq<Entry> {
    if |c| > maxCache && |c| > 0 then c[1..] else c
  }

  /** The texture that eviction disposes, if any. */
  function Evicted(c: seq<Entry>, maxCache: int): Option<Texture> {
    if |c| > maxCache && |c| > 0 then Some(c[0].tex) else None
  }

  /** Storing a freshly loaded texture: set, then evict at most one entry. */
  function Store(c: seq<Entry>, k: int, t: Texture, maxCache: int): seq<Entry> {
    Evict(Set(c, k, t), maxCache)
  }

  // ---- Delete ----

  /** Deleting removes exactly key `k` and keeps every other lookup. */
  lemma {:induction false} DeleteLookups(c: seq<Entry>, k: int)
    ensures k !in Keys(Delete(c, k))
    ensures forall j :: j != k ==> (j in Keys(Delete(c, k)) <==> j in Keys(c))
    ensures forall j :: j != k ==> Get(Delete(c, k), j) == Get(c, j)
    ensures k !in Keys(c) ==> Delete(c, k) == c
    decreases |c|
  {
    if c != [] {
      DeleteLookups(c[1..], k);
      var d := Delete(c, k);
      assert Keys(c) == [c[0].key] + Keys(c[1..]);
      if c[0].key != k {
        assert d == [c[0]] + Delete(c[1..], k);
        assert Keys(d) == [c[0].key] + Keys(Delete(c[1..], k));
        assert d[1..] == Delete(c[1..], k);
      }
    }
  }

  /** Deleting a present key from a cache with distinct keys removes one entry and keeps keys distinct. */
  lemma {:induction false} DeleteDistinct(c: seq<Entry>, k: int)
    requires Distinct(c)
    ensures Distinct(Delete(c, k))
    ensures k in Keys(c) ==> |Delete(c, k)| == |c| - 1
    decreases |c|
  {
    if c != [] {
      DeleteDistinct(c[1..], k);
      DeleteLookups(c[1..], k);
      assert Keys(c) == [c[0].key] + Keys(c[1..]);
      if c[0].key != k {
        var d := Delete(c, k);
        assert d == [c[0]] + Delete(c[1..], k);
        assert d[1..] == Delete(c[1..], k);
      } else {
        assert Delete(c[1..], k) == c[1..];
      }
    }
  }

  // ---- Set ----

  /** After `set`, `k` maps to the new texture and every other lookup is unchanged. */
  lemma {:induction false} SetLookups(c: seq<Entry>, k: int, t: Texture)
    ensures Get(Set(c, k, t), k) == Some(t)
    ensures forall j :: j != k ==> Get(Set(c, k, t), j) == Get(c, j)
    decreases |c|
  {
    if c != [] && c[0].key != k {
      SetLookups(c[1..], k, t);
      var s := Set(c, k, t);
      assert s[0] == c[0] && s[1..] == Set(c[1..], k, t);
    }
  }

  /** `set` on a present key replaces its value where it stands. */
  lemma {:induction false} SetKeysPresent(c: seq<Entry>, k: int, t: Texture)
    requires k in Keys(c)
    ensures Keys(Set(c, k, t)) == Keys(c)
    decreases |c|
  {
    var s := Set(c, k, t);
    assert Keys(c) == [c[0].key] + Keys(c[1..]);
    assert Keys(s) == [s[0].key] + Keys(s[1..]);
    if c[0].key != k {
      SetKeysPresent(c[1..], k, t);
      assert s[1..] == Set(c[1..], k, t);
    } else {
      assert s[1..] == c[1..];
    }
  }

  /** `set` on a new key appends it. */
  lemma {:induction false} SetAppendsNew(c: seq<Entry>, k: int, t: Texture)
    requires k !in Keys(c)
    ensures Set(c, k, t) == c + [Entry(k, t)]
    decreases |c|
  {
    if c != [] {
      assert Keys(c) == [c[0].key] + Keys(c[1..]);
      SetAppendsNew(c[1..], k, t);
      assert c + [Entry(k, t)] == [c[0]] + (c[1..] + [Entry(k, t)]);
    }
  }

  /** `set` keeps the key order for a present key and appends a new one. */
  lemma SetKeys(c: seq<Entry>, k: int, t: Texture)
    ensures k in Keys(c) ==> Keys(Set(c, k, t)) == Keys(c)
    ensures k !in Keys(c) ==> Set(c, k, t) == c + [Entry(k, t)]
    ensures forall j :: j in Keys(Set(c, k, t)) <==> j == k || j in Keys(c)
  {
    if k in Keys(c) {
      SetKeysPresent(c, k, t);
    } else {
      SetAppendsNew(c, k, t);
      AppendLookups(c, k, t);
    }
  }

  /** Every entry after `set(k, t)` is the new one or an entry of another key that was there before. */
  lemma {:induction false} SetEntries(c: seq<Entry>, k: int, t: Texture)
    requires Distinct(c)
    ensures forall e :: e in Set(c, k, t) ==> e == Entry(k, t) || (e in c && e.key != k)
    decreases |c|
  {
    if c != [] {
      if c[0].key == k {
        forall e | e in c[1..] ensures e.key != k {
          var i :| 0 <= i < |c[1..]| && c[1..][i] == e;
          assert Keys(c[1..])[i] == e.key;
        }
      } else {
        SetEntries(c[1..], k, t);
      }
    }
  }

  lemma {:induction false} SetDistinct(c: seq<Entry>, k: int, t: Texture)
    requires Distinct(c)
    ensures Distinct(Set(c, k, t))
    decreases |c|
  {
    if c != [] {
      var s := Set(c, k, t);
      assert Keys(c) == [c[0].key] + Keys(c[1..]);
      if c[0].key == k {
        assert s[1..] == c[1..];
      } else {
        SetDistinct(c[1..], k, t);
        SetKeys(c[1..], k, t);
        assert s[1..] == Set(c[1..], k, t);
      }
    }
  }

  // ---- Move to end on a hit ----

  lemma {:induction false} AppendLookups(d: seq<Entry>, k: int, t: Texture)
    requires k !in Keys(d)
    ensures forall j :: Get(d + [Entry(k, t)], j) == if j == k then Some(t) else Get(d, j)
    ensures Keys(d + [Entry(k, t)]) == Keys(d) + [k]
    ensures Distinct(d) ==> Distinct(d + [Entry(k, t)])
    decreases |d|
  {
    if d != [] {
      assert (d + [Entry(k, t)])[1..] == d[1..] + [Entry(k, t)];
      assert Keys(d) == [d[0].key] + Keys(d[1..]);
      AppendLookups(d[1..], k, t);
    }
  }

  /**
   * A hit keeps the size and every lookup, and makes `k` the newest key, with
   * the others before it in their old order.
   */
  lemma MoveToEndKeepsEntries(c: seq<Entry>, k: int)
    requires Distinct(c) && k in Keys(c)
    ensures var m := MoveToEnd(c, k);
            |m| == |c| && Distinct(m) &&
            (forall j :: Get(m, j) == Get(c, j)) &&
            Keys(m) == Keys(Delete(c, k)) + [k]
  {
    var d := Delete(c, k);
    DeleteLookups(c, k);
    DeleteDistinct(c, k);
    AppendLookups(d, k, Get(c, k).value);
  }

  // ---- Store ----

  /**
   * Storing keeps the cache within capacity: an insert evicts at most one
   * entry, the oldest, and the cache never exceeds `max(0, maxCache)`.
   */
  lemma StoreKeepsBound(c: seq<Entry>, k: int, t: Texture, maxCache: int)
    requires Distinct(c) && |c| <= Capacity(maxCache)
    ensures var s := Store(c, k, t, maxCache);
            Distinct(s) && |s| <= Capacity(maxCache) &&
            |Set(c, k, t)| - 1 <= |s| <= |Set(c, k, t)|
    ensures k in Keys(c) ==> Store(c, k, t, maxCache) == Set(c, k, t)
  {
    SetDistinct(c, k, t);
  }

  /** With room for at least one frame, the frame just stored is in the cache afterwards. */
  lemma StoreRetainsNewFrame(c: seq<Entry>, k: int, t: Texture, maxCache: int)
    requires Distinct(c) && |c| <= Capacity(maxCache) && maxCache >= 1
    ensures Get(Store(c, k, t, maxCache), k) == Some(t)
  {
    if k in Keys(c) {
      SetKeysPresent(c, k, t);
      SetLookups(c, k, t);
    } else {
      SetAppendsNew(c, k, t);
      if |c| + 1 > maxCache {
        AppendEvictLookup(c, k, t);
      } else {
        AppendLookups(c, k, t);
      }
    }
  }

  /** Dropping the oldest entry after appending a new key keeps the new key. */
  lemma AppendEvictLookup(c: seq<Entry>, k: int, t: Texture)
    requires k !in Keys(c) && c != []
    ensures Get((c + [Entry(k, t)])[1..], k) == Some(t)
  {
    assert Keys(c) == [c[0].key] + Keys(c[1..]);
    assert (c + [Entry(k, t)])[1..] == c[1..] + [Entry(k, t)];
    AppendLookups(c[1..], k, t);
  }

  /** With `maxCache <= 0` a stored frame is evicted by its own insert. */
  lemma StoreWithoutCapacity(c: seq<Entry>, k: int, t: Texture, maxCache: int)
    requires |c| <= Capacity(maxCache) && maxCache <= 0
    ensures Store(c, k, t, maxCache) == [] && Evicted(Set(c, k, t), maxCache) == Some(t)
  {
  }
}
