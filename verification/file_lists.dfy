/**
 * How the manifest builders turn a directory listing into an ordered list of
 * frame files: keep the names with the wanted extension, then sort them.
 * A directory that does not exist lists as `None`. `localeCompare` is the
 * host's collation, so it is a parameter `leq` (whether `a` may come before
 * `b`); a plain `.sort()` is UTF-16 code-unit order, `CodeUnitLeq`.
 */
module FileLists {
  import opened Wrappers
  import opened Text

  /** `names.filter(keep)`: the kept names, in their order. */
  function Filter(names: seq<string>, keep: string -> bool): (r: seq<string>)
    ensures |r| <= |names|
    ensures forall f :: f in r ==> f in names && keep(f)
    ensures forall f :: multiset(r)[f] == if keep(f) then multiset(names)[f] else 0
    decreases |names|
  {
    if names == [] then []
    else
      assert names == [names[0]] + names[1..];
      (if keep(names[0]) then [names[0]] else []) + Filter(names[1..], keep)
  }

  /** Inserting `x` before the first element it may precede. */
  function Insert(leq: (string, string) -> bool, x: string, s: seq<string>): (r: seq<string>)
    ensures multiset(r) == multiset(s) + multiset{x}
    ensures |r| == |s| + 1
    ensures r[0] == x || (s != [] && r[0] == s[0])
    decreases |s|
  {
    if s == [] then [x]
    else if leq(x, s[0]) then [x] + s
    else
      assert s == [s[0]] + s[1..];
      [s[0]] + Insert(leq, x, s[1..])
  }

  /**
   * `.sort(...)`, as a stable insertion sort: `Array.prototype.sort` is
   * stable, so for a consistent comparator its result is this one.
   */
  function SortBy(leq: (string, string) -> bool, s: seq<string>): (r: seq<string>)
    decreases |s|
  {
    if s == [] then [] else Insert(leq, s[0], SortBy(leq, s[1..]))
  }

  ghost predicate Total(leq: (string, string) -> bool) {
    forall a, b :: leq(a, b) || leq(b, a)
  }

  predicate SortedBy(leq: (string, string) -> bool, s: seq<string>) {
    forall i :: 0 <= i < |s| - 1 ==> leq(s[i], s[i + 1])
  }

  lemma {:induction false} InsertSorted(leq: (string, string) -> bool, x: string, s: seq<string>)
    requires Total(leq) && SortedBy(leq, s)
    ensures SortedBy(leq, Insert(leq, x, s))
    decreases |s|
  {
    if s != [] && !leq(x, s[0]) {
      assert leq(s[0], x);
      var t := s[1..];
      assert SortedBy(leq, t);
      InsertSorted(leq, x, t);
      var r := Insert(leq, x, s);
      var rt := Insert(leq, x, t);
      assert r == [s[0]] + rt;
      assert leq(r[0], r[1]);
      forall i | 1 <= i < |r| - 1 ensures leq(r[i], r[i + 1]) {
        assert r[i] == rt[i - 1] && r[i + 1] == rt[i];
      }
    }
  }

  /** Sorting keeps every name with its multiplicity, and orders them whenever the comparator is total. */
  lemma {:induction false} SortByPermutes(leq: (string, string) -> bool, s: seq<string>)
    ensures multiset(SortBy(leq, s)) == multiset(s)
    ensures |SortBy(leq, s)| == |s|
    ensures Total(leq) ==> SortedBy(leq, SortBy(leq, s))
    decreases |s|
  {
    if s != [] {
      SortByPermutes(leq, s[1..]);
      assert s == [s[0]] + s[1..];
      if Total(leq) {
        InsertSorted(leq, s[0], SortBy(leq, s[1..]));
      }
    }
  }

  /**
   * A character's UTF-16 code units: itself below U+10000, otherwise the
   * surrogate pair that encodes it.
   */
  function CodeUnits(c: char): (u: seq<int>)
    ensures 1 <= |u| <= 2 && forall i :: 0 <= i < |u| ==> 0 <= u[i] < 0x1_0000
    ensures |u| == 1 <==> c as int < 0x1_0000
    ensures |u| == 1 ==> u[0] == c as int
    ensures |u| == 2 ==> 0xD800 <= u[0] < 0xDC00 && 0xDC00 <= u[1] < 0xE000 &&
                         0x1_0000 + (u[0] - 0xD800) * 0x400 + (u[1] - 0xDC00) == c as int
  {
    var n := c as int;
    if n < 0x1_0000 then [n]
    else [0xD800 + (n - 0x1_0000) / 0x400, 0xDC00 + (n - 0x1_0000) % 0x400]
  }

  /** A JavaScript string's code units, as the engine stores it. */
  function Utf16(s: string): seq<int>
    decreases |s|
  {
    if s == [] then [] else CodeUnits(s[0]) + Utf16(s[1..])
  }

  /** Lexicographic order on code-unit sequences, a proper prefix first. */
  predicate UnitsLeq(a: seq<int>, b: seq<int>)
    decreases |a|
  {
    a == [] || (b != [] && (a[0] < b[0] || (a[0] == b[0] && UnitsLeq(a[1..], b[1..]))))
  }

  /** The default `.sort()` order on strings: their UTF-16 code units compared in turn. */
  predicate CodeUnitLeq(a: string, b: string) {
    UnitsLeq(Utf16(a), Utf16(b))
  }

  lemma {:induction false} UnitsLeqTotal(a: seq<int>, b: seq<int>)
    ensures UnitsLeq(a, b) || UnitsLeq(b, a)
    decreases |a|
  {
    if a != [] && b != [] && a[0] == b[0] {
      UnitsLeqTotal(a[1..], b[1..]);
    }
  }

  lemma CodeUnitLeqTotal()
    ensures Total(CodeUnitLeq)
  {
    forall a, b ensures CodeUnitLeq(a, b) || CodeUnitLeq(b, a) {
      UnitsLeqTotal(Utf16(a), Utf16(b));
    }
  }

  /**
   * The order is not code-point order: U+10000 is stored as 0xD800 0xDC00,
   * so it sorts before U+E000.
   */
  lemma SurrogatesBeforePrivateUse()
    ensures CodeUnitLeq("\U{10000}", "\U{E000}") && !CodeUnitLeq("\U{E000}", "\U{10000}")
  {
    assert Utf16("\U{10000}") == [0xD800, 0xDC00];
    assert Utf16("\U{E000}") == [0xE000];
  }

  /** A frame directory's files: none when it is missing, else those that `keep` admits, sorted with `leq`. */
  function ReadFrames(listing: Option<seq<string>>, keep: string -> bool, leq: (string, string) -> bool): seq<string> {
    match listing
    case None => []
    case Some(names) => SortBy(leq, Filter(names, keep))
  }

  /** The listing's matching names, each as often as it appears, in `leq` order when `leq` is total. */
  lemma ReadFramesSpec(listing: Option<seq<string>>, keep: string -> bool, leq: (string, string) -> bool)
    ensures listing.None? ==> ReadFrames(listing, keep, leq) == []
    ensures listing.Some? ==> forall f :: multiset(ReadFrames(listing, keep, leq))[f] ==
                                        if keep(f) then multiset(listing.value)[f] else 0
    ensures forall f :: f in ReadFrames(listing, keep, leq) ==> keep(f) && listing.Some? && f in listing.value
    ensures Total(leq) ==> SortedBy(leq, ReadFrames(listing, keep, leq))
  {
    if listing.Some? {
      var kept := Filter(listing.value, keep);
      SortByPermutes(leq, kept);
      forall f | f in ReadFrames(listing, keep, leq) ensures keep(f) && f in listing.value {
        assert multiset(kept)[f] > 0;
        assert f in kept;
      }
    }
  }

  /** `f.toLowerCase().endsWith(s)` for a lower-case `s` is the case-insensitive suffix match. */
  lemma LowerEndsWith(f: string, s: string)
    requires forall i :: 0 <= i < |s| ==> LowerChar(s[i]) == s[i]
    ensures EndsWith(Lower(f), s) <==> EndsWithIgnoringCase(f, s)
  {
    if |s| <= |f| {
      var lf := Lower(f);
      if EndsWith(lf, s) {
        forall i | 0 <= i < |s| ensures LowerChar(f[|f| - |s| + i]) == LowerChar(s[i]) {
          assert lf[|f| - |s|..][i] == s[i];
        }
      }
      if EndsWithIgnoringCase(f, s) {
        assert lf[|f| - |s|..] == s;
      }
    }
  }
}
