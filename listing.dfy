/**
 * Directory listings of the checkpoint managers: `os.listdir`, a name filter, and
 * `list.sort(key=...)` on a key parsed from the name. Python computes the key of every
 * kept name before sorting, so one name whose key does not parse (`int(...)` raising
 * ValueError, or a missing piece raising IndexError) makes the whole listing raise.
 * Names with equal keys may come out in any order (Python keeps the `listdir` order,
 * which is unspecified).
 */
module Listing {
  import opened Wrappers
  import opened PyInt
  import opened PyText

  /** A sort key: `(episode, step)`, `(episode, batch_id)`, or `(step, 0)` for a single step. */
  datatype Key = Key(major: int, minor: int)

  /** Python's tuple order on keys. */
  predicate KeyLe(a: Key, b: Key) {
    a.major < b.major || (a.major == b.major && a.minor <= b.minor)
  }

  /** Raised by the sort-key function. */
  datatype ListingError = Unparsable(name: string)

  /** Every name has a key. */
  predicate Keyed(s: seq<string>, key: string -> Option<Key>) {
    forall n <- s :: key(n).Some?
  }

  predicate SortedByKey(s: seq<string>, key: string -> Option<Key>)
    requires Keyed(s, key)
  {
    forall i, j :: 0 <= i < j < |s| ==> KeyLe(key(s[i]).value, key(s[j]).value)
  }

  predicate Distinct(s: seq<string>) {
    forall i, j :: 0 <= i < j < |s| ==> s[i] != s[j]
  }

  /** The names of the directory that pass the filter. */
  function Matching(names: set<string>, matches: string -> bool): set<string> {
    set n | n in names && matches(n)
  }

  /** When every name passes the filter, the filter keeps the whole directory. */
  lemma MatchingAll(names: set<string>, matches: string -> bool)
    requires forall n <- names :: matches(n)
    ensures Matching(names, matches) == names
  {
  }

  /**
   * What a listing is: each matching name exactly once, and nothing else, in ascending
   * order of key.
   */
  predicate IsListing(l: seq<string>, names: set<string>, matches: string -> bool,
                      key: string -> Option<Key>)
  {
    && Distinct(l)
    && (set n | n in l) == Matching(names, matches)
    && Keyed(l, key)
    && SortedByKey(l, key)
  }

  /** Inserts n after every name whose key is not above n's and before the rest. */
  function InsertByKey(s: seq<string>, n: string, key: string -> Option<Key>): (r: seq<string>)
    requires Keyed(s, key) && key(n).Some?
    ensures |r| == |s| + 1
    ensures forall m :: m in r <==> m in s || m == n
    ensures Keyed(r, key)
  {
    if |s| == 0 then [n]
    else if KeyLe(key(n).value, key(s[0]).value) then [n] + s
    else [s[0]] + InsertByKey(s[1..], n, key)
  }

  /** A name whose key is not above any key of a sorted listing can head it. */
  lemma ConsSorted(x: string, rest: seq<string>, key: string -> Option<Key>)
    requires Keyed(rest, key) && key(x).Some? && SortedByKey(rest, key)
    requires forall m <- rest :: KeyLe(key(x).value, key(m).value)
    ensures Keyed([x] + rest, key) && SortedByKey([x] + rest, key)
  {
    var r := [x] + rest;
    forall i, j | 0 <= i < j < |r| ensures KeyLe(key(r[i]).value, key(r[j]).value) {
      if i == 0 {
        assert r[j] in rest;
      } else {
        assert r[i] == rest[i - 1] && r[j] == rest[j - 1];
      }
    }
  }

  /** Insertion into a sorted listing keeps it sorted. */
  lemma {:induction false} InsertKeepsSorted(s: seq<string>, n: string, key: string -> Option<Key>)
    requires Keyed(s, key) && key(n).Some? && SortedByKey(s, key)
    ensures SortedByKey(InsertByKey(s, n, key), key)
    decreases |s|
  {
    if |s| > 0 && !KeyLe(key(n).value, key(s[0]).value) {
      var rest := InsertByKey(s[1..], n, key);
      assert SortedByKey(s[1..], key) by {
        forall i, j | 0 <= i < j < |s| - 1 ensures KeyLe(key(s[1..][i]).value, key(s[1..][j]).value) {
          assert s[1..][i] == s[i + 1] && s[1..][j] == s[j + 1];
        }
      }
      InsertKeepsSorted(s[1..], n, key);
      forall m <- rest ensures KeyLe(key(s[0]).value, key(m).value) {
        if m != n {
          var k :| 0 <= k < |s| - 1 && s[1..][k] == m;
          assert s[k + 1] == m;
        }
      }
      ConsSorted(s[0], rest, key);
    } else if |s| > 0 {
      forall m <- s ensures KeyLe(key(n).value, key(m).value) {
        var k :| 0 <= k < |s| && s[k] == m;
        assert k == 0 || KeyLe(key(s[0]).value, key(s[k]).value);
      }
      ConsSorted(n, s, key);
    }
  }

  /** Inserting a name that is not yet listed keeps the listing free of duplicates. */
  lemma {:induction false} InsertKeepsDistinct(s: seq<string>, n: string, key: string -> Option<Key>)
    requires Keyed(s, key) && key(n).Some? && Distinct(s) && n !in s
    ensures Distinct(InsertByKey(s, n, key))
    decreases |s|
  {
    if |s| > 0 && !KeyLe(key(n).value, key(s[0]).value) {
      assert Distinct(s[1..]) by {
        forall i, j | 0 <= i < j < |s| - 1 ensures s[1..][i] != s[1..][j] {
          assert s[1..][i] == s[i + 1] && s[1..][j] == s[j + 1];
        }
      }
      assert s[0] !in s[1..] by {
        forall k | 0 <= k < |s| - 1 ensures s[1..][k] != s[0] {
          assert s[1..][k] == s[k + 1];
        }
      }
      assert n !in s[1..];
      InsertKeepsDistinct(s[1..], n, key);
      var rest := InsertByKey(s[1..], n, key);
      var r := [s[0]] + rest;
      forall i, j | 0 <= i < j < |r| ensures r[i] != r[j] {
        if i == 0 {
          assert r[j] in rest;
        } else {
          assert r[i] == rest[i - 1] && r[j] == rest[j - 1];
        }
      }
    } else if |s| > 0 {
      var r := [n] + s;
      forall i, j | 0 <= i < j < |r| ensures r[i] != r[j] {
        if i == 0 {
          assert r[j] in s;
        } else {
          assert r[i] == s[i - 1] && r[j] == s[j - 1];
        }
      }
    }
  }

  /**
   * `_list_checkpoints` and its siblings: Success with a listing of the matching names
   * exactly when every matching name has a key, Failure naming an unparsable one otherwise.
   */
  method SortedListing(names: set<string>, matches: string -> bool, key: string -> Option<Key>)
    returns (r: Result<seq<string>, ListingError>)
    ensures r.Success? <==> forall n <- Matching(names, matches) :: key(n).Some?
    ensures r.Success? ==> IsListing(r.value, names, matches, key)
    ensures r.Failure? ==> r.error.name in Matching(names, matches) && key(r.error.name).None?
  {
    var rest := names;
    var acc: seq<string> := [];
    while rest != {}
      invariant rest <= names
      invariant Distinct(acc) && Keyed(acc, key) && SortedByKey(acc, key)
      invariant forall m :: m in acc <==> m in names - rest && matches(m)
      decreases rest
    {
      var n :| n in rest;
      assert n !in acc;
      rest := rest - {n};
      if matches(n) {
        if key(n).None? {
          return Failure(Unparsable(n));
        }
        InsertKeepsSorted(acc, n, key);
        InsertKeepsDistinct(acc, n, key);
        acc := InsertByKey(acc, n, key);
      }
    }
    assert (set m | m in acc) == Matching(names, matches);
    r := Success(acc);
  }

  /** The last entry of a listing has the largest key of all matching names. */
  lemma LastIsLargest(l: seq<string>, names: set<string>, matches: string -> bool,
                      key: string -> Option<Key>, n: string)
    requires IsListing(l, names, matches, key) && |l| > 0
    requires n in Matching(names, matches)
    ensures KeyLe(key(n).value, key(l[|l| - 1]).value)
  {
    assert n in (set m | m in l);
    var i :| 0 <= i < |l| && l[i] == n;
    if i < |l| - 1 {
      assert KeyLe(key(l[i]).value, key(l[|l| - 1]).value);
    }
  }

  /** The first entry of a listing has the smallest key of all matching names. */
  lemma FirstIsSmallest(l: seq<string>, names: set<string>, matches: string -> bool,
                        key: string -> Option<Key>, n: string)
    requires IsListing(l, names, matches, key) && |l| > 0
    requires n in Matching(names, matches)
    ensures KeyLe(key(l[0]).value, key(n).value)
  {
    assert n in (set m | m in l);
    var i :| 0 <= i < |l| && l[i] == n;
    if i > 0 {
      assert KeyLe(key(l[0]).value, key(l[i]).value);
    }
  }

  /** A listing of three names starts with the one whose key is below the other two. */
  lemma FirstOfThree(l: seq<string>, names: set<string>, matches: string -> bool,
                     key: string -> Option<Key>, x: string, y: string, z: string)
    requires IsListing(l, names, matches, key)
    requires Matching(names, matches) == {x, y, z} && x != y && x != z && y != z
    requires key(x).Some? && key(y).Some? && key(z).Some?
    requires !KeyLe(key(y).value, key(x).value) && !KeyLe(key(z).value, key(x).value)
    ensures |l| == 3 && l[0] == x
  {
    ListingLength(l, names, matches, key);
    FirstIsSmallest(l, names, matches, key, x);
    assert l[0] in (set n | n in l);
  }

  /** Keeping two of three listed names deletes the one of the smallest key. */
  lemma ThreeKeepTwo(l: seq<string>, matches: string -> bool,
                     key: string -> Option<Key>, x: string, y: string, z: string)
    requires matches(x) && matches(y) && matches(z) && x != y && x != z && y != z
    requires key(x).Some? && key(y).Some? && key(z).Some?
    requires !KeyLe(key(y).value, key(x).value) && !KeyLe(key(z).value, key(x).value)
    requires IsListing(l, {x, y, z}, matches, key)
    ensures Removed(l, 2) == {x}
  {
    MatchingAll({x, y, z}, matches);
    FirstOfThree(l, {x, y, z}, matches, key, x, y, z);
    RemovedFirstOfThree(l);
  }

  /** A subset is no larger than its superset. */
  lemma {:induction false} SubsetCard(a: set<string>, b: set<string>)
    requires a <= b
    ensures |a| <= |b|
    decreases b
  {
    if b != {} {
      var x :| x in b;
      SubsetCard(a - {x}, b - {x});
    }
  }

  /** A listing has one entry per matching name. */
  lemma ListingLength(l: seq<string>, names: set<string>, matches: string -> bool,
                      key: string -> Option<Key>)
    requires IsListing(l, names, matches, key)
    ensures |l| == |Matching(names, matches)|
  {
    DistinctCard(l);
  }

  /** A sequence without duplicates has as many elements as its set. */
  lemma {:induction false} DistinctCard(l: seq<string>)
    requires Distinct(l)
    ensures |set n | n in l| == |l|
    decreases |l|
  {
    if |l| > 0 {
      var tail := l[1..];
      assert Distinct(tail) by {
        forall i, j | 0 <= i < j < |tail| ensures tail[i] != tail[j] {
          assert tail[i] == l[i + 1] && tail[j] == l[j + 1];
        }
      }
      DistinctCard(tail);
      assert l[0] !in tail by {
        forall k | 0 <= k < |tail| ensures tail[k] != l[0] {
          assert tail[k] == l[k + 1];
        }
      }
      assert l == [l[0]] + tail;
      assert (set n | n in l) == (set n | n in tail) + {l[0]};
    }
  }

  /**
   * Cutting a listing at k: every name before the cut has a key no larger than every name
   * after it, so the names kept by `l[-k:]` are those with the largest keys.
   */
  lemma CutKeepsLargest(l: seq<string>, key: string -> Option<Key>, k: nat, a: string, b: string)
    requires Keyed(l, key) && SortedByKey(l, key) && k <= |l|
    requires a in l[..k] && b in l[k..]
    ensures KeyLe(key(a).value, key(b).value)
  {
    var i :| 0 <= i < k && l[..k][i] == a;
    var j :| 0 <= j < |l| - k && l[k..][j] == b;
    assert l[i] == a && l[k + j] == b;
  }

  /** Cutting a sequence without duplicates at k: a name is after the cut iff it is in the sequence but not before the cut. */
  lemma DistinctCut(l: seq<string>, k: nat)
    requires Distinct(l) && k <= |l|
    ensures forall n :: n in l[k..] <==> n in l && n !in l[..k]
  {
    assert l == l[..k] + l[k..];
    forall n | n in l[k..] ensures n !in l[..k] {
      var j :| 0 <= j < |l| - k && l[k..][j] == n;
      forall i | 0 <= i < k ensures l[..k][i] != n {
        assert l[k + j] == n;
      }
    }
  }

  /** The names "keep the last n" deletes from listing l: `l[:-n]` when `len(l) > n`. */
  function Removed<T>(l: seq<T>, n: int): set<T> {
    if |l| > n then
      var cut := SliceTo(l, -n);
      set m | m in cut
    else {}
  }

  /** Keeping two of a three-entry listing deletes exactly its first entry. */
  lemma RemovedFirstOfThree<T>(l: seq<T>)
    requires |l| == 3
    ensures Removed(l, 2) == {l[0]}
  {
    assert SliceTo(l, -2) == [l[0]];
  }

  /** For `n >= 1` the deleted names are the listing minus its last `min(n, len(l))` entries. */
  lemma RemovedIsHead<T>(l: seq<T>, n: int)
    requires n >= 1
    ensures var head := l[..|l| - Min(n, |l|)]; Removed(l, n) == set m | m in head
  {
    if |l| > n {
      assert SliceTo(l, -n) == l[..|l| - n];
    }
  }

  /** With n = 0 the slice `[:-0]` is empty: nothing is deleted. */
  lemma {:induction false} RemovedNothingAtZero<T>(l: seq<T>)
    ensures Removed(l, 0) == {}
  {
    assert SliceTo(l, -0) == [];
  }

  /** Only listed names are deleted, so a file the filter rejects is never deleted. */
  lemma RemovedAreListed(l: seq<string>, names: set<string>, matches: string -> bool,
                         key: string -> Option<Key>, n: int, x: string)
    requires IsListing(l, names, matches, key)
    requires x in Removed(l, n)
    ensures x in names && matches(x)
  {
    var cut := SliceTo(l, -n);
    assert l == cut + l[|cut|..];
    assert x in cut;
    assert x in (set m | m in l);
    assert x in Matching(names, matches);
  }

  /**
   * For `n >= 1`, the listed names left after deletion are exactly the last
   * `min(len(l), n)` entries of the listing.
   */
  lemma RemovalKeepsTail(l: seq<string>, names: set<string>, matches: string -> bool,
                         key: string -> Option<Key>, n: int)
    requires n >= 1 && IsListing(l, names, matches, key)
    ensures forall x :: x in names - Removed(l, n) && matches(x) <==> x in l[|l| - Min(n, |l|)..]
  {
    var k := |l| - Min(n, |l|);
    RemovedIsHead(l, n);
    DistinctCut(l, k);
    forall x ensures x in names - Removed(l, n) && matches(x) <==> x in l[k..] {
      assert x in Removed(l, n) <==> x in l[..k];
      assert x in l <==> x in (set m | m in l);
      assert x in Matching(names, matches) <==> x in names && matches(x);
    }
  }

  /** Every deleted name has a key no larger than that of every name kept. */
  lemma RemovalKeepsLargest(l: seq<string>, names: set<string>, matches: string -> bool,
                            key: string -> Option<Key>, n: int, a: string, b: string)
    requires n >= 1 && IsListing(l, names, matches, key)
    requires a in Removed(l, n) && b in l[|l| - Min(n, |l|)..]
    ensures KeyLe(key(a).value, key(b).value)
  {
    RemovedIsHead(l, n);
    CutKeepsLargest(l, key, |l| - Min(n, |l|), a, b);
  }

  /** A directory of at most n names loses nothing. */
  lemma ShortListingKept(l: seq<string>, names: set<string>, matches: string -> bool,
                         key: string -> Option<Key>, n: int)
    requires IsListing(l, names, matches, key)
    requires |names| <= n
    ensures Removed(l, n) == {}
  {
    ListingLength(l, names, matches, key);
    SubsetCard(Matching(names, matches), names);
  }

  /** Deletes each of the given names from the directory, one `os.remove` at a time. */
  method DeleteEach<T>(files: map<string, T>, toRemove: seq<string>) returns (r: map<string, T>)
    ensures r == files - set n | n in toRemove
  {
    r := files;
    var i := 0;
    while i < |toRemove|
      invariant 0 <= i <= |toRemove|
      invariant r == files - set n | n in toRemove[..i]
    {
      assert toRemove[..i + 1] == toRemove[..i] + [toRemove[i]];
      r := r - {toRemove[i]};
      i := i + 1;
    }
    assert toRemove[..i] == toRemove;
  }

  /**
   * The key of `prefix + str(a) + sep + str(b) + suffix` under
   * `int(parts[0]), int(parts[1])` with
   * `parts = name.replace(prefix, "").replace(suffix, "").split(sep)`.
   */
  function PairKey(name: string, prefix: string, sep: string, suffix: string): Option<Key>
    requires |prefix| > 0 && |sep| > 0 && |suffix| > 0
  {
    var parts := Split(RemoveAll(RemoveAll(name, prefix), suffix), sep);
    if |parts| < 2 then None
    else
      match (ParseInt(parts[0]), ParseInt(parts[1]))
      case (Some(a), Some(b)) => Some(Key(a, b))
      case _ => None
  }

  /** A character that `str` of an integer never produces. */
  predicate NotInNumber(c: char) {
    !IsDigit(c) && c != '-'
  }

  /**
   * The pair key of a generated name gives back the pair, when the fixed parts of the
   * name cannot be confused with one another or with the numbers.
   */
  lemma PairKeyRoundTrip(prefix: string, sep: string, suffix: string, a: int, b: int)
    requires |prefix| > 0 && |sep| > 0 && |suffix| > 0
    requires NotInNumber(prefix[0]) && prefix[0] !in sep && prefix[0] !in suffix
    requires NotInNumber(sep[0]) && NotInNumber(suffix[0]) && suffix[0] !in sep
    ensures PairKey(prefix + IntToString(a) + sep + IntToString(b) + suffix, prefix, sep, suffix)
      == Some(Key(a, b))
  {
    var sa, sb := IntToString(a), IntToString(b);
    var stem := sa + sep + sb;
    var name := prefix + sa + sep + sb + suffix;
    assert name == prefix + (stem + suffix);
    NumberLacks(a, prefix[0]);
    NumberLacks(b, prefix[0]);
    assert prefix[0] !in stem + suffix;
    RemoveLeading(prefix, stem + suffix);
    NumberLacks(a, suffix[0]);
    NumberLacks(b, suffix[0]);
    assert suffix[0] !in stem;
    RemoveTrailing(stem, suffix);
    NumberLacks(a, sep[0]);
    NumberLacks(b, sep[0]);
    SplitPair(sa, sep, sb);
    assert Split(RemoveAll(RemoveAll(name, prefix), suffix), sep) == [sa, sb];
    IntRoundTrip(a);
    IntRoundTrip(b);
  }

  /** `str(i)` does not contain a character that no number contains. */
  lemma NumberLacks(i: int, c: char)
    requires NotInNumber(c)
    ensures c !in IntToString(i)
  {
  }
}
