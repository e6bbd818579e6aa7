/** Values shared by every component: optional values, the error values the
    library produces or passes on, and Swift's `joined(separator:)`. */
module Common {

  datatype Option<T> = None | Some(value: T)

  datatype Result<T> = Ok(value: T) | Err(error: Error)

  /** The errors of the library. `IoError` stands for any error a
      `FileManager` or `String(contentsOf:)` call throws, `TransportError` for
      the error value an underlying transport hands to its completion. */
  datatype Error =
    | IoError
    | TransportError
    | TransportURLError
    | TransportSchemeError

  /** No element occurs twice. */
  ghost predicate NoDuplicates<T>(s: seq<T>)
  {
    forall i, j :: 0 <= i < j < |s| ==> s[i] != s[j]
  }

  /** `parts.joined(separator: sep)`. */
  function Join(parts: seq<string>, sep: string): string
  {
    if |parts| == 0 then ""
    else if |parts| == 1 then parts[0]
    else parts[0] + sep + Join(parts[1..], sep)
  }

  /** Joining one more part adds the separator and that part at the end, so
      a joined string is the parts in order with one separator between
      neighbours. */
  lemma {:induction false} JoinSnoc(parts: seq<string>, sep: string, last: string)
    requires |parts| > 0
    ensures Join(parts + [last], sep) == Join(parts, sep) + sep + last
  {
    if |parts| == 1 {
      assert parts + [last] == [parts[0], last];
      assert Join([last], sep) == last;
    } else {
      assert (parts + [last])[1..] == parts[1..] + [last];
      JoinSnoc(parts[1..], sep, last);
    }
  }
}

/** A stable insertion sort by an integer key: Swift's `sort(by:)` and
    `sorted { ... }` with a `<` comparison on that key. */
module Sorting {

  ghost predicate SortedBy<T>(s: seq<T>, key: T -> int)
  {
    forall i, j :: 0 <= i < j < |s| ==> key(s[i]) <= key(s[j])
  }

  /** Puts `x` after every element whose key is not larger than its own. */
  function Insert<T>(s: seq<T>, x: T, key: T -> int): (r: seq<T>)
    ensures multiset(r) == multiset(s) + multiset{x}
    ensures |r| == |s| + 1
  {
    if s == [] then [x]
    else if key(x) < key(s[0]) then [x] + s
    else
      assert s == [s[0]] + s[1..];
      [s[0]] + Insert(s[1..], x, key)
  }

  /** A lower bound on every key of `s` and on `x` bounds every key after
      the insertion. */
  lemma {:induction false} InsertBounded<T>(s: seq<T>, x: T, key: T -> int, low: int)
    requires forall i :: 0 <= i < |s| ==> low <= key(s[i])
    requires low <= key(x)
    ensures forall i :: 0 <= i < |Insert(s, x, key)| ==> low <= key(Insert(s, x, key)[i])
  {
    if s != [] && key(x) >= key(s[0]) {
      InsertBounded(s[1..], x, key, low);
    }
  }

  /** Inserting into a sorted sequence keeps it sorted. */
  lemma {:induction false} InsertSorted<T>(s: seq<T>, x: T, key: T -> int)
    requires SortedBy(s, key)
    ensures SortedBy(Insert(s, x, key), key)
  {
    if s == [] {
    } else if key(x) < key(s[0]) {
      SortedFront(x, s, key);
    } else {
      var rest := Insert(s[1..], x, key);
      assert SortedBy(s[1..], key) by {
        forall i, j | 0 <= i < j < |s[1..]| ensures key(s[1..][i]) <= key(s[1..][j]) {
          assert s[1..][i] == s[i + 1] && s[1..][j] == s[j + 1];
        }
      }
      InsertSorted(s[1..], x, key);
      InsertBounded(s[1..], x, key, key(s[0]));
      SortedFront(s[0], rest, key);
    }
  }

  /** An element no larger than every key of a sorted sequence can go in
      front of it. */
  lemma SortedFront<T>(x: T, s: seq<T>, key: T -> int)
    requires SortedBy(s, key)
    requires forall i :: 0 <= i < |s| ==> key(x) <= key(s[i])
    ensures SortedBy([x] + s, key)
  {
    var r := [x] + s;
    forall i, j | 0 <= i < j < |r| ensures key(r[i]) <= key(r[j]) {
      assert r[j] == s[j - 1];
      if i > 0 {
        assert r[i] == s[i - 1];
      }
    }
  }

  /** The elements of `s` ordered by ascending key; elements with equal keys
      keep their relative order. */
  function SortBy<T>(s: seq<T>, key: T -> int): (r: seq<T>)
    ensures SortedBy(r, key)
    ensures multiset(r) == multiset(s)
    ensures |r| == |s|
  {
    if s == [] then []
    else
      assert s == s[..|s| - 1] + [s[|s| - 1]];
      var sorted := SortBy(s[..|s| - 1], key);
      InsertSorted(sorted, s[|s| - 1], key);
      Insert(sorted, s[|s| - 1], key)
  }

  /** Inserting an element whose key is at least every key of a sorted
      sequence appends it. */
  lemma {:induction false} InsertLast<T>(s: seq<T>, x: T, key: T -> int)
    requires forall i :: 0 <= i < |s| ==> key(s[i]) <= key(x)
    ensures Insert(s, x, key) == s + [x]
  {
    if s != [] {
      InsertLast(s[1..], x, key);
      assert [s[0]] + (s[1..] + [x]) == s + [x];
    }
  }

  /** Sorting a sequence that is already in key order leaves it unchanged. */
  lemma {:induction false} SortSorted<T>(s: seq<T>, key: T -> int)
    requires SortedBy(s, key)
    ensures SortBy(s, key) == s
  {
    if s != [] {
      var n := |s| - 1;
      var init, last := s[..n], s[n];
      assert SortedBy(init, key) by {
        forall i, j | 0 <= i < j < |init| ensures key(init[i]) <= key(init[j]) {
          assert init[i] == s[i] && init[j] == s[j];
        }
      }
      SortSorted(init, key);
      forall i | 0 <= i < |init| ensures key(init[i]) <= key(last) {
        assert init[i] == s[i];
      }
      InsertLast(init, last, key);
      assert init + [last] == s;
    }
  }
}
