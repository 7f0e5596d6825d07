/** Small shared vocabulary: optional values, results, and the JavaScript
    string and array helpers (`split`, `join`, `filter`) the pipeline relies on. */
module Base {

  /** A value that may be absent (`undefined`, `null` or `false` in the source). */
  datatype Option<+T> = None | Some(value: T)

  /** The outcome of an operation that may throw. */
  datatype Result<+T> = Success(value: T) | Failure(error: string)

  /** Number of occurrences of `c` in `s`. */
  function Count(s: string, c: char): nat
  {
    if |s| == 0 then 0 else (if s[0] == c then 1 else 0) + Count(s[1..], c)
  }

  /** `s.length` in JavaScript: the number of UTF-16 code units, two for a
      character outside the Basic Multilingual Plane. */
  function Utf16Length(s: string): (n: nat)
    ensures |s| <= n <= 2 * |s|
  {
    if |s| == 0 then 0 else (if s[0] as int >= 0x1_0000 then 2 else 1) + Utf16Length(s[1..])
  }

  /** A text made only of Basic Multilingual Plane characters has one code
      unit per character. */
  lemma {:induction false} BmpUtf16Length(s: string)
    requires forall i :: 0 <= i < |s| ==> (s[i] as int) < 0x1_0000
    ensures Utf16Length(s) == |s|
  {
    if |s| > 0 {
      assert forall i :: 0 <= i < |s[1..]| ==> s[1..][i] == s[i + 1];
      BmpUtf16Length(s[1..]);
    }
  }

  /** `s.split(sep)` for a one-character separator: every occurrence of `sep`
      cuts, so empty pieces are kept and `"".split(sep)` is `[""]`. */
  function Split(s: string, sep: char): (r: seq<string>)
    ensures |r| >= 1
  {
    if |s| == 0 then [""]
    else
      var rest := Split(s[1..], sep);
      if s[0] == sep then [""] + rest
      else [[s[0]] + rest[0]] + rest[1..]
  }

  /** `parts.join(sep)`. */
  function Join(parts: seq<string>, sep: string): string
  {
    if |parts| == 0 then ""
    else if |parts| == 1 then parts[0]
    else parts[0] + sep + Join(parts[1..], sep)
  }

  /** `split` yields one more piece than there are separators. */
  lemma {:induction false} SplitLength(s: string, sep: char)
    ensures |Split(s, sep)| == Count(s, sep) + 1
  {
    if |s| > 0 {
      SplitLength(s[1..], sep);
    }
  }

  /** No piece produced by `split` contains the separator. */
  lemma {:induction false} SplitPiecesFree(s: string, sep: char)
    ensures forall i :: 0 <= i < |Split(s, sep)| ==> sep !in Split(s, sep)[i]
  {
    if |s| > 0 {
      SplitPiecesFree(s[1..], sep);
      var rest := Split(s[1..], sep);
      if s[0] != sep {
        assert forall i :: 0 <= i < |rest| ==> sep !in rest[i];
        assert sep !in [s[0]] + rest[0];
      }
    }
  }

  /** Joining the pieces of `split` with the same separator restores the string. */
  lemma {:induction false} SplitJoin(s: string, sep: char)
    ensures Join(Split(s, sep), [sep]) == s
  {
    if |s| > 0 {
      SplitJoin(s[1..], sep);
      var rest := Split(s[1..], sep);
      if s[0] == sep {
        assert Split(s, sep) == [""] + rest;
        assert ([""] + rest)[1..] == rest;
        assert Join([""] + rest, [sep]) == "" + [sep] + Join(rest, [sep]);
        assert s == [s[0]] + s[1..];
      } else {
        var parts := [[s[0]] + rest[0]] + rest[1..];
        assert parts[1..] == rest[1..];
        if |rest| == 1 {
          assert Join(parts, [sep]) == [s[0]] + rest[0];
        } else {
          assert Join(rest, [sep]) == rest[0] + [sep] + Join(rest[1..], [sep]);
          assert Join(parts, [sep]) == [s[0]] + rest[0] + [sep] + Join(rest[1..], [sep]);
        }
        assert s == [s[0]] + s[1..];
      }
    }
  }

  /** `s.filter(p)`: the elements satisfying `p`, in their original order. */
  function Filter<T>(p: T -> bool, s: seq<T>): (r: seq<T>)
    ensures |r| <= |s|
    ensures forall x :: x in r ==> p(x) && x in s
  {
    if |s| == 0 then []
    else (if p(s[0]) then [s[0]] else []) + Filter(p, s[1..])
  }

  /** Every element that satisfies the predicate survives `Filter`. */
  lemma {:induction false} FilterKeeps<T>(p: T -> bool, s: seq<T>, x: T)
    requires x in s && p(x)
    ensures x in Filter(p, s)
  {
    if s[0] != x {
      FilterKeeps(p, s[1..], x);
    }
  }

  /** Number of elements before position `i` that `Filter` keeps: the position
      of `s[i]` in the filtered sequence when `p(s[i])` holds. */
  function KeptBefore<T>(p: T -> bool, s: seq<T>, i: nat): nat
    requires i <= |s|
  {
    if i == 0 then 0 else KeptBefore(p, s, i - 1) + (if p(s[i - 1]) then 1 else 0)
  }

  /** `Filter` never reorders: a kept element `s[i]` sits at position
      `KeptBefore(p, s, i)`, and later kept elements sit at larger positions. */
  lemma {:induction false} FilterPosition<T>(p: T -> bool, s: seq<T>, i: nat)
    requires i < |s| && p(s[i])
    ensures KeptBefore(p, s, i) < |Filter(p, s)|
    ensures Filter(p, s)[KeptBefore(p, s, i)] == s[i]
  {
    FilterSplit(p, s, i);
    assert Filter(p, s) == Filter(p, s[..i]) + Filter(p, s[i..]);
    FilterPrefixCount(p, s, i);
    assert s[i..] == [s[i]] + s[i + 1..];
    assert Filter(p, s[i..]) == [s[i]] + Filter(p, s[i + 1..]);
  }

  /** `KeptBefore` only grows along the sequence. */
  lemma {:induction false} KeptBeforeMonotone<T>(p: T -> bool, s: seq<T>, i: nat, j: nat)
    requires i < j <= |s| && p(s[i])
    ensures KeptBefore(p, s, i) < KeptBefore(p, s, j)
  {
    if j > i + 1 {
      KeptBeforeMonotone(p, s, i, j - 1);
    }
  }

  lemma {:induction false} FilterSplit<T>(p: T -> bool, s: seq<T>, i: nat)
    requires i <= |s|
    ensures Filter(p, s) == Filter(p, s[..i]) + Filter(p, s[i..])
  {
    if i > 0 {
      assert s[..i][1..] == s[1..][..i - 1];
      assert s[i..] == s[1..][i - 1..];
      FilterSplit(p, s[1..], i - 1);
    } else {
      assert s[..0] == [];
      assert s[0..] == s;
    }
  }

  lemma {:induction false} FilterPrefixCount<T>(p: T -> bool, s: seq<T>, i: nat)
    requires i <= |s|
    ensures |Filter(p, s[..i])| == KeptBefore(p, s, i)
  {
    if i > 0 {
      FilterPrefixCount(p, s, i - 1);
      assert s[..i] == s[..i - 1] + [s[i - 1]];
      FilterSplit(p, s[..i], i - 1);
      assert s[..i][..i - 1] == s[..i - 1];
      assert s[..i][i - 1..] == [s[i - 1]];
    }
  }

  function IsSome<T>(): Option<T> -> bool
  {
    (o: Option<T>) => o.Some?
  }

  /** `xs.filter(notEmpty)` / `xs.filter((x) => x)`: the present values, in order. */
  function Somes<T>(xs: seq<Option<T>>): seq<T>
  {
    var kept := Filter(IsSome(), xs);
    assert forall k | 0 <= k < |kept| :: kept[k] in kept;
    seq(|kept|, i requires 0 <= i < |kept| => kept[i].value)
  }

  /** Dropping absent values never reorders the survivors: the value at
      position `i` lands at the number of present values before it, so later
      survivors land later. */
  lemma SomesKeepsOrder<T>(xs: seq<Option<T>>, i: nat, j: nat)
    requires i < j < |xs| && xs[i].Some? && xs[j].Some?
    ensures KeptBefore(IsSome(), xs, i) < KeptBefore(IsSome(), xs, j) < |Somes(xs)|
    ensures Somes(xs)[KeptBefore(IsSome(), xs, i)] == xs[i].value
    ensures Somes(xs)[KeptBefore(IsSome(), xs, j)] == xs[j].value
  {
    FilterPosition(IsSome(), xs, i);
    FilterPosition(IsSome(), xs, j);
    KeptBeforeMonotone(IsSome(), xs, i, j);
  }

  /** Exactly the present values survive. */
  lemma SomesMembers<T>(xs: seq<Option<T>>, x: T)
    ensures x in Somes(xs) <==> Some(x) in xs
  {
    var kept := Filter(IsSome(), xs);
    if Some(x) in xs {
      FilterKeeps(IsSome(), xs, Some(x));
      var k :| 0 <= k < |kept| && kept[k] == Some(x);
      assert Somes(xs)[k] == x;
    }
    if x in Somes(xs) {
      var k :| 0 <= k < |kept| && Somes(xs)[k] == x;
      assert kept[k] in kept;
    }
  }
}
