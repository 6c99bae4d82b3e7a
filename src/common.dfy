/** Shared vocabulary: optional values and the outcome of a call that may throw. */
module Common {
  datatype Option<T> = None | Some(value: T)

  /** `Err` carries the message of the exception the JavaScript code would throw. */
  datatype Result<T> = Ok(value: T) | Err(error: string)

  function Min(a: int, b: int): int { if a <= b then a else b }

  /** `r` keeps some of the elements of `s`, in their order. */
  predicate SubsequenceOf<T(==)>(r: seq<T>, s: seq<T>)
    decreases |s|
  {
    r == [] || (s != [] && (if r[0] == s[0] then SubsequenceOf(r[1..], s[1..]) else SubsequenceOf(r, s[1..])))
  }

  /** Every sequence is a subsequence of itself. */
  lemma {:induction false} SubsequenceRefl<T>(s: seq<T>)
    ensures SubsequenceOf(s, s)
    decreases |s|
  {
    if s != [] {
      SubsequenceRefl(s[1..]);
    }
  }

  /** `s.filter(keep)` */
  function Filter<T>(s: seq<T>, keep: T -> bool): (r: seq<T>)
    ensures |r| <= |s|
    decreases |s|
  {
    if |s| == 0 then [] else (if keep(s[0]) then [s[0]] else []) + Filter(s[1..], keep)
  }

  /** Filtering one more element at the end. */
  lemma {:induction false} FilterSnoc<T>(s: seq<T>, x: T, keep: T -> bool)
    ensures Filter(s + [x], keep) == Filter(s, keep) + (if keep(x) then [x] else [])
    decreases |s|
  {
    if |s| > 0 {
      FilterSnoc(s[1..], x, keep);
      assert (s + [x])[1..] == s[1..] + [x];
    } else {
      assert s + [x] == [x];
    }
  }

  /** An element survives the filter iff it was there and passes. */
  lemma {:induction false} FilterMembers<T>(s: seq<T>, keep: T -> bool, x: T)
    ensures x in Filter(s, keep) <==> x in s && keep(x)
    decreases |s|
  {
    if |s| > 0 {
      FilterMembers(s[1..], keep, x);
      assert s == [s[0]] + s[1..];
    }
  }

  /** The filter keeps order. */
  lemma {:induction false} FilterInOrder<T>(s: seq<T>, keep: T -> bool)
    ensures SubsequenceOf(Filter(s, keep), s)
    decreases |s|
  {
    if |s| > 0 {
      FilterInOrder(s[1..], keep);
      if keep(s[0]) {
        var r := Filter(s, keep);
        assert r == [s[0]] + Filter(s[1..], keep);
        assert r[0] == s[0] && r[1..] == Filter(s[1..], keep);

      } else {
        SubsequenceSkip(Filter(s[1..], keep), s[0], s[1..]);
        assert [s[0]] + s[1..] == s;
        assert Filter(s, keep) == Filter(s[1..], keep);
        assert SubsequenceOf(Filter(s[1..], keep), [s[0]] + s[1..]);
      }
    }
  }

  /** A subsequence of `s` is one of `[x] + s` too. */
  lemma {:induction false} SubsequenceSkip<T>(r: seq<T>, x: T, s: seq<T>)
    requires SubsequenceOf(r, s)
    ensures SubsequenceOf(r, [x] + s)
    decreases |s|, 1
  {
    assert ([x] + s)[1..] == s;
    if r != [] && r[0] == x {
      SubsequenceDrop(r, s);
    }
  }

  /** A subsequence without its head is still a subsequence. */
  lemma {:induction false} SubsequenceDrop<T>(r: seq<T>, s: seq<T>)
    requires r != [] && SubsequenceOf(r, s)
    ensures SubsequenceOf(r[1..], s)
    decreases |s|, 0
  {
    if r[0] != s[0] {
      SubsequenceDrop(r, s[1..]);
    }
    if r[1..] != [] {
      SubsequenceSkip(r[1..], s[0], s[1..]);
      assert [s[0]] + s[1..] == s;
    }
  }

  /** Nothing is dropped iff every element passes. */
  lemma {:induction false} FilterKeepsAll<T>(s: seq<T>, keep: T -> bool)
    ensures |Filter(s, keep)| == |s| <==> forall i :: 0 <= i < |s| ==> keep(s[i])
    ensures |Filter(s, keep)| == |s| ==> Filter(s, keep) == s
    decreases |s|
  {
    if |s| > 0 {
      FilterKeepsAll(s[1..], keep);
      if forall i :: 0 <= i < |s| ==> keep(s[i]) {
        assert forall i :: 0 <= i < |s| - 1 ==> keep(s[1..][i]) by {
          forall i | 0 <= i < |s| - 1 ensures keep(s[1..][i]) {
            assert s[1..][i] == s[i + 1];
          }
        }
      }
      if |Filter(s, keep)| == |s| {
        assert keep(s[0]);
        forall i | 1 <= i < |s| ensures keep(s[i]) {
          assert s[i] == s[1..][i - 1];
        }
      }
    }
  }
}
