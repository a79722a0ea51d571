/** Order-preserving selection on sequences: the value-level meaning of the
    game's "iterate in reverse and splice out the matches" loops. */
module Seqs {

  /** The elements of s for which keep holds, in their original order. */
  function Filter<T>(s: seq<T>, keep: T -> bool): (r: seq<T>)
    ensures |r| <= |s|
  {
    if s == [] then []
    else (if keep(s[0]) then [s[0]] else []) + Filter(s[1..], keep)
  }

  /** Exactly the elements that satisfy keep survive a selection. */
  lemma {:induction false} FilterMembers<T>(s: seq<T>, keep: T -> bool)
    ensures forall k :: 0 <= k < |Filter(s, keep)| ==>
      Filter(s, keep)[k] in s && keep(Filter(s, keep)[k])
    ensures forall k :: 0 <= k < |s| && keep(s[k]) ==> s[k] in Filter(s, keep)
  {
    if s != [] {
      FilterMembers(s[1..], keep);
      var rest := Filter(s[1..], keep);
      assert forall k :: 1 <= k < |s| ==> s[k] == s[1..][k - 1];
      if keep(s[0]) {
        assert Filter(s, keep) == [s[0]] + rest;
      } else {
        assert Filter(s, keep) == rest;
      }
    }
  }

  /** Unfolding a selection over the suffix that starts at i. */
  lemma FilterAt<T>(s: seq<T>, i: int, keep: T -> bool)
    requires 0 <= i < |s|
    ensures Filter(s[i..], keep) == (if keep(s[i]) then [s[i]] else []) + Filter(s[i + 1..], keep)
  {
    assert s[i..][0] == s[i];
    assert s[i..][1..] == s[i + 1..];
  }

  /** A sequence made of the prefix of s up to index i and then some tail: its
      element i is s[i], and splicing it out leaves the shorter prefix and the tail. */
  lemma SpliceAt<T>(s: seq<T>, i: int, tail: seq<T>)
    requires 0 <= i < |s|
    ensures var t := s[..i + 1] + tail;
      && |t| > i && t[i] == s[i]
      && t[..i] + t[i + 1..] == s[..i] + tail
      && t == s[..i] + ([s[i]] + tail)
  {
    var t := s[..i + 1] + tail;
    assert t[..i] == s[..i];
    assert t[i + 1..] == tail;
  }

  /** One step of a reverse splice loop over s: the current sequence is the
      untouched prefix up to index i followed by the survivors after i. Keeping
      s[i] or splicing it out leaves the untouched prefix up to i - 1 followed by
      the survivors from i on. */
  lemma SelectStep<T>(s: seq<T>, i: int, keep: T -> bool)
    requires 0 <= i < |s|
    ensures var t := s[..i + 1] + Filter(s[i + 1..], keep);
      && |t| > i && t[i] == s[i]
      && (keep(s[i]) ==> t == s[..i] + Filter(s[i..], keep))
      && (!keep(s[i]) ==> t[..i] + t[i + 1..] == s[..i] + Filter(s[i..], keep))
  {
    FilterAt(s, i, keep);
    SpliceAt(s, i, Filter(s[i + 1..], keep));
  }

  /** Selecting with a test every element passes changes nothing. */
  lemma {:induction false} FilterAll<T>(s: seq<T>, keep: T -> bool)
    requires forall x :: keep(x)
    ensures Filter(s, keep) == s
  {
    if s != [] {
      FilterAll(s[1..], keep);
      assert [s[0]] + s[1..] == s;
    }
  }

  lemma ConcatAssoc<T>(a: seq<T>, b: seq<T>, c: seq<T>)
    ensures (a + b) + c == a + (b + c)
  {
  }

  /** A selection that drops nothing is the sequence itself. */
  lemma {:induction false} FilterFull<T>(s: seq<T>, keep: T -> bool)
    ensures |Filter(s, keep)| == |s| ==> Filter(s, keep) == s
  {
    if s != [] {
      FilterFull(s[1..], keep);
    }
  }

  /** Selecting with f and then with g is selecting once with "f and g". */
  lemma {:induction false} FilterTwice<T>(s: seq<T>, f: T -> bool, g: T -> bool, h: T -> bool)
    requires forall x :: h(x) == (f(x) && g(x))
    ensures Filter(Filter(s, f), g) == Filter(s, h)
  {
    if s != [] {
      FilterTwice(s[1..], f, g, h);
      if f(s[0]) {
        assert Filter(s, f) == [s[0]] + Filter(s[1..], f);
        assert ([s[0]] + Filter(s[1..], f))[0] == s[0];
        assert ([s[0]] + Filter(s[1..], f))[1..] == Filter(s[1..], f);
      } else {
        assert Filter(s, f) == Filter(s[1..], f);
      }
    }
  }

  /** Every element is either kept or dropped, never both and never twice. */
  lemma {:induction false} FilterSplit<T>(s: seq<T>, keep: T -> bool, drop: T -> bool)
    requires forall x :: drop(x) == !keep(x)
    ensures |Filter(s, keep)| + |Filter(s, drop)| == |s|
  {
    if s != [] {
      FilterSplit(s[1..], keep, drop);
    }
  }
}
