/** The string operations the pipeline uses: `toLowerCase`, `includes`,
    `trim` and the `/\s/g` replacement. Lower-casing is modelled on ASCII
    letters only. */
module Text {
  import opened Seqs

  function LowerChar(c: char): char
  {
    if 'A' <= c <= 'Z' then (c as int + 32) as char else c
  }

  /** `toLowerCase`: every upper-case ASCII letter replaced by its
      lower-case form, everything else kept. */
  function Lower(s: string): (r: string)
    ensures |r| == |s|
    ensures forall i :: 0 <= i < |s| ==> r[i] == LowerChar(s[i])
    ensures forall i :: 0 <= i < |r| ==> !('A' <= r[i] <= 'Z')
  {
    seq(|s|, i requires 0 <= i < |s| => LowerChar(s[i]))
  }

  /** `t` occurs in `s` starting at index `i`. */
  predicate OccursAt(s: string, t: string, i: int)
  {
    0 <= i && i + |t| <= |s| && s[i..i + |t|] == t
  }

  /** `s.includes(t)`: scan the start positions of `s` left to right. */
  predicate Contains(s: string, t: string)
    decreases |s|
  {
    (|t| <= |s| && s[..|t|] == t) || (s != [] && Contains(s[1..], t))
  }

  /** `Contains` is substring containment. */
  lemma {:induction false} ContainsIff(s: string, t: string)
    ensures Contains(s, t) <==> exists i :: OccursAt(s, t, i)
    decreases |s|
  {
    if |t| <= |s| && s[..|t|] == t {
      assert OccursAt(s, t, 0);
    } else if s != [] {
      ContainsIff(s[1..], t);
      if Contains(s[1..], t) {
        var i :| OccursAt(s[1..], t, i);
        assert s[1..][i..i + |t|] == s[i + 1..i + 1 + |t|];
        assert OccursAt(s, t, i + 1);
      }
      if exists i :: OccursAt(s, t, i) {
        var i :| OccursAt(s, t, i);
        assert i != 0;
        assert s[1..][i - 1..i - 1 + |t|] == s[i..i + |t|];
        assert OccursAt(s[1..], t, i - 1);
      }
    }
  }

  /** The characters JavaScript's `\s` class matches (and `trim` strips). */
  predicate IsSpace(c: char)
  {
    c == ' ' || c == '\t' || c == '\n' || c == '\r' || c == '\U{000B}' || c == '\U{000C}' ||
    c == '\U{00A0}' || c == '\U{1680}' || ('\U{2000}' <= c <= '\U{200A}') ||
    c == '\U{2028}' || c == '\U{2029}' || c == '\U{202F}' || c == '\U{205F}' ||
    c == '\U{3000}' || c == '\U{FEFF}'
  }

  predicate NotSpace(c: char)
  {
    !IsSpace(c)
  }

  /** `s.replace(/\s/g, '')`: the non-space characters of `s`, in order. */
  function RemoveSpaces(s: string): (r: string)
    ensures forall i :: 0 <= i < |r| ==> !IsSpace(r[i])
    ensures forall c :: !IsSpace(c) ==> multiset(r)[c] == multiset(s)[c]
    ensures IsSubsequence(r, s)
  {
    var r := Filter(s, NotSpace);
    FilterCounts(s, NotSpace);
    FilterIsSubsequence(s, NotSpace);
    assert forall i :: 0 <= i < |r| ==> r[i] in r;
    r
  }

  function TrimStart(s: string): string
    decreases |s|
  {
    if s != [] && IsSpace(s[0]) then TrimStart(s[1..]) else s
  }

  function TrimEnd(s: string): string
    decreases |s|
  {
    if s != [] && IsSpace(s[|s| - 1]) then TrimEnd(s[..|s| - 1]) else s
  }

  /** `s.trim()`: the slice of `s` left once its leading and trailing
      spaces are removed. */
  function Trim(s: string): (r: string)
    ensures r == [] || (!IsSpace(r[0]) && !IsSpace(r[|r| - 1]))
    ensures exists k, m :: TrimmedSlice(s, r, k, m)
  {
    TrimStartShape(s);
    TrimEndShape(TrimStart(s));
    TrimSlice(s);
    TrimEnd(TrimStart(s))
  }

  /** `r` is `s[k..m]`, and everything of `s` outside it is a space. */
  predicate TrimmedSlice(s: string, r: string, k: int, m: int)
  {
    0 <= k <= m <= |s| && r == s[k..m] &&
    (forall i :: 0 <= i < k ==> IsSpace(s[i])) &&
    (forall i :: m <= i < |s| ==> IsSpace(s[i]))
  }

  lemma TrimSlice(s: string)
    ensures exists k, m :: TrimmedSlice(s, TrimEnd(TrimStart(s)), k, m)
  {
    TrimStartShape(s);
    var k :| 0 <= k <= |s| && TrimStart(s) == s[k..] && forall i :: 0 <= i < k ==> IsSpace(s[i]);
    var t := s[k..];
    TrimEndSlice(t);
    var m :| 0 <= m <= |t| && TrimEnd(t) == t[..m] && forall i :: m <= i < |t| ==> IsSpace(t[i]);
    assert TrimEnd(TrimStart(s)) == s[k..k + m] by {
      assert t[..m] == s[k..k + m];
    }
    assert forall i :: k + m <= i < |s| ==> IsSpace(s[i]) by {
      assert forall i :: k + m <= i < |s| ==> s[i] == t[i - k];
    }
    assert TrimmedSlice(s, TrimEnd(TrimStart(s)), k, k + m);
  }

  lemma {:induction false} TrimStartShape(s: string)
    ensures TrimStart(s) == [] || !IsSpace(TrimStart(s)[0])
    ensures exists k :: 0 <= k <= |s| && TrimStart(s) == s[k..] &&
                        forall i :: 0 <= i < k ==> IsSpace(s[i])
    decreases |s|
  {
    if s != [] && IsSpace(s[0]) {
      TrimStartShape(s[1..]);
      var k :| 0 <= k <= |s[1..]| && TrimStart(s[1..]) == s[1..][k..] &&
        forall i :: 0 <= i < k ==> IsSpace(s[1..][i]);
      assert s[1..][k..] == s[k + 1..];
      assert forall i :: 0 < i < k + 1 ==> s[i] == s[1..][i - 1];
    } else {
      assert s == s[0..];
    }
  }

  lemma {:induction false} TrimEndShape(s: string)
    requires s == [] || !IsSpace(s[0])
    ensures TrimEnd(s) == [] || (!IsSpace(TrimEnd(s)[0]) && !IsSpace(TrimEnd(s)[|TrimEnd(s)| - 1]))
    decreases |s|
  {
    if s != [] && IsSpace(s[|s| - 1]) {
      TrimEndShape(s[..|s| - 1]);
    }
  }

  /** `TrimEnd` keeps a prefix and drops only spaces after it. */
  lemma {:induction false} TrimEndSlice(s: string)
    ensures exists m :: 0 <= m <= |s| && TrimEnd(s) == s[..m] &&
                        forall i :: m <= i < |s| ==> IsSpace(s[i])
    decreases |s|
  {
    if s != [] && IsSpace(s[|s| - 1]) {
      var init := s[..|s| - 1];
      TrimEndSlice(init);
      var m :| 0 <= m <= |init| && TrimEnd(init) == init[..m] &&
        forall i :: m <= i < |init| ==> IsSpace(init[i]);
      assert init[..m] == s[..m];
    } else {
      assert s == s[..|s|];
    }
  }

  lemma {:induction false} RemoveSpacesTrimStart(s: string)
    ensures RemoveSpaces(TrimStart(s)) == RemoveSpaces(s)
    decreases |s|
  {
    if s != [] && IsSpace(s[0]) {
      RemoveSpacesTrimStart(s[1..]);
      assert s == [s[0]] + s[1..];
      FilterAppend([s[0]], s[1..], NotSpace);
    }
  }

  lemma {:induction false} RemoveSpacesTrimEnd(s: string)
    ensures RemoveSpaces(TrimEnd(s)) == RemoveSpaces(s)
    decreases |s|
  {
    if s != [] && IsSpace(s[|s| - 1]) {
      var init, last := s[..|s| - 1], s[|s| - 1];
      RemoveSpacesTrimEnd(init);
      assert TrimEnd(s) == TrimEnd(init);
      assert Filter([last], NotSpace) == [] by {
        assert [last][1..] == [];
      }
      calc {
        RemoveSpaces(s);
        { assert s == init + [last]; }
        Filter(init + [last], NotSpace);
        { FilterAppend(init, [last], NotSpace); }
        Filter(init, NotSpace) + Filter([last], NotSpace);
        RemoveSpaces(init);
      }
    }
  }

  /** Trimming before removing every space changes nothing: the `trim()`
      in front of `replace(/\s/g, '')` is redundant. */
  lemma RemoveSpacesTrim(s: string)
    ensures RemoveSpaces(Trim(s)) == RemoveSpaces(s)
  {
    RemoveSpacesTrimEnd(TrimStart(s));
    RemoveSpacesTrimStart(s);
  }
}
