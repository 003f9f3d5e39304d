/** The Python string operations the current engine applies to the free-text
    pay frequency before testing it: `strip()`, `lower()` and the substring
    test `p in s`. */
module Text {

  /** `p in s` on Python strings: p occurs in s as a contiguous block. */
  predicate Contains(s: string, p: string)
    decreases |s|
  {
    |p| <= |s| && (s[..|p|] == p || (0 < |s| && Contains(s[1..], p)))
  }

  /** p occurs in s starting at index i. */
  ghost predicate OccursAt(s: string, p: string, i: int)
  {
    0 <= i && i + |p| <= |s| && s[i..i + |p|] == p
  }

  /** The recursive test finds p exactly when p occurs somewhere in s. */
  lemma {:induction false} ContainsIffOccurs(s: string, p: string)
    ensures Contains(s, p) <==> exists i :: OccursAt(s, p, i)
    decreases |s|
  {
    if |s| < |p| {
      forall i | OccursAt(s, p, i) ensures false { }
    } else if s[..|p|] == p {
      assert OccursAt(s, p, 0);
    } else {
      assert 0 < |s|;
      ContainsIffOccurs(s[1..], p);
      if Contains(s[1..], p) {
        var i :| OccursAt(s[1..], p, i);
        assert s[1..][i..i + |p|] == s[i + 1..i + 1 + |p|];
        assert OccursAt(s, p, i + 1);
      } else {
        forall i | OccursAt(s, p, i) ensures false {
          if 0 < i {
            assert s[1..][i - 1..i - 1 + |p|] == s[i..i + |p|];
            assert OccursAt(s[1..], p, i - 1);
          }
        }
      }
    }
  }

  /** The characters `str.strip()` removes, restricted to ASCII: space,
      tab, line feed, vertical tab, form feed, carriage return and the
      separators 0x1C to 0x1F. */
  predicate IsSpace(c: char)
  {
    c == ' ' || (9 <= c as int <= 13) || (28 <= c as int <= 31)
  }

  /** `lower()` on one character, restricted to ASCII. */
  function LowerChar(c: char): (r: char)
    ensures IsSpace(r) <==> IsSpace(c)
  {
    if 'A' <= c <= 'Z' then (c as int - 'A' as int + 'a' as int) as char else c
  }

  /** `s.lower()`. */
  function Lower(s: string): (r: string)
    ensures |r| == |s|
  {
    if s == [] then [] else [LowerChar(s[0])] + Lower(s[1..])
  }

  /** Lowering keeps the length and lowers each character in place. */
  lemma {:induction false} LowerSpec(s: string)
    ensures |Lower(s)| == |s|
    ensures forall i :: 0 <= i < |s| ==> Lower(s)[i] == LowerChar(s[i])
    decreases |s|
  {
    if s != [] {
      LowerSpec(s[1..]);
      assert Lower(s) == [LowerChar(s[0])] + Lower(s[1..]);
      forall i | 0 < i < |s| ensures Lower(s)[i] == LowerChar(s[i]) {
        assert Lower(s)[i] == Lower(s[1..])[i - 1];
        assert s[1..][i - 1] == s[i];
      }
    }
  }

  /** Drops leading whitespace. */
  function TrimStart(s: string): string
    decreases |s|
  {
    if s != [] && IsSpace(s[0]) then TrimStart(s[1..]) else s
  }

  /** The result of dropping leading whitespace is a suffix of s, everything
      cut off is whitespace, and it does not start with whitespace. */
  lemma {:induction false} TrimStartSpec(s: string)
    ensures |TrimStart(s)| <= |s| && TrimStart(s) == s[|s| - |TrimStart(s)|..]
    ensures forall i :: 0 <= i < |s| - |TrimStart(s)| ==> IsSpace(s[i])
    ensures TrimStart(s) != [] ==> !IsSpace(TrimStart(s)[0])
    decreases |s|
  {
    if s != [] && IsSpace(s[0]) {
      var t := s[1..];
      TrimStartSpec(t);
      assert TrimStart(s) == TrimStart(t);
      assert t[|t| - |TrimStart(t)|..] == s[|s| - |TrimStart(t)|..];
      forall i | 0 < i < |s| - |TrimStart(s)| ensures IsSpace(s[i]) {
        assert t[i - 1] == s[i];
      }
    }
  }

  /** Drops trailing whitespace. */
  function TrimEnd(s: string): string
    decreases |s|
  {
    if s != [] && IsSpace(s[|s| - 1]) then TrimEnd(s[..|s| - 1]) else s
  }

  /** The result of dropping trailing whitespace is a prefix of s,
      everything cut off is whitespace, and it does not end with
      whitespace. */
  lemma {:induction false} TrimEndSpec(s: string)
    ensures |TrimEnd(s)| <= |s| && TrimEnd(s) == s[..|TrimEnd(s)|]
    ensures forall i :: |TrimEnd(s)| <= i < |s| ==> IsSpace(s[i])
    ensures TrimEnd(s) != [] ==> !IsSpace(TrimEnd(s)[|TrimEnd(s)| - 1])
    decreases |s|
  {
    if s != [] && IsSpace(s[|s| - 1]) {
      var t := s[..|s| - 1];
      TrimEndSpec(t);
      assert TrimEnd(s) == TrimEnd(t);
      assert t[..|TrimEnd(t)|] == s[..|TrimEnd(t)|];
      forall i | |TrimEnd(s)| <= i < |s| - 1 ensures IsSpace(s[i]) {
        assert t[i] == s[i];
      }
    }
  }

  /** `s.strip()`. */
  function Strip(s: string): string
  {
    TrimEnd(TrimStart(s))
  }

  /** A slice of a slice is a slice of the whole. */
  lemma SliceOfSlice(s: string, a: int, b: int, c: int, d: int)
    requires 0 <= a <= b <= |s| && 0 <= c <= d <= b - a
    ensures s[a..b][c..d] == s[a + c..a + d]
  {
    assert forall k :: 0 <= k < d - c ==> s[a..b][c..d][k] == s[a + c..a + d][k];
  }

  /** An occurrence inside a slice is an occurrence in the whole. */
  lemma OccursInSlice(s: string, p: string, a: int, b: int, j: int)
    requires 0 <= a <= b <= |s|
    requires OccursAt(s[a..b], p, j)
    ensures OccursAt(s, p, a + j)
  {
    SliceOfSlice(s, a, b, j, j + |p|);
  }

  /** Lowering commutes with taking a slice. */
  lemma LowerSlice(s: string, a: int, b: int)
    requires 0 <= a <= b <= |s|
    ensures Lower(s[a..b]) == Lower(s)[a..b]
  {
    LowerSpec(s);
    LowerSpec(s[a..b]);
    forall k | 0 <= k < b - a ensures Lower(s[a..b])[k] == Lower(s)[a..b][k] {
      assert s[a..b][k] == s[a + k];
    }
  }

  /** An occurrence in the whole that lies inside a slice is an occurrence
      in the slice. */
  lemma OccursWithinSlice(s: string, p: string, a: int, b: int, i: int)
    requires 0 <= a <= i && i + |p| <= b <= |s|
    requires OccursAt(s, p, i)
    ensures OccursAt(s[a..b], p, i - a)
  {
    SliceOfSlice(s, a, b, i - a, i - a + |p|);
  }

  /** An occurrence of a word that neither starts nor ends with whitespace,
      in a lowered string, lies inside any slice outside which the string
      holds only whitespace. */
  lemma OccursInsideSpaces(s: string, p: string, a: int, b: int, i: int)
    requires 0 < |p| && !IsSpace(p[0]) && !IsSpace(p[|p| - 1])
    requires 0 <= a <= b <= |s|
    requires forall k :: 0 <= k < a ==> IsSpace(s[k])
    requires forall k :: b <= k < |s| ==> IsSpace(s[k])
    requires OccursAt(Lower(s), p, i)
    ensures a <= i && i + |p| <= b
  {
    var ls := Lower(s);
    LowerSpec(s);
    assert ls[i] == ls[i..i + |p|][0] == p[0];
    assert ls[i + |p| - 1] == ls[i..i + |p|][|p| - 1] == p[|p| - 1];
    assert !IsSpace(s[i]) && !IsSpace(s[i + |p| - 1]);
  }

  /** Stripping before lowering never changes whether a word that neither
      starts nor ends with whitespace is found: the test on the normalised
      pay frequency is the test on the lowered raw string. */
  lemma ContainsIgnoresStrip(s: string, p: string)
    requires 0 < |p| && !IsSpace(p[0]) && !IsSpace(p[|p| - 1])
    ensures Contains(Lower(Strip(s)), p) <==> Contains(Lower(s), p)
  {
    var t := TrimStart(s);
    TrimStartSpec(s);
    TrimEndSpec(t);
    LowerSpec(s);
    var a := |s| - |t|;
    var b := a + |Strip(s)|;
    assert Strip(s) == s[a..b];
    assert forall k :: b <= k < |s| ==> IsSpace(s[k]) by {
      forall k | b <= k < |s| ensures IsSpace(s[k]) {
        assert s[k] == t[k - a];
      }
    }
    LowerSlice(s, a, b);
    var ls, lt := Lower(s), Lower(Strip(s));
    ContainsIffOccurs(ls, p);
    ContainsIffOccurs(lt, p);
    if Contains(ls, p) {
      var i :| OccursAt(ls, p, i);
      OccursInsideSpaces(s, p, a, b, i);
      OccursWithinSlice(ls, p, a, b, i);
    }
    if Contains(lt, p) {
      var j :| OccursAt(lt, p, j);
      assert lt == ls[a..b];
      OccursInSlice(ls, p, a, b, j);
    }
  }

  /** Lowering leaves a string without capital letters unchanged. */
  lemma LowerKeepsLowercase(s: string)
    requires forall i :: 0 <= i < |s| ==> !('A' <= s[i] <= 'Z')
    ensures Lower(s) == s
  {
    LowerSpec(s);
  }

  /** A word whose first letter does not occur in s is not found in s. */
  lemma AbsentFirstLetter(s: string, p: string)
    requires 0 < |p|
    requires forall i :: 0 <= i < |s| ==> s[i] != p[0]
    ensures !Contains(s, p)
  {
    ContainsIffOccurs(s, p);
    forall i | OccursAt(s, p, i) ensures false {
    }
  }
}
