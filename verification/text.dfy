/** String helpers shared by the prompt builders: join, whitespace trimming,
    substring search and ASCII lower-casing. */
module Text {

  /** Python's `sep.join(parts)`. */
  function Join(parts: seq<string>, sep: string): string
  {
    if |parts| == 0 then ""
    else if |parts| == 1 then parts[0]
    else parts[0] + sep + Join(parts[1..], sep)
  }

  /** Joining one more part appends the separator and that part. */
  lemma {:induction false} JoinSnoc(parts: seq<string>, p: string, sep: string)
    requires parts != []
    ensures Join(parts + [p], sep) == Join(parts, sep) + sep + p
  {
    if |parts| == 1 {
      assert (parts + [p])[1..] == [p];
    } else {
      assert (parts + [p])[1..] == parts[1..] + [p];
      JoinSnoc(parts[1..], p, sep);
    }
  }

  /** The concatenation of all `pieces`, in order (an f-string with its parts filled in). */
  function Concat(pieces: seq<string>): string
  {
    if pieces == [] then "" else pieces[0] + Concat(pieces[1..])
  }

  /** Concatenating one more piece at the end. */
  lemma {:induction false} ConcatSnoc(pieces: seq<string>, x: string)
    ensures Concat(pieces + [x]) == Concat(pieces) + x
  {
    if pieces != [] {
      assert (pieces + [x])[1..] == pieces[1..] + [x];
      ConcatSnoc(pieces[1..], x);
    }
  }

  /** Appending eleven texts one after another is concatenating them as pieces. */
  lemma ConcatEleven(p0: string, p1: string, p2: string, p3: string, p4: string, p5: string, p6: string,
                     p7: string, p8: string, p9: string, p10: string)
    ensures p0 + p1 + p2 + p3 + p4 + p5 + p6 + p7 + p8 + p9 + p10
         == Concat([p0, p1, p2, p3, p4, p5, p6, p7, p8, p9, p10])
  {
    var ps := [p0, p1, p2, p3, p4, p5, p6, p7, p8, p9, p10];
    assert ps[..0] == [];
    ConcatPrefixGrows(ps, 1);
    ConcatPrefixGrows(ps, 2);
    ConcatPrefixGrows(ps, 3);
    ConcatPrefixGrows(ps, 4);
    ConcatPrefixGrows(ps, 5);
    ConcatPrefixGrows(ps, 6);
    ConcatPrefixGrows(ps, 7);
    ConcatPrefixGrows(ps, 8);
    ConcatPrefixGrows(ps, 9);
    ConcatPrefixGrows(ps, 10);
    ConcatPrefixGrows(ps, 11);
    assert ps[..11] == ps;
  }

  /** The first `n` pieces are the first `n - 1` followed by piece `n - 1`. */
  lemma ConcatPrefixGrows(pieces: seq<string>, n: int)
    requires 0 < n <= |pieces|
    ensures Concat(pieces[..n]) == Concat(pieces[..n - 1]) + pieces[n - 1]
  {
    assert pieces[..n] == pieces[..n - 1] + [pieces[n - 1]];
    ConcatSnoc(pieces[..n - 1], pieces[n - 1]);
  }

  /** Piece `i` begins right after the concatenation of the pieces before it. */
  lemma {:induction false} ConcatPieceAt(pieces: seq<string>, i: int)
    requires 0 <= i < |pieces|
    ensures OccursAt(Concat(pieces), pieces[i], |Concat(pieces[..i])|)
  {
    var c := Concat(pieces);
    if i == 0 {
      assert c[..|pieces[0]|] == pieces[0];
    } else {
      var rest := pieces[1..];
      ConcatPieceAt(rest, i - 1);
      assert pieces[..i][1..] == rest[..i - 1];
      var k := |Concat(rest[..i - 1])|;
      assert c == pieces[0] + Concat(rest);
      assert c[|pieces[0]| + k..|pieces[0]| + k + |pieces[i]|] == Concat(rest)[k..k + |pieces[i]|];
    }
  }

  /** `x` occurs in `s` starting at index `k`. */
  predicate OccursAt(s: string, x: string, k: int)
  {
    0 <= k && k + |x| <= |s| && s[k..k + |x|] == x
  }

  /** Python's `x in s` for strings. */
  predicate Contains(s: string, x: string)
  {
    exists k :: 0 <= k <= |s| - |x| && OccursAt(s, x, k)
  }

  lemma OccursAtContains(s: string, x: string, k: int)
    requires OccursAt(s, x, k)
    ensures Contains(s, x)
  {
  }

  /** Whatever occurs inside `m` occurs inside `a + m + b`. */
  lemma ContainsWithin(a: string, m: string, b: string, x: string)
    requires Contains(m, x)
    ensures Contains(a + m + b, x)
  {
    var k :| 0 <= k <= |m| - |x| && OccursAt(m, x, k);
    var s := a + m + b;
    assert |s| == |a| + |m| + |b|;
    assert s[|a| + k..|a| + k + |x|] == m[k..k + |x|];
    OccursAtContains(s, x, |a| + k);
  }

  /** An occurrence inside an occurrence is an occurrence. */
  lemma ContainsTransitive(s: string, m: string, x: string)
    requires Contains(s, m) && Contains(m, x)
    ensures Contains(s, x)
  {
    var i :| 0 <= i <= |s| - |m| && OccursAt(s, m, i);
    var j :| 0 <= j <= |m| - |x| && OccursAt(m, x, j);
    forall k | 0 <= k < |x|
      ensures s[i + j + k] == x[k]
    {
      assert x[k] == m[j + k] == s[i + j + k];
    }
    assert s[i + j..i + j + |x|] == x;
    OccursAtContains(s, x, i + j);
  }

  /** Every part of a join occurs in it. */
  lemma {:induction false} JoinContainsPart(parts: seq<string>, sep: string, i: int)
    requires 0 <= i < |parts|
    ensures Contains(Join(parts, sep), parts[i])
  {
    if |parts| == 1 {
      OccursAtContains(parts[0], parts[0], 0);
    } else if i == 0 {
      var j := Join(parts, sep);
      assert j[0..|parts[0]|] == parts[0];
      OccursAtContains(j, parts[0], 0);
    } else {
      JoinContainsPart(parts[1..], sep, i - 1);
      ContainsWithin(parts[0] + sep, Join(parts[1..], sep), "", parts[i]);
      assert parts[0] + sep + Join(parts[1..], sep) + "" == Join(parts, sep);
    }
  }

  /** The ASCII characters Python's `str.strip()` and `\s` match: space, tab,
      line feed, vertical tab, form feed, carriage return and the four separators
      U+001C to U+001F. */
  predicate IsSpace(c: char)
  {
    c == ' ' || c == '\t' || c == '\n' || c == '\r' || c == '\U{0B}' || c == '\U{0C}'
    || ('\U{1C}' <= c <= '\U{1F}')
  }

  /** `s.lstrip()`. */
  function TrimStart(s: string): string
  {
    if s != [] && IsSpace(s[0]) then TrimStart(s[1..]) else s
  }

  /** `lstrip` drops exactly the longest all-whitespace prefix. */
  lemma {:induction false} TrimStartDropsLeadingSpace(s: string)
    ensures var r := TrimStart(s);
      |r| <= |s| && r == s[|s| - |r|..]
      && (forall i :: 0 <= i < |s| - |r| ==> IsSpace(s[i]))
      && (r == [] || !IsSpace(r[0]))
  {
    if s != [] && IsSpace(s[0]) {
      var t := s[1..];
      var r := TrimStart(t);
      TrimStartDropsLeadingSpace(t);
      assert r == s[|s| - |r|..];
      forall i | 0 <= i < |s| - |r|
        ensures IsSpace(s[i])
      {
        if i > 0 {
          assert s[i] == t[i - 1];
        }
      }
    }
  }

  /** `s.rstrip()`. */
  function TrimEnd(s: string): string
  {
    if s != [] && IsSpace(s[|s| - 1]) then TrimEnd(s[..|s| - 1]) else s
  }

  /** `rstrip` drops exactly the longest all-whitespace suffix. */
  lemma {:induction false} TrimEndDropsTrailingSpace(s: string)
    ensures var r := TrimEnd(s);
      |r| <= |s| && r == s[..|r|]
      && (forall i :: |r| <= i < |s| ==> IsSpace(s[i]))
      && (r == [] || !IsSpace(r[|r| - 1]))
  {
    if s != [] && IsSpace(s[|s| - 1]) {
      var t := s[..|s| - 1];
      var r := TrimEnd(t);
      TrimEndDropsTrailingSpace(t);
      assert r == s[..|r|];
      forall i | |r| <= i < |s|
        ensures IsSpace(s[i])
      {
        if i < |s| - 1 {
          assert s[i] == t[i];
        }
      }
    }
  }

  /** No whitespace at either end. */
  predicate IsTrimmed(s: string)
  {
    s == [] || (!IsSpace(s[0]) && !IsSpace(s[|s| - 1]))
  }

  /** `s.strip()`. */
  function Trim(s: string): string
  {
    TrimEnd(TrimStart(s))
  }

  /** `strip` leaves no whitespace at either end and only removes text. */
  lemma TrimIsTrimmedPiece(s: string)
    ensures IsTrimmed(Trim(s))
    ensures Contains(s, Trim(s))
  {
    var t := TrimStart(s);
    TrimStartDropsLeadingSpace(s);
    TrimEndDropsTrailingSpace(t);
    var r := TrimEnd(t);
    if r != [] {
      assert r[0] == t[0];
    }
    SuffixPrefixOccurs(s, t, r);
  }

  lemma SuffixPrefixOccurs(s: string, t: string, r: string)
    requires |t| <= |s| && t == s[|s| - |t|..]
    requires |r| <= |t| && r == t[..|r|]
    ensures Contains(s, r)
  {
    assert s[|s| - |t|..|s| - |t| + |r|] == r;
    OccursAtContains(s, r, |s| - |t|);
  }

  /** Leading whitespace does not survive `lstrip`. */
  lemma {:induction false} TrimStartSkipsSpace(sp: string, x: string)
    requires forall i :: 0 <= i < |sp| ==> IsSpace(sp[i])
    ensures TrimStart(sp + x) == TrimStart(x)
  {
    if sp != [] {
      assert (sp + x)[1..] == sp[1..] + x;
      TrimStartSkipsSpace(sp[1..], x);
    } else {
      assert sp + x == x;
    }
  }

  /** Trailing whitespace does not survive `rstrip`. */
  lemma {:induction false} TrimEndSkipsSpace(x: string, sp: string)
    requires forall i :: 0 <= i < |sp| ==> IsSpace(sp[i])
    ensures TrimEnd(x + sp) == TrimEnd(x)
  {
    if sp != [] {
      assert (x + sp)[..|x + sp| - 1] == x + sp[..|sp| - 1];
      TrimEndSkipsSpace(x, sp[..|sp| - 1]);
    } else {
      assert x + sp == x;
    }
  }

  /** Trimming text that has no whitespace at either end changes nothing. */
  lemma TrimOfTrimmed(s: string)
    requires IsTrimmed(s)
    ensures Trim(s) == s
  {
  }

  predicate StartsWith(s: string, p: string)
  {
    |p| <= |s| && s[..|p|] == p
  }

  predicate EndsWith(s: string, p: string)
  {
    |p| <= |s| && s[|s| - |p|..] == p
  }

  /** ASCII approximation of Python's `str.lower()` on one character. */
  function LowerChar(c: char): char
  {
    if 'A' <= c <= 'Z' then (c as int - 'A' as int + 'a' as int) as char else c
  }

  /** `s.lower()`, ASCII only. */
  function Lower(s: string): string
  {
    seq(|s|, i requires 0 <= i < |s| => LowerChar(s[i]))
  }

  /** Lower-casing works character by character, so it distributes over `+`. */
  lemma LowerAppend(a: string, b: string)
    ensures Lower(a + b) == Lower(a) + Lower(b)
  {
  }
}
