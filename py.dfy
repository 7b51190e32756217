/** The Python 2 byte-string and dictionary builtins the two transformations use,
    written out with Python's own semantics: `str.split(sep)`, `str.strip(chars)`,
    `str.replace(old, new)` and `dict(zip(keys, values))`. `Join` is `sep.join(parts)`,
    the inverse that pins `Split` down. */
module Py {

  /** The characters Python 2's `str.strip()` (no argument) removes: ASCII whitespace. */
  const Whitespace: set<char> := {' ', '\t', '\n', '\r', '\U{0B}', '\U{0C}'}

  /** `sep.join(parts)`. */
  function Join(parts: seq<string>, sep: char): string
  {
    if |parts| == 0 then ""
    else if |parts| == 1 then parts[0]
    else parts[0] + [sep] + Join(parts[1..], sep)
  }

  /** `s.split(sep)` with an explicit one-character separator: consecutive separators
      give empty tokens and the result always has at least one token. The
      ensures clauses determine the result (see SplitJoin). */
  function Split(s: string, sep: char): (r: seq<string>)
    ensures |r| >= 1
    ensures forall i :: 0 <= i < |r| ==> sep !in r[i]
    ensures Join(r, sep) == s
    decreases |s|
  {
    if s == [] then [""]
    else
      var rest := Split(s[1..], sep);
      if s[0] == sep then [""] + rest
      else
        assert Join(rest, sep) == rest[0] + Join(rest, sep)[|rest[0]|..];
        [[s[0]] + rest[0]] + rest[1..]
  }

  lemma {:induction false} SplitNoSep(a: string, sep: char)
    requires sep !in a
    ensures Split(a, sep) == [a]
    decreases |a|
  {
    if a != [] {
      SplitNoSep(a[1..], sep);
    }
  }

  lemma {:induction false} SplitPrefix(a: string, t: string, sep: char)
    requires sep !in a
    ensures Split(a + [sep] + t, sep) == [a] + Split(t, sep)
    decreases |a|
  {
    var s := a + [sep] + t;
    if a == [] {
      assert s[0] == sep && s[1..] == t;
    } else {
      assert s[0] == a[0] && s[1..] == a[1..] + [sep] + t;
      SplitPrefix(a[1..], t, sep);
      assert [a[0]] + a[1..] == a;
    }
  }

  /** Splitting a joined list of separator-free tokens gives the tokens back. */
  lemma {:induction false} SplitJoin(parts: seq<string>, sep: char)
    requires |parts| >= 1
    requires forall i :: 0 <= i < |parts| ==> sep !in parts[i]
    ensures Split(Join(parts, sep), sep) == parts
    decreases |parts|
  {
    if |parts| == 1 {
      SplitNoSep(parts[0], sep);
    } else {
      SplitJoin(parts[1..], sep);
      SplitPrefix(parts[0], Join(parts[1..], sep), sep);
    }
  }

  /** A character that is neither the separator nor in any part is not in the joined string. */
  lemma {:induction false} JoinAvoids(parts: seq<string>, sep: char, c: char)
    requires c != sep
    requires forall i :: 0 <= i < |parts| ==> c !in parts[i]
    ensures c !in Join(parts, sep)
    decreases |parts|
  {
    if |parts| > 1 {
      JoinAvoids(parts[1..], sep, c);
      assert c !in parts[0];
    }
  }

  /** `s.lstrip(chars)`: the longest suffix of `s` whose first character is not in `cs`. */
  function LStrip(s: string, cs: set<char>): (r: string)
    ensures |r| <= |s| && r == s[|s| - |r|..]
    ensures forall i :: 0 <= i < |s| - |r| ==> s[i] in cs
    ensures r != [] ==> r[0] !in cs
    decreases |s|
  {
    if s != [] && s[0] in cs then LStrip(s[1..], cs) else s
  }

  /** `s.rstrip(chars)`: the longest prefix of `s` whose last character is not in `cs`. */
  function RStrip(s: string, cs: set<char>): (r: string)
    ensures |r| <= |s| && r == s[..|r|]
    ensures forall i :: |r| <= i < |s| ==> s[i] in cs
    ensures r != [] ==> r[|r| - 1] !in cs
    decreases |s|
  {
    if s != [] && s[|s| - 1] in cs then RStrip(s[..|s| - 1], cs) else s
  }

  /** `s.strip(chars)`: removes characters of `cs` from both ends. */
  function Strip(s: string, cs: set<char>): (r: string)
    ensures |r| <= |s|
    ensures r != [] ==> r[0] !in cs && r[|r| - 1] !in cs
    ensures s == [] || (s[0] !in cs && s[|s| - 1] !in cs) ==> r == s
  {
    RStrip(LStrip(s, cs), cs)
  }

  /** Stripping a character off the right end of a string before stripping changes nothing. */
  lemma StripDropsTrailing(s: string, c: char, cs: set<char>)
    requires c in cs
    requires s == [] || s[0] !in cs
    ensures Strip(s + [c], cs) == Strip(s, cs)
  {
    var t := s + [c];
    assert t[..|t| - 1] == s;
    if s == [] {
      assert t == [c] && t[1..] == [];
    } else {
      assert t[0] == s[0];
    }
  }

  /** A string whose two ends survive stripping is left whole, whatever it ends with. */
  lemma StripKeepsConcat(p: string, t: string, cs: set<char>)
    requires p != [] && p[0] !in cs
    requires if t == [] then p[|p| - 1] !in cs else t[|t| - 1] !in cs
    ensures Strip(p + t, cs) == p + t
  {
    var s := p + t;
    assert s[0] == p[0];
    assert s[|s| - 1] == if t == [] then p[|p| - 1] else t[|t| - 1];
  }

  /** `pat` occurs in `s` starting at index `i`. */
  predicate OccursAt(s: string, pat: string, i: int)
  {
    0 <= i && i + |pat| <= |s| && s[i..i + |pat|] == pat
  }

  /** `s.replace(pat, rep)` for a non-empty pattern: matches are found left to right
      and do not overlap. */
  function Replace(s: string, pat: string, rep: string): (r: string)
    requires pat != []
    ensures (forall i :: 0 <= i <= |s| - |pat| ==> !OccursAt(s, pat, i)) ==> r == s
    ensures rep == [] ==> |r| <= |s|
    decreases |s|
  {
    if |s| < |pat| then s
    else if s[..|pat|] == pat then
      assert OccursAt(s, pat, 0);
      rep + Replace(s[|pat|..], pat, rep)
    else
      assert forall i :: 0 <= i <= |s| - 1 - |pat| ==>
        (OccursAt(s[1..], pat, i) ==> OccursAt(s, pat, i + 1)) by {
        forall i | 0 <= i <= |s| - 1 - |pat| && OccursAt(s[1..], pat, i)
          ensures OccursAt(s, pat, i + 1)
        {
          assert s[1..][i..i + |pat|] == s[i + 1..i + 1 + |pat|];
        }
      }
      [s[0]] + Replace(s[1..], pat, rep)
  }

  /** A string that does not contain the first character of `pat` is left unchanged. */
  lemma ReplaceAbsent(s: string, pat: string, rep: string)
    requires pat != [] && pat[0] !in s
    ensures Replace(s, pat, rep) == s
  {
    forall i | 0 <= i <= |s| - |pat|
      ensures !OccursAt(s, pat, i)
    {
      assert s[i] in s;
    }
  }

  /** A match at the start is replaced and the scan resumes after it. */
  lemma ReplaceLeading(pat: string, t: string, rep: string)
    requires pat != []
    ensures Replace(pat + t, pat, rep) == rep + Replace(t, pat, rep)
    ensures rep == [] ==> Replace(pat + t, pat, rep) == Replace(t, pat, rep)
  {
    var s := pat + t;
    assert s[..|pat|] == pat && s[|pat|..] == t;
    assert [] + Replace(t, pat, rep) == Replace(t, pat, rep);
  }

  /** Where no match starts at the front, the first character is kept and the scan
      moves on. */
  lemma ReplaceSkip(s: string, pat: string, rep: string)
    requires pat != [] && s != [] && !OccursAt(s, pat, 0)
    ensures Replace(s, pat, rep) == [s[0]] + Replace(s[1..], pat, rep)
  {
  }

  /** A match in the tail is a match one position later in the whole string. */
  lemma OccursShift(s: string, pat: string, i: int)
    requires s != [] && OccursAt(s[1..], pat, i)
    ensures OccursAt(s, pat, i + 1)
  {
    assert s[1..][i..i + |pat|] == s[i + 1..i + 1 + |pat|];
  }

  /** No match before the end of `a` stays so after dropping `a`'s first character. */
  lemma NoEarlyMatchTail(a: string, pat: string, t: string)
    requires a != []
    requires forall i :: 0 <= i < |a| ==> !OccursAt(a + pat + t, pat, i)
    ensures forall i :: 0 <= i < |a| - 1 ==> !OccursAt(a[1..] + pat + t, pat, i)
  {
    var s := a + pat + t;
    assert s[1..] == a[1..] + pat + t;
    forall i | 0 <= i < |a| - 1
      ensures !OccursAt(s[1..], pat, i)
    {
      if OccursAt(s[1..], pat, i) {
        OccursShift(s, pat, i);
      }
    }
  }

  lemma DropFirst(a: string, b: string, c: string)
    requires a != []
    ensures (a + b + c)[0] == a[0] && (a + b + c)[1..] == a[1..] + b + c
    ensures [a[0]] + (a[1..] + b + c) == a + b + c
  {
  }

  /** The first match is replaced and the scan resumes right after it. With the first
      ensures of Replace, for a string without a match, this determines `Replace`. */
  lemma {:induction false} ReplaceFirstMatch(a: string, pat: string, t: string, rep: string)
    requires pat != []
    requires forall i :: 0 <= i < |a| ==> !OccursAt(a + pat + t, pat, i)
    ensures Replace(a + pat + t, pat, rep) == a + rep + Replace(t, pat, rep)
    decreases |a|
  {
    var s := a + pat + t;
    if a == [] {
      assert s == pat + t;
      ReplaceLeading(pat, t, rep);
    } else {
      var r := Replace(t, pat, rep);
      assert Replace(a[1..] + pat + t, pat, rep) == a[1..] + rep + r by {
        NoEarlyMatchTail(a, pat, t);
        ReplaceFirstMatch(a[1..], pat, t, rep);
      }
      assert Replace(s, pat, rep) == [a[0]] + Replace(a[1..] + pat + t, pat, rep) by {
        DropFirst(a, pat, t);
        ReplaceSkip(s, pat, rep);
      }
      DropFirst(a, rep, r);
    }
  }

  function Min(a: int, b: int): int
  {
    if a < b then a else b
  }

  /** No key is listed twice. */
  predicate Distinct<K(==)>(keys: seq<K>)
  {
    forall i, j :: 0 <= i < j < |keys| ==> keys[i] != keys[j]
  }

  /** The first key of a list without repeats is not among the rest, which has none either. */
  lemma DistinctTail<K>(keys: seq<K>)
    requires keys != [] && Distinct(keys)
    ensures keys[0] !in keys[1..] && Distinct(keys[1..])
  {
    assert forall j :: 0 <= j < |keys| - 1 ==> keys[1..][j] == keys[j + 1];
  }

  /** `dict(zip(keys, values))`: pairs are taken positionally up to the shorter list
      and extra elements of either list are dropped; the pairs are inserted in order,
      so a later duplicate key overwrites an earlier one. */
  function ZipDict<K(==), V>(keys: seq<K>, values: seq<V>): (m: map<K, V>)
    ensures forall i :: 0 <= i < |keys| && i < |values| ==> keys[i] in m
    ensures forall k :: k in m ==> k in keys[..Min(|keys|, |values|)]
    ensures Distinct(keys) ==> forall i :: 0 <= i < |keys| && i < |values| ==> m[keys[i]] == values[i]
    decreases |keys|
  {
    if keys == [] || values == [] then map[]
    else
      var m := ZipDict(keys[1..], values[1..]);
      assert keys[..Min(|keys|, |values|)] == [keys[0]] + keys[1..][..Min(|keys| - 1, |values| - 1)];
      assert Distinct(keys) ==> keys[0] !in m && Distinct(keys[1..]) by {
        if Distinct(keys) { DistinctTail(keys); }
      }
      map[keys[0] := values[0]] + m
  }
}
