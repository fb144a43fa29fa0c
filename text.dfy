/**
 * The few Python `str` operations the sync scripts rely on, over `seq<char>`:
 * substring search (`in`, `find`), `split` with a separator, `join`,
 * `replace`, `startswith`, `strip` and `lstrip`.
 */
module Text {
  import opened Wrappers

  /** `pat` occurs in `s` starting at index `i`. */
  predicate OccursAt(s: string, pat: string, i: nat) {
    i + |pat| <= |s| && s[i..i + |pat|] == pat
  }

  /** `s.find(pat)`: the first index at which `pat` occurs, if any. */
  function Find(s: string, pat: string): (r: Option<nat>)
    ensures r.Some? ==> OccursAt(s, pat, r.value)
    ensures r.Some? ==> forall j :: 0 <= j < r.value ==> !OccursAt(s, pat, j)
    ensures r.None? ==> forall j :: 0 <= j ==> !OccursAt(s, pat, j)
    decreases |s|
  {
    if OccursAt(s, pat, 0) then Some(0)
    else if s == [] then None
    else
      var rest := Find(s[1..], pat);
      assert forall j :: 0 <= j ==> (OccursAt(s, pat, j + 1) <==> OccursAt(s[1..], pat, j)) by {
        forall j | 0 <= j
          ensures OccursAt(s, pat, j + 1) <==> OccursAt(s[1..], pat, j)
        {
          if j + 1 + |pat| <= |s| {
            assert s[1..][j..j + |pat|] == s[j + 1..j + 1 + |pat|];
          }
        }
      }
      match rest
      case None =>
        assert forall j :: 1 <= j ==> !OccursAt(s, pat, j) by {
          forall j | 1 <= j ensures !OccursAt(s, pat, j) {
            assert !OccursAt(s[1..], pat, j - 1);
          }
        }
        None
      case Some(k) =>
        assert forall j :: 1 <= j < k + 1 ==> !OccursAt(s, pat, j) by {
          forall j | 1 <= j < k + 1 ensures !OccursAt(s, pat, j) {
            assert !OccursAt(s[1..], pat, j - 1);
          }
        }
        Some(k + 1)
  }

  /** Python's `pat in s`. */
  predicate Contains(s: string, pat: string) {
    Find(s, pat).Some?
  }

  /** `pat in s` holds exactly when `pat` occurs somewhere in `s`. */
  lemma ContainsIff(s: string, pat: string, i: nat)
    ensures OccursAt(s, pat, i) ==> Contains(s, pat)
    ensures Contains(s, pat) ==> OccursAt(s, pat, Find(s, pat).value)
  {
  }

  /** `s.startswith(p)` */
  predicate StartsWith(s: string, p: string) {
    OccursAt(s, p, 0)
  }

  /** `s.split(sep)` for a non-empty separator: the pieces between the
      non-overlapping occurrences of `sep`, scanned left to right. */
  function Split(s: string, sep: string): (parts: seq<string>)
    requires |sep| > 0
    ensures |parts| >= 1
    decreases |s|
  {
    match Find(s, sep)
    case None => [s]
    case Some(i) => [s[..i]] + Split(s[i + |sep|..], sep)
  }

  /** `sep.join(parts)` */
  function Join(parts: seq<string>, sep: string): string {
    if |parts| == 0 then ""
    else if |parts| == 1 then parts[0]
    else parts[0] + sep + Join(parts[1..], sep)
  }

  /** Joining the pieces of a split with the same separator gives the string back. */
  lemma {:induction false} JoinSplit(s: string, sep: string)
    requires |sep| > 0
    ensures Join(Split(s, sep), sep) == s
    decreases |s|
  {
    match Find(s, sep)
    case None =>
    case Some(i) =>
      var rest := s[i + |sep|..];
      var tail := Split(rest, sep);
      JoinSplit(rest, sep);
      var parts := [s[..i]] + tail;
      assert Split(s, sep) == parts;
      assert parts[0] == s[..i] && parts[1..] == tail && |parts| >= 2;
      assert Join(parts, sep) == s[..i] + sep + Join(tail, sep);
      assert s == s[..i] + sep + rest;
  }

  /** A separator character absent from `a` is not found in it. */
  lemma FindAbsent(a: string, c: char)
    requires c !in a
    ensures Find(a, [c]) == None
  {
    forall j | 0 <= j ensures !OccursAt(a, [c], j) {
      if j + 1 <= |a| {
        assert a[j..j + 1] == [a[j]];
      }
    }
  }

  /** A pattern whose first character does not occur in `a` is found first
      right after `a`. */
  lemma FindAfter(a: string, pat: string, b: string)
    requires |pat| > 0 && pat[0] !in a
    ensures Find(a + pat + b, pat) == Some(|a|)
  {
    var s := a + pat + b;
    assert s[|a|..|a| + |pat|] == pat;
    assert OccursAt(s, pat, |a|);
    forall j | 0 <= j < |a| ensures !OccursAt(s, pat, j) {
      assert s[j] == a[j] && a[j] != pat[0];
      if j + |pat| <= |s| {
        assert s[j..j + |pat|][0] == s[j];
      }
    }
    var r := Find(s, pat);
    assert r.Some? && r.value <= |a|;
  }

  lemma ConcatAssoc(a: string, b: string, c: string)
    ensures a + (b + c) == a + b + c
  {
  }

  /** A first character that does not start an occurrence moves the first
      occurrence one place on. */
  lemma FindShift(c: char, s: string, pat: string, k: nat)
    requires !OccursAt([c] + s, pat, 0) && Find(s, pat) == Some(k)
    ensures Find([c] + s, pat) == Some(k + 1)
  {
    assert ([c] + s)[1..] == s;
  }

  /** The first piece of a split is everything before the first separator. */
  lemma SplitFirst(s: string, sep: string)
    requires |sep| > 0
    ensures Split(s, sep)[0] == if Find(s, sep).Some? then s[..Find(s, sep).value] else s
  {
  }

  /** With a separator in the string there are at least two pieces, and the
      second is the first piece of what follows the first separator. */
  lemma SplitSecond(s: string, sep: string)
    requires |sep| > 0 && Contains(s, sep)
    ensures |Split(s, sep)| >= 2
    ensures Split(s, sep)[1] == Split(s[Find(s, sep).value + |sep|..], sep)[0]
  {
  }

  /** The last piece of a split on a one-character separator is what follows
      the last separator. */
  lemma {:induction false} SplitLast(a: string, c: char, b: string)
    requires c !in b
    ensures var parts := Split(a + [c] + b, [c]); parts[|parts| - 1] == b
    decreases |a|
  {
    var s := a + [c] + b;
    assert OccursAt(s, [c], |a|) by {
      assert s[|a|..|a| + 1] == [c];
    }
    var i := Find(s, [c]).value;
    assert i <= |a|;
    var rest := s[i + 1..];
    assert Split(s, [c]) == [s[..i]] + Split(rest, [c]);
    if i == |a| {
      assert rest == b;
      FindAbsent(b, c);
    } else {
      assert rest == a[i + 1..] + [c] + b;
      SplitLast(a[i + 1..], c, b);
    }
  }

  /** Splitting on a one-character separator undoes `join` when no part
      contains that character. */
  lemma {:induction false} SplitJoin(parts: seq<string>, c: char)
    requires |parts| >= 1
    requires forall i :: 0 <= i < |parts| ==> c !in parts[i]
    ensures Split(Join(parts, [c]), [c]) == parts
    decreases |parts|
  {
    if |parts| == 1 {
      FindAbsent(parts[0], c);
    } else {
      var p0 := parts[0];
      var rest := Join(parts[1..], [c]);
      var s := p0 + [c] + rest;
      assert Join(parts, [c]) == s;
      assert Find(s, [c]) == Some(|p0|) by {
        FindAfter(p0, [c], rest);
      }
      assert Split(s, [c]) == [p0] + Split(rest, [c]) by {
        assert s[..|p0|] == p0;
        assert s[|p0| + 1..] == rest;
      }
      assert Split(rest, [c]) == parts[1..] by {
        SplitJoin(parts[1..], c);
      }
      assert parts == [p0] + parts[1..];
    }
  }

  /** `s.replace(pat, rep)`: every non-overlapping occurrence, left to right. */
  function Replace(s: string, pat: string, rep: string): string
    requires |pat| > 0
  {
    Join(Split(s, pat), rep)
  }

  /** Replacing a pattern by itself changes nothing. */
  lemma ReplaceBySelf(s: string, pat: string)
    requires |pat| > 0
    ensures Replace(s, pat, pat) == s
  {
    JoinSplit(s, pat);
  }

  /** Without an occurrence, `replace` returns the string unchanged. */
  lemma ReplaceAbsent(s: string, pat: string, rep: string)
    requires |pat| > 0 && !Contains(s, pat)
    ensures Replace(s, pat, rep) == s
  {
  }

  /** With an occurrence, everything before the first one is kept, the first
      one becomes `rep`, and the rest of the string is processed the same way. */
  lemma ReplaceFirst(s: string, pat: string, rep: string, i: nat)
    requires |pat| > 0 && Find(s, pat) == Some(i)
    ensures Replace(s, pat, rep) == s[..i] + rep + Replace(s[i + |pat|..], pat, rep)
  {
    SplitAt(s, pat, i);
    JoinCons(s[..i], Split(s[i + |pat|..], pat), rep);
  }

  /** Where the separator first occurs, the split takes its first piece. */
  lemma {:induction false} SplitAt(s: string, sep: string, i: nat)
    requires |sep| > 0 && Find(s, sep) == Some(i)
    ensures Split(s, sep) == [s[..i]] + Split(s[i + |sep|..], sep)
  {
  }

  /** Joining a list with a first part puts that part and a separator first. */
  lemma JoinCons(x: string, rest: seq<string>, sep: string)
    requires |rest| >= 1
    ensures Join([x] + rest, sep) == x + sep + Join(rest, sep)
  {
    assert ([x] + rest)[1..] == rest;
  }

  /** With a single occurrence, at `i`, `replace` swaps that one and keeps
      the rest. */
  lemma ReplaceOnce(s: string, pat: string, rep: string, i: nat)
    requires |pat| > 0 && Find(s, pat) == Some(i)
    requires !Contains(s[i + |pat|..], pat)
    ensures Replace(s, pat, rep) == s[..i] + rep + s[i + |pat|..]
  {
    var t := s[i + |pat|..];
    assert Replace(s, pat, rep) == s[..i] + rep + Replace(t, pat, rep) by {
      ReplaceFirst(s, pat, rep, i);
    }
    assert Replace(t, pat, rep) == t by {
      ReplaceAbsent(t, pat, rep);
    }
  }

  /** After `replace`, the text before the first occurrence is unchanged and
      the replacement stands where the occurrence was. */
  lemma ReplaceKeepsPrefix(s: string, pat: string, rep: string, i: nat)
    requires |pat| > 0 && Find(s, pat) == Some(i)
    ensures StartsWith(Replace(s, pat, rep), s[..i])
    ensures OccursAt(Replace(s, pat, rep), rep, i)
  {
    var r := Replace(s, pat, rep);
    var tail := Replace(s[i + |pat|..], pat, rep);
    assert r == s[..i] + rep + tail by {
      ReplaceFirst(s, pat, rep, i);
    }
    assert r[..i] == s[..i];
    assert r[i..i + |rep|] == rep;
  }

  /** A prefix of an occurring pattern is contained in the string. */
  lemma ContainsPrefix(s: string, a: string, b: string, i: nat)
    requires OccursAt(s, a + b, i)
    ensures Contains(s, a)
  {
    assert s[i..i + |a|] == (a + b)[..|a|];
    ContainsIff(s, a, i);
  }

  /** What occurs in `b` is contained in `a + b`. */
  lemma ContainsAfter(a: string, b: string, e: string, j: nat)
    requires OccursAt(b, e, j)
    ensures Contains(a + b, e)
  {
    assert (a + b)[|a| + j..|a| + j + |e|] == b[j..j + |e|];
    ContainsIff(a + b, e, |a| + j);
  }

  /** The stripped string occurs inside the string. */
  lemma StripOccurs(s: string)
    ensures OccursAt(s, Strip(s), StripStart(s))
  {
  }

  /** The characters Python's `str.isspace()` accepts, which `strip()` removes. */
  predicate IsSpace(c: char) {
    || ('\t' <= c <= '\r')
    || ('\U{1C}' <= c <= ' ')
    || c == '\U{85}' || c == '\U{A0}' || c == '\U{1680}'
    || ('\U{2000}' <= c <= '\U{200A}')
    || c == '\U{2028}' || c == '\U{2029}' || c == '\U{202F}' || c == '\U{205F}' || c == '\U{3000}'
  }

  /** `s.lstrip(chars)` for an explicit set of characters. */
  function LStripChars(s: string, chars: set<char>): (r: string)
    ensures |r| <= |s| && r == s[|s| - |r|..]
    ensures forall i :: 0 <= i < |s| - |r| ==> s[i] in chars
    ensures r != [] ==> r[0] !in chars
  {
    if s != [] && s[0] in chars then LStripChars(s[1..], chars) else s
  }

  /** `s.lstrip()` */
  function LStrip(s: string): (r: string)
    ensures |r| <= |s| && r == s[|s| - |r|..]
    ensures forall i :: 0 <= i < |s| - |r| ==> IsSpace(s[i])
    ensures r != [] ==> !IsSpace(r[0])
  {
    if s != [] && IsSpace(s[0]) then LStrip(s[1..]) else s
  }

  /** `s.rstrip()` */
  function RStrip(s: string): (r: string)
    ensures |r| <= |s| && r == s[..|r|]
    ensures forall i :: |r| <= i < |s| ==> IsSpace(s[i])
    ensures r != [] ==> !IsSpace(r[|r| - 1])
  {
    if s != [] && IsSpace(s[|s| - 1]) then RStrip(s[..|s| - 1]) else s
  }

  /** Where `s.strip()` begins: the number of leading whitespace characters. */
  function StripStart(s: string): (n: nat)
    ensures n <= |s|
  {
    |s| - |LStrip(s)|
  }

  /** `s.strip()`: the longest middle slice of `s` that neither starts nor ends
      with whitespace; everything cut off is whitespace. */
  function Strip(s: string): (r: string)
    ensures StripStart(s) + |r| <= |s| && r == s[StripStart(s)..StripStart(s) + |r|]
    ensures forall k :: 0 <= k < StripStart(s) ==> IsSpace(s[k])
    ensures forall k :: StripStart(s) + |r| <= k < |s| ==> IsSpace(s[k])
    ensures r != [] ==> !IsSpace(r[0]) && !IsSpace(r[|r| - 1])
  {
    var l := LStrip(s);
    var r := RStrip(l);
    var i := |s| - |l|;
    assert r == s[i..i + |r|];
    r
  }

  /** A string with no whitespace at either end is its own `strip()`. */
  lemma StripNoop(s: string)
    requires s != [] ==> !IsSpace(s[0]) && !IsSpace(s[|s| - 1])
    ensures Strip(s) == s
  {
  }

  /** One leading blank is stripped from a string that has none at its ends. */
  lemma StripOneBlank(s: string)
    requires s != [] && !IsSpace(s[0]) && !IsSpace(s[|s| - 1])
    ensures Strip(" " + s) == s
  {
    var t := " " + s;
    assert t[1..] == s;
    assert LStrip(t) == s;
    StripNoop(s);
  }

  /** `strip()` is idempotent. */
  lemma StripIdempotent(s: string)
    ensures Strip(Strip(s)) == Strip(s)
  {
    StripNoop(Strip(s));
  }

  /** ASCII lower-casing of one character. */
  function LowerChar(c: char): char {
    if 'A' <= c <= 'Z' then (c as int + 32) as char else c
  }

  /** `s.lower()` restricted to ASCII letters. */
  function Lower(s: string): (r: string)
    ensures |r| == |s|
    ensures forall i :: 0 <= i < |s| ==> r[i] == LowerChar(s[i])
  {
    seq(|s|, i requires 0 <= i < |s| => LowerChar(s[i]))
  }

  /** A string lower-cases to a lower-case ASCII word exactly when it spells
      that word with each letter in either case. */
  lemma LowerMatches(s: string, w: string)
    requires forall i :: 0 <= i < |w| ==> 'a' <= w[i] <= 'z'
    ensures Lower(s) == w <==>
              |s| == |w| && forall i :: 0 <= i < |s| ==> s[i] == w[i] || s[i] as int == w[i] as int - 32
  {
    if Lower(s) == w {
      forall i | 0 <= i < |s| ensures s[i] == w[i] || s[i] as int == w[i] as int - 32 {
        assert LowerChar(s[i]) == w[i];
      }
    }
    if |s| == |w| && forall i :: 0 <= i < |s| ==> s[i] == w[i] || s[i] as int == w[i] as int - 32 {
      forall i | 0 <= i < |s| ensures Lower(s)[i] == w[i] {
        assert 'a' <= w[i] <= 'z';
      }
    }
  }
}
