/** String operations of .NET's System.String and Python's str that the
    modelled code relies on, over strings as sequences of characters. */
module Text {

  /** White space as .NET's Char.IsWhiteSpace (and so String.Trim) defines it:
      the ASCII control separators, NEL, NBSP and the Unicode space separators. */
  predicate IsWhiteSpace(c: char) {
    c == ' ' || c == '\t' || c == '\n' || c == '\r' || c == '\U{000B}' || c == '\U{000C}'
    || c == '\U{0085}' || c == '\U{00A0}' || c == '\U{1680}' || ('\U{2000}' <= c <= '\U{200A}')
    || c == '\U{2028}' || c == '\U{2029}' || c == '\U{202F}' || c == '\U{205F}' || c == '\U{3000}'
  }

  /** String.IsNullOrWhiteSpace / `not s.strip()`: nothing but white space. */
  predicate IsBlank(s: string) {
    forall i :: 0 <= i < |s| ==> IsWhiteSpace(s[i])
  }

  /** Removes leading white space. */
  function TrimStart(s: string): string
  {
    if |s| > 0 && IsWhiteSpace(s[0]) then TrimStart(s[1..]) else s
  }

  /** TrimStart keeps a suffix that does not start with white space, and
      removes only white space. */
  lemma {:induction false} TrimStartSpec(s: string)
    ensures var r := TrimStart(s);
      |r| <= |s| && r == s[|s| - |r|..] && (r == [] || !IsWhiteSpace(r[0]))
      && forall i :: 0 <= i < |s| - |r| ==> IsWhiteSpace(s[i])
    decreases |s|
  {
    if |s| > 0 && IsWhiteSpace(s[0]) {
      TrimStartSpec(s[1..]);
    }
  }

  /** Removes trailing white space. */
  function TrimEnd(s: string): string
  {
    if |s| > 0 && IsWhiteSpace(s[|s| - 1]) then TrimEnd(s[..|s| - 1]) else s
  }

  /** TrimEnd keeps a prefix that does not end with white space, and removes
      only white space. */
  lemma {:induction false} TrimEndSpec(s: string)
    ensures var r := TrimEnd(s);
      |r| <= |s| && r == s[..|r|] && (r == [] || !IsWhiteSpace(r[|r| - 1]))
      && forall i :: |r| <= i < |s| ==> IsWhiteSpace(s[i])
    decreases |s|
  {
    if |s| > 0 && IsWhiteSpace(s[|s| - 1]) {
      TrimEndSpec(s[..|s| - 1]);
    }
  }

  /** String.Trim() / str.strip(): removes white space at both ends. */
  function Trim(s: string): string
  {
    TrimEnd(TrimStart(s))
  }

  /** Trim leaves no white space at either end, and gives "" exactly for
      blank input. */
  lemma TrimSpec(s: string)
    ensures var r := Trim(s);
      (r == [] || (!IsWhiteSpace(r[0]) && !IsWhiteSpace(r[|r| - 1])))
      && (r == [] <==> IsBlank(s))
  {
    var t := TrimStart(s);
    var r := TrimEnd(t);
    TrimStartSpec(s);
    TrimEndSpec(t);
    if r != [] {
      assert r[0] == t[0];
    }
  }

  /** Removes every leading occurrence of `c`. */
  function TrimCharStart(s: string, c: char): string
  {
    if |s| > 0 && s[0] == c then TrimCharStart(s[1..], c) else s
  }

  lemma {:induction false} TrimCharStartSpec(s: string, c: char)
    ensures var r := TrimCharStart(s, c);
      |r| <= |s| && r == s[|s| - |r|..] && (r == [] || r[0] != c)
      && forall i :: 0 <= i < |s| - |r| ==> s[i] == c
    decreases |s|
  {
    if |s| > 0 && s[0] == c {
      TrimCharStartSpec(s[1..], c);
    }
  }

  /** Removes every trailing occurrence of `c`. */
  function TrimCharEnd(s: string, c: char): string
  {
    if |s| > 0 && s[|s| - 1] == c then TrimCharEnd(s[..|s| - 1], c) else s
  }

  lemma {:induction false} TrimCharEndSpec(s: string, c: char)
    ensures var r := TrimCharEnd(s, c);
      |r| <= |s| && r == s[..|r|] && (r == [] || r[|r| - 1] != c)
      && forall i :: |r| <= i < |s| ==> s[i] == c
    decreases |s|
  {
    if |s| > 0 && s[|s| - 1] == c {
      TrimCharEndSpec(s[..|s| - 1], c);
    }
  }

  /** String.Trim(char): removes `c` at both ends. */
  function TrimChar(s: string, c: char): string
  {
    TrimCharEnd(TrimCharStart(s, c), c)
  }

  /** TrimChar leaves no `c` at either end. */
  lemma TrimCharSpec(s: string, c: char)
    ensures var r := TrimChar(s, c);
      r == [] || (r[0] != c && r[|r| - 1] != c)
  {
    var t := TrimCharStart(s, c);
    var r := TrimCharEnd(t, c);
    TrimCharStartSpec(s, c);
    TrimCharEndSpec(t, c);
    if r != [] {
      assert r[0] == t[0];
    }
  }

  // Sequence identities, stated once so that proofs about large values can
  // use them without re-deriving them element by element.

  lemma AppendAssoc<T>(a: seq<T>, b: seq<T>, c: seq<T>)
    ensures (a + b) + c == a + (b + c)
  {
  }

  lemma AppendEmpty<T>(a: seq<T>)
    ensures a + [] == a && [] + a == a
  {
  }

  lemma TakeAll<T>(s: seq<T>)
    ensures s[..|s|] == s
  {
  }

  lemma PrefixOfAppend<T>(a: seq<T>, b: seq<T>)
    ensures (a + b)[..|a|] == a
  {
  }

  /** A slice that lies within a prefix of `s` is the same slice of the prefix. */
  lemma SliceWithinPrefix<T>(s: seq<T>, p: seq<T>, i: nat, j: nat)
    requires |p| <= |s| && s[..|p|] == p && i <= j <= |p|
    ensures s[i..j] == p[i..j]
  {
    assert forall k :: 0 <= k < j - i ==> s[i..j][k] == s[..|p|][i + k];
  }

  predicate StartsWith(s: string, prefix: string) {
    |prefix| <= |s| && s[..|prefix|] == prefix
  }

  predicate EndsWith(s: string, suffix: string) {
    |suffix| <= |s| && s[|s| - |suffix|..] == suffix
  }

  /** `pat` occurs in `s` starting at index `k`. */
  predicate OccursAt(s: string, pat: string, k: int) {
    0 <= k && k + |pat| <= |s| && s[k..k + |pat|] == pat
  }

  /** String.IndexOf(char, from): the first index at or after `from` holding `c`, or -1. */
  function IndexOfChar(s: string, c: char, from: nat): (r: int)
    requires from <= |s|
    ensures r == -1 || (from <= r < |s| && s[r] == c)
    decreases |s| - from
  {
    if from == |s| then -1 else if s[from] == c then from else IndexOfChar(s, c, from + 1)
  }

  /** No `c` lies between `from` and the index found (or the end). */
  lemma {:induction false} IndexOfCharFirst(s: string, c: char, from: nat)
    requires from <= |s|
    ensures var r := IndexOfChar(s, c, from);
      forall k :: from <= k < |s| && (r == -1 || k < r) ==> s[k] != c
    decreases |s| - from
  {
    if from < |s| && s[from] != c {
      IndexOfCharFirst(s, c, from + 1);
    }
  }

  /** The first occurrence of `c` from `from` on is at `k`. */
  lemma IndexOfCharIs(s: string, c: char, from: nat, k: nat)
    requires from <= k < |s| && s[k] == c
    requires forall j :: from <= j < k ==> s[j] != c
    ensures IndexOfChar(s, c, from) == k
  {
    IndexOfCharFirst(s, c, from);
  }

  /** Searching from the start of `y`, the first `c` is the one that opens `z`
      when `y` holds none. */
  lemma {:induction false} IndexOfCharAfter(x: string, y: string, z: string, c: char)
    requires c !in y && |z| > 0 && z[0] == c
    ensures IndexOfChar(x + y + z, c, |x|) == |x| + |y|
    decreases |y|
  {
    var s := x + y + z;
    if y == [] {
      assert s[|x|] == z[0];
    } else {
      assert s[|x|] == y[0];
      var x' := x + [y[0]];
      assert s == x' + y[1..] + z;
      IndexOfCharAfter(x', y[1..], z, c);
    }
  }

  /** String.IndexOf(string, from) with ordinal comparison: the first index at
      or after `from` where `pat` occurs, or -1. */
  function IndexOf(s: string, pat: string, from: nat): (r: int)
    requires from <= |s|
    ensures r == -1 || (from <= r && OccursAt(s, pat, r))
    decreases |s| - from
  {
    if from + |pat| > |s| then -1
    else if s[from..from + |pat|] == pat then from
    else if from == |s| then -1
    else IndexOf(s, pat, from + 1)
  }

  /** No occurrence of `pat` starts between `from` and the index found (or
      anywhere from `from` on, when none is found). */
  lemma {:induction false} IndexOfFirst(s: string, pat: string, from: nat)
    requires from <= |s|
    ensures var r := IndexOf(s, pat, from);
      forall k :: from <= k && (r == -1 || k < r) ==> !OccursAt(s, pat, k)
    decreases |s| - from
  {
    if from + |pat| <= |s| && s[from..from + |pat|] != pat && from < |s| {
      IndexOfFirst(s, pat, from + 1);
    }
  }

  /** String.Contains / Python's `pat in s` on strings. */
  predicate Contains(s: string, pat: string) {
    IndexOf(s, pat, 0) >= 0
  }

  lemma ContainsAt(s: string, pat: string, k: int)
    requires OccursAt(s, pat, k)
    ensures Contains(s, pat)
  {
    IndexOfFirst(s, pat, 0);
  }

  lemma ContainsWitness(s: string, pat: string) returns (k: nat)
    requires Contains(s, pat)
    ensures OccursAt(s, pat, k)
  {
    k := IndexOf(s, pat, 0);
  }

  /** Number of occurrences of `c` in `s`. */
  function CountChar(s: string, c: char): (n: nat)
    ensures n <= |s|
  {
    if s == [] then 0 else (if s[0] == c then 1 else 0) + CountChar(s[1..], c)
  }

  lemma CountCharAppend(a: string, b: string, c: char)
    ensures CountChar(a + b, c) == CountChar(a, c) + CountChar(b, c)
  {
    if a != [] {
      assert (a + b)[0] == a[0] && (a + b)[1..] == a[1..] + b;
      CountCharAppend(a[1..], b, c);
    } else {
      assert a + b == b;
    }
  }

  /** String.Split(char) / str.split(char): the pieces between separators,
      empty pieces included. */
  function Split(s: string, c: char): (parts: seq<string>)
    ensures |parts| == CountChar(s, c) + 1
    ensures forall i :: 0 <= i < |parts| ==> c !in parts[i]
    decreases |s|
  {
    var k := IndexOfChar(s, c, 0);
    IndexOfCharFirst(s, c, 0);
    if k < 0 then
      assert CountChar(s, c) == 0 by { CountCharNone(s, c); }
      [s]
    else
      assert s == s[..k] + [c] + s[k + 1..];
      CountCharAppend(s[..k] + [c], s[k + 1..], c);
      CountCharAppend(s[..k], [c], c);
      CountCharNone(s[..k], c);
      [s[..k]] + Split(s[k + 1..], c)
  }

  lemma CountCharNone(s: string, c: char)
    requires c !in s
    ensures CountChar(s, c) == 0
  {
    if s != [] { CountCharNone(s[1..], c); }
  }

  /** Splitting at the first separator: the piece before it, then the pieces
      of the rest. */
  lemma SplitAfter(a: string, b: string, c: char)
    requires c !in a
    ensures Split(a + [c] + b, c) == [a] + Split(b, c)
  {
    var s := a + [c] + b;
    forall j | 0 <= j < |a| ensures s[j] != c {
      assert s[j] == a[j];
    }
    IndexOfCharIs(s, c, 0, |a|);
    assert s[..|a|] == a && s[|a| + 1..] == b;
  }

  /** The pieces after the first separator are the pieces of what follows it. */
  lemma SplitAfterAt(a: string, b: string, c: char, i: nat)
    requires c !in a
    ensures |Split(a + [c] + b, c)| == |Split(b, c)| + 1
    ensures i == 0 ==> Split(a + [c] + b, c)[0] == a
    ensures 0 < i <= |Split(b, c)| ==> Split(a + [c] + b, c)[i] == Split(b, c)[i - 1]
  {
    SplitAfter(a, b, c);
  }

  /** A string without the separator is one piece. */
  lemma SplitNone(s: string, c: char)
    requires c !in s
    ensures Split(s, c) == [s]
  {
    IndexOfCharFirst(s, c, 0);
  }

  /** Joins pieces with a separator, the inverse of Split. */
  function Join(parts: seq<string>, c: char): string
  {
    if |parts| == 0 then "" else if |parts| == 1 then parts[0] else parts[0] + [c] + Join(parts[1..], c)
  }

  /** Splitting and joining on the same separator gives back the string. */
  lemma {:induction false} JoinSplit(s: string, c: char)
    ensures Join(Split(s, c), c) == s
    decreases |s|
  {
    var k := IndexOfChar(s, c, 0);
    if k >= 0 {
      JoinSplit(s[k + 1..], c);
      assert s == s[..k] + [c] + s[k + 1..];
    }
  }

  /** Joining pieces free of the separator and splitting gives the pieces back. */
  lemma {:induction false} SplitJoin(parts: seq<string>, c: char)
    requires parts != []
    requires forall i :: 0 <= i < |parts| ==> c !in parts[i]
    ensures Split(Join(parts, c), c) == parts
    decreases |parts|
  {
    if |parts| == 1 {
      SplitNone(parts[0], c);
    } else {
      SplitJoin(parts[1..], c);
      SplitAfter(parts[0], Join(parts[1..], c), c);
    }
  }

  /** The last piece is what follows the last separator. */
  lemma {:induction false} SplitLast(p: string, n: string, c: char)
    requires c !in n
    ensures var parts := Split(p + [c] + n, c); parts[|parts| - 1] == n
    decreases |p|
  {
    var s := p + [c] + n;
    var k := IndexOfChar(s, c, 0);
    IndexOfCharFirst(s, c, 0);
    assert s[|p|] == c;
    if k == |p| {
      assert s[k + 1..] == n;
      SplitNone(n, c);
    } else {
      assert s[k + 1..] == p[k + 1..] + [c] + n;
      SplitLast(p[k + 1..], n, c);
    }
  }

  /** Joining one more piece appends a separator and the piece. */
  lemma {:induction false} JoinSnoc(parts: seq<string>, x: string, c: char)
    requires parts != []
    ensures Join(parts + [x], c) == Join(parts, c) + [c] + x
    decreases |parts|
  {
    if |parts| > 1 {
      assert (parts + [x])[1..] == parts[1..] + [x];
      JoinSnoc(parts[1..], x, c);
    }
  }

  /** Maps ASCII upper-case letters to lower case (C# ToLower / Python lower on ASCII text). */
  function ToLowerChar(c: char): char {
    if 'A' <= c <= 'Z' then (c as int + 32) as char else c
  }

  function ToLower(s: string): string
  {
    if s == [] then [] else [ToLowerChar(s[0])] + ToLower(s[1..])
  }

  lemma {:induction false} ToLowerAppend(a: string, b: string)
    ensures ToLower(a + b) == ToLower(a) + ToLower(b)
    decreases |a|
  {
    if a == [] {
      assert a + b == b;
    } else {
      assert (a + b)[0] == a[0] && (a + b)[1..] == a[1..] + b;
      ToLowerAppend(a[1..], b);
    }
  }

  /** Lower-casing maps each character on its own. */
  lemma {:induction false} ToLowerSpec(s: string)
    ensures |ToLower(s)| == |s| && forall i :: 0 <= i < |s| ==> ToLower(s)[i] == ToLowerChar(s[i])
    decreases |s|
  {
    if s != [] {
      ToLowerSpec(s[1..]);
    }
  }

  /** Lower-casing twice is lower-casing once. */
  lemma {:induction false} ToLowerIdempotent(s: string)
    ensures ToLower(ToLower(s)) == ToLower(s)
    decreases |s|
  {
    if s != [] {
      ToLowerIdempotent(s[1..]);
    }
  }

  /** Replaces every occurrence of the character `c` by `rep`. */
  function ReplaceChar(s: string, c: char, rep: string): string
  {
    if s == [] then [] else (if s[0] == c then rep else [s[0]]) + ReplaceChar(s[1..], c, rep)
  }

  lemma ReplaceCharAppend(a: string, b: string, c: char, rep: string)
    ensures ReplaceChar(a + b, c, rep) == ReplaceChar(a, c, rep) + ReplaceChar(b, c, rep)
  {
    if a != [] {
      assert (a + b)[0] == a[0] && (a + b)[1..] == a[1..] + b;
      ReplaceCharAppend(a[1..], b, c, rep);
    } else {
      assert a + b == b;
    }
  }

  lemma ReplaceCharSingle(c: char, x: char, rep: string)
    ensures ReplaceChar([c], x, rep) == if c == x then rep else [c]
  {
    assert [c][1..] == [];
  }

  lemma ReplaceCharAbsent(s: string, c: char, rep: string)
    requires c !in s
    ensures ReplaceChar(s, c, rep) == s
  {
    if s != [] {
      ReplaceCharAbsent(s[1..], c, rep);
    }
  }

  /** The first `n` characters, or all of `s` when it is shorter (Python's s[:n]). */
  function Take(s: string, n: nat): (r: string)
    ensures |r| == if |s| <= n then |s| else n
    ensures r == s[..|r|]
  {
    if |s| <= n then s else s[..n]
  }

  /** The decimal digits of `n`, as str(n) / int.ToString() write them. */
  function NatToString(n: nat): (r: string)
    ensures |r| >= 1 && forall i :: 0 <= i < |r| ==> '0' <= r[i] <= '9'
  {
    var d := ['0' + (n % 10) as char];
    if n < 10 then d else NatToString(n / 10) + d
  }

  function IntToString(i: int): string {
    if i < 0 then "-" + NatToString(-i) else NatToString(i)
  }

  lemma OccursInMiddle(a: string, b: string, c: string)
    ensures OccursAt(a + b + c, b, |a|)
  {
    assert (a + b + c)[|a|..|a| + |b|] == b;
  }

  /** String.Replace(string, string): replaces the non-overlapping occurrences
      of `pat`, scanning from the left. */
  function ReplaceAll(s: string, pat: string, rep: string): string
    requires pat != ""
    decreases |s|
  {
    if |s| < |pat| then s
    else if s[..|pat|] == pat then rep + ReplaceAll(s[|pat|..], pat, rep)
    else [s[0]] + ReplaceAll(s[1..], pat, rep)
  }

  /** The characters of `s` that are not white space, in order. */
  function NonWhite(s: string): (r: string)
    ensures |r| <= |s|
    ensures forall i :: 0 <= i < |r| ==> !IsWhiteSpace(r[i])
  {
    if s == [] then [] else (if IsWhiteSpace(s[0]) then [] else [s[0]]) + NonWhite(s[1..])
  }

  lemma {:induction false} NonWhiteAppend(a: string, b: string)
    ensures NonWhite(a + b) == NonWhite(a) + NonWhite(b)
    decreases |a|
  {
    if a == [] {
      assert a + b == b;
    } else {
      assert (a + b)[0] == a[0] && (a + b)[1..] == a[1..] + b;
      NonWhiteAppend(a[1..], b);
    }
  }

  lemma {:induction false} NonWhiteBlank(s: string)
    requires IsBlank(s)
    ensures NonWhite(s) == []
    decreases |s|
  {
    if s != [] {
      NonWhiteBlank(s[1..]);
    }
  }

  lemma {:induction false} NonWhiteTrimStart(s: string)
    ensures NonWhite(TrimStart(s)) == NonWhite(s)
    decreases |s|
  {
    if |s| > 0 && IsWhiteSpace(s[0]) {
      NonWhiteTrimStart(s[1..]);
    }
  }

  lemma {:induction false} NonWhiteTrimEnd(s: string)
    ensures NonWhite(TrimEnd(s)) == NonWhite(s)
    decreases |s|
  {
    if |s| > 0 && IsWhiteSpace(s[|s| - 1]) {
      var init := s[..|s| - 1];
      NonWhiteTrimEnd(init);
      assert s == init + [s[|s| - 1]];
      NonWhiteAppend(init, [s[|s| - 1]]);
    }
  }

  /** Trimming removes only white space. */
  lemma NonWhiteTrim(s: string)
    ensures NonWhite(Trim(s)) == NonWhite(s)
  {
    NonWhiteTrimStart(s);
    NonWhiteTrimEnd(TrimStart(s));
  }

  /** Replacing a pattern by a text that differs from it only in white space
      leaves the non-white characters unchanged. */
  lemma {:induction false} NonWhiteReplaceAll(s: string, pat: string, rep: string)
    requires pat != "" && NonWhite(rep) == NonWhite(pat)
    ensures NonWhite(ReplaceAll(s, pat, rep)) == NonWhite(s)
    decreases |s|
  {
    if |s| < |pat| {
    } else if s[..|pat|] == pat {
      NonWhiteReplaceAll(s[|pat|..], pat, rep);
      NonWhiteAppend(rep, ReplaceAll(s[|pat|..], pat, rep));
      assert s == pat + s[|pat|..];
      NonWhiteAppend(pat, s[|pat|..]);
    } else {
      NonWhiteReplaceAll(s[1..], pat, rep);
      NonWhiteAppend([s[0]], ReplaceAll(s[1..], pat, rep));
      assert s == [s[0]] + s[1..];
      NonWhiteAppend([s[0]], s[1..]);
    }
  }

  /** `n` spaces. */
  function Spaces(n: nat): (r: string)
    ensures |r| == n && IsBlank(r)
  {
    if n == 0 then "" else Spaces(n - 1) + " "
  }

  /** String.Split(char[]): the pieces between any of the separators, empty
      pieces included. */
  function SplitAny(s: string, seps: set<char>): (parts: seq<string>)
    ensures |parts| >= 1
    ensures forall i, k :: 0 <= i < |parts| && 0 <= k < |parts[i]| ==> parts[i][k] !in seps
  {
    if s == [] then [""]
    else
      var rest := SplitAny(s[1..], seps);
      if s[0] in seps then [""] + rest else [[s[0]] + rest[0]] + rest[1..]
  }

  /** StringSplitOptions.RemoveEmptyEntries: drops the empty pieces. */
  function NonEmpty(parts: seq<string>): (r: seq<string>)
    ensures |r| <= |parts|
    ensures forall i :: 0 <= i < |r| ==> r[i] != "" && r[i] in parts
    ensures forall p :: p in parts && p != "" ==> p in r
  {
    if parts == [] then []
    else (if parts[0] == "" then [] else [parts[0]]) + NonEmpty(parts[1..])
  }

  /** Splitting at a separator splits the two sides independently: the
      last piece of `x` ends at the separator and `y`'s first piece starts
      after it. */
  lemma {:induction false} SplitAnyAt(x: string, c: char, y: string, seps: set<char>)
    requires c in seps
    ensures SplitAny(x + [c] + y, seps) == SplitAny(x, seps) + SplitAny(y, seps)
    decreases |x|
  {
    var s := x + [c] + y;
    if x == [] {
      assert s[1..] == y;
    } else {
      assert s[0] == x[0] && s[1..] == x[1..] + [c] + y;
      SplitAnyAt(x[1..], c, y, seps);
    }
  }

  /** A text without separators is one piece. */
  lemma {:induction false} SplitAnyNone(s: string, seps: set<char>)
    requires forall k :: 0 <= k < |s| ==> s[k] !in seps
    ensures SplitAny(s, seps) == [s]
    decreases |s|
  {
    if s != [] {
      SplitAnyNone(s[1..], seps);
      assert [s[0]] + s[1..] == s;
    }
  }

  lemma {:induction false} NonEmptyAppend(a: seq<string>, b: seq<string>)
    ensures NonEmpty(a + b) == NonEmpty(a) + NonEmpty(b)
    decreases |a|
  {
    if a == [] {
      assert a + b == b;
    } else {
      assert (a + b)[0] == a[0] && (a + b)[1..] == a[1..] + b;
      NonEmptyAppend(a[1..], b);
      AppendAssoc(if a[0] == "" then [] else [a[0]], NonEmpty(a[1..]), NonEmpty(b));
    }
  }

  /** Trimming white space in front of a text that starts with a
      non-white character leaves that text. */
  lemma {:induction false} TrimBlankPrefix(pad: string, s: string)
    requires IsBlank(pad) && s != [] && !IsWhiteSpace(s[0]) && !IsWhiteSpace(s[|s| - 1])
    ensures Trim(pad + s) == s
    decreases |pad|
  {
    if pad == [] {
      assert pad + s == s;
      assert TrimStart(s) == s;
    } else {
      assert (pad + s)[1..] == pad[1..] + s;
      TrimBlankPrefix(pad[1..], s);
    }
  }

  /** Trimming `c` off a text enclosed in `c` that holds no other `c`. */
  lemma TrimCharEnclosed(s: string, c: char)
    requires c !in s
    ensures TrimChar([c] + s + [c], c) == s
  {
    var q := [c] + s + [c];
    assert q[1..] == s + [c];
    if s == [] {
      assert TrimCharStart(q, c) == TrimCharStart(q[1..], c);
      assert q[1..][1..] == [];
    } else {
      assert s[0] in s && s[|s| - 1] in s;
      assert TrimCharStart(q, c) == TrimCharStart(q[1..], c);
      assert (s + [c])[0] == s[0];
      assert TrimCharStart(s + [c], c) == s + [c];
      assert (s + [c])[..|s|] == s;
      assert TrimCharEnd(s + [c], c) == TrimCharEnd(s, c);
      assert TrimCharEnd(s, c) == s;
    }
  }
}
