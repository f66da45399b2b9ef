/** The JavaScript string operations the application relies on: `trim`,
    `split` on one character, `join`, `includes`, ASCII case mapping and the
    code-unit ordering used by the default `Array.prototype.sort`. */
module Strings {

  /* ---------------------------------------------------------------------
     Whitespace and trim
     --------------------------------------------------------------------- */

  /** The characters `String.prototype.trim` removes: the ECMAScript
      WhiteSpace and LineTerminator code points. */
  predicate IsWhitespace(c: char) {
    var n := c as int;
    (0x09 <= n <= 0x0D) || n == 0x20 || n == 0xA0 || n == 0x1680 ||
    (0x2000 <= n <= 0x200A) || n == 0x2028 || n == 0x2029 ||
    n == 0x202F || n == 0x205F || n == 0x3000 || n == 0xFEFF
  }

  function TrimStart(s: string): string {
    if s != [] && IsWhitespace(s[0]) then TrimStart(s[1..]) else s
  }

  function TrimEnd(s: string): string {
    if s != [] && IsWhitespace(s[|s| - 1]) then TrimEnd(s[..|s| - 1]) else s
  }

  /** trimStart drops exactly the leading whitespace. */
  lemma {:induction false} TrimStartSpec(s: string)
    ensures |TrimStart(s)| <= |s| && TrimStart(s) == s[|s| - |TrimStart(s)|..]
    ensures TrimStart(s) != [] ==> !IsWhitespace(TrimStart(s)[0])
    ensures forall i :: 0 <= i < |s| - |TrimStart(s)| ==> IsWhitespace(s[i])
  {
    if s != [] && IsWhitespace(s[0]) {
      var r := TrimStart(s[1..]);
      TrimStartSpec(s[1..]);
      assert s[1..][|s| - 1 - |r|..] == s[|s| - |r|..];
      forall i | 0 < i < |s| - |r| ensures IsWhitespace(s[i]) {
        assert s[i] == s[1..][i - 1];
      }
    }
  }

  /** trimEnd drops exactly the trailing whitespace. */
  lemma {:induction false} TrimEndSpec(s: string)
    ensures |TrimEnd(s)| <= |s| && TrimEnd(s) == s[..|TrimEnd(s)|]
    ensures TrimEnd(s) != [] ==> !IsWhitespace(TrimEnd(s)[|TrimEnd(s)| - 1])
    ensures forall i :: |TrimEnd(s)| <= i < |s| ==> IsWhitespace(s[i])
  {
    if s != [] && IsWhitespace(s[|s| - 1]) {
      var r := TrimEnd(s[..|s| - 1]);
      TrimEndSpec(s[..|s| - 1]);
      assert s[..|s| - 1][..|r|] == s[..|r|];
      forall i | |r| <= i < |s| - 1 ensures IsWhitespace(s[i]) {
        assert s[i] == s[..|s| - 1][i];
      }
    }
  }

  /** `s.trim()` */
  function Trim(s: string): string {
    TrimEnd(TrimStart(s))
  }

  /** A string with no whitespace at either end. */
  predicate Trimmed(s: string) {
    s == [] || (!IsWhitespace(s[0]) && !IsWhitespace(s[|s| - 1]))
  }

  /** trim removes exactly the whitespace at both ends: its result is trimmed
      and is a contiguous piece of the input surrounded by whitespace only. */
  lemma TrimSpec(s: string)
    ensures Trimmed(Trim(s))
    ensures exists i, j :: (0 <= i <= j <= |s| && Trim(s) == s[i..j] &&
                           (forall k :: 0 <= k < i ==> IsWhitespace(s[k])) &&
                           (forall k :: j <= k < |s| ==> IsWhitespace(s[k])))
  {
    var t := TrimStart(s);
    var r := TrimEnd(t);
    TrimStartSpec(s);
    TrimEndSpec(t);
    var i := |s| - |t|;
    var j := i + |r|;
    assert r == t[..|r|] && t == s[i..];
    assert r == s[i..j];
    assert forall k :: 0 <= k < i ==> IsWhitespace(s[k]);
    forall k | j <= k < |s| ensures IsWhitespace(s[k]) {
      assert s[k] == t[k - i];
    }
    assert 0 <= i <= j <= |s| && Trim(s) == s[i..j];
    if r != [] {
      assert r[0] == t[0];
    }
  }

  lemma {:induction false} TrimStartOfTrimmed(s: string)
    requires s == [] || !IsWhitespace(s[0])
    ensures TrimStart(s) == s
  {
  }

  lemma {:induction false} TrimEndOfTrimmed(s: string)
    requires s == [] || !IsWhitespace(s[|s| - 1])
    ensures TrimEnd(s) == s
  {
  }

  /** trim leaves a trimmed string alone, so trim is idempotent. */
  lemma TrimOfTrimmed(s: string)
    requires Trimmed(s)
    ensures Trim(s) == s
  {
    TrimStartOfTrimmed(s);
    TrimEndOfTrimmed(s);
  }

  /** A space put in front of a trimmed string is removed again by trim. */
  lemma TrimLeadingSpace(s: string)
    requires Trimmed(s)
    ensures Trim(" " + s) == s
  {
    assert (" " + s)[1..] == s;
    TrimStartOfTrimmed(s);
    assert TrimStart(" " + s) == s;
    TrimEndOfTrimmed(s);
  }

  /* ---------------------------------------------------------------------
     Counting, split and join
     --------------------------------------------------------------------- */

  function Count(s: string, c: char): nat {
    if s == [] then 0 else (if s[0] == c then 1 else 0) + Count(s[1..], c)
  }

  /** `s.split(c)` for a one-character separator: the pieces between the
      occurrences of c, including empty ones; "" gives [""]. */
  function Split(s: string, c: char): (r: seq<string>)
    ensures |r| >= 1
  {
    if s == [] then [""]
    else
      var rest := Split(s[1..], c);
      if s[0] == c then [""] + rest
      else [[s[0]] + rest[0]] + rest[1..]
  }

  /** `xs.join(sep)` */
  function Join(xs: seq<string>, sep: string): string {
    if xs == [] then ""
    else if |xs| == 1 then xs[0]
    else xs[0] + sep + Join(xs[1..], sep)
  }

  /** split yields one more piece than there are separators, and no piece
      contains the separator. */
  lemma {:induction false} SplitPieces(s: string, c: char)
    ensures |Split(s, c)| == Count(s, c) + 1
    ensures forall i :: 0 <= i < |Split(s, c)| ==> c !in Split(s, c)[i]
  {
    if s != [] {
      SplitPieces(s[1..], c);
      var rest := Split(s[1..], c);
      if s[0] != c {
        assert c !in [s[0]] + rest[0];
      }
    }
  }

  /** Putting a character in front of the first piece puts it in front of
      the joined string. */
  lemma JoinPrepend(x: char, xs: seq<string>, sep: string)
    requires xs != []
    ensures Join([[x] + xs[0]] + xs[1..], sep) == [x] + Join(xs, sep)
  {
    var ys := [[x] + xs[0]] + xs[1..];
    if |xs| == 1 {
      assert ys == [[x] + xs[0]];
    } else {
      assert ys[1..] == xs[1..];
    }
  }

  /** Joining the pieces of a split with the separator restores the string. */
  lemma {:induction false} JoinSplit(s: string, c: char)
    ensures Join(Split(s, c), [c]) == s
  {
    if s != [] {
      JoinSplit(s[1..], c);
      var rest := Split(s[1..], c);
      if s[0] == c {
        assert Join(Split(s, c), [c]) == "" + [c] + Join(rest, [c]);
      } else {
        JoinPrepend(s[0], rest, [c]);
      }
      assert s == [s[0]] + s[1..];
    }
  }

  /** A string without the separator splits into itself alone. */
  lemma {:induction false} SplitWithoutSeparator(s: string, c: char)
    requires c !in s
    ensures Split(s, c) == [s]
  {
    if s != [] {
      assert s[0] != c && c !in s[1..];
      SplitWithoutSeparator(s[1..], c);
      assert [s[0]] + s[1..] == s;
    }
  }

  /** A string with the separator splits into at least two pieces. */
  lemma SplitWithSeparator(s: string, c: char)
    requires c in s
    ensures |Split(s, c)| >= 2
  {
    var i :| 0 <= i < |s| && s[i] == c;
    CountPositive(s, c, i);
    SplitPieces(s, c);
  }

  lemma {:induction false} CountPositive(s: string, c: char, i: nat)
    requires i < |s| && s[i] == c
    ensures Count(s, c) > 0
  {
    if i > 0 {
      CountPositive(s[1..], c, i - 1);
    }
  }

  /** Splitting at the first separator. */
  lemma {:induction false} SplitAtFirst(a: string, c: char, b: string)
    requires c !in a
    ensures Split(a + [c] + b, c) == [a] + Split(b, c)
  {
    if a == [] {
      assert ([c] + b)[1..] == b;
    } else {
      assert (a + [c] + b)[1..] == a[1..] + [c] + b;
      assert c !in a[1..];
      SplitAtFirst(a[1..], c, b);
      assert [a[0]] + a[1..] == a;
    }
  }

  /* ---------------------------------------------------------------------
     Substring search
     --------------------------------------------------------------------- */

  /** k occurs in s at position i, compared from offset j of k on. */
  predicate MatchesAt(s: string, k: string, i: nat, j: nat)
    requires i + |k| <= |s| && j <= |k|
    decreases |k| - j
  {
    j == |k| || (s[i + j] == k[j] && MatchesAt(s, k, i, j + 1))
  }

  predicate ContainsFrom(s: string, k: string, i: nat)
    decreases |s| - i
  {
    i + |k| <= |s| && (MatchesAt(s, k, i, 0) || ContainsFrom(s, k, i + 1))
  }

  /** `s.includes(k)` */
  predicate Contains(s: string, k: string) {
    ContainsFrom(s, k, 0)
  }

  lemma {:induction false} MatchesAtSlice(s: string, k: string, i: nat, j: nat)
    requires i + |k| <= |s| && j <= |k|
    ensures MatchesAt(s, k, i, j) <==> s[i + j..i + |k|] == k[j..]
    decreases |k| - j
  {
    if j < |k| {
      MatchesAtSlice(s, k, i, j + 1);
      assert s[i + j..i + |k|] == [s[i + j]] + s[i + j + 1..i + |k|];
      assert k[j..] == [k[j]] + k[j + 1..];
    }
  }

  /** k occurs in s as the slice starting at p. */
  predicate OccursAt(s: string, k: string, p: nat) {
    p + |k| <= |s| && s[p..p + |k|] == k
  }

  /** includes holds exactly when k occurs somewhere in s. */
  lemma {:induction false} ContainsFromSpec(s: string, k: string, i: nat)
    ensures ContainsFrom(s, k, i) <==> exists p :: i <= p && OccursAt(s, k, p)
    decreases |s| - i
  {
    if i + |k| <= |s| {
      MatchesAtSlice(s, k, i, 0);
      ContainsFromSpec(s, k, i + 1);
      assert k[0..] == k;
      if MatchesAt(s, k, i, 0) {
        assert OccursAt(s, k, i);
      }
      if exists p :: i <= p && OccursAt(s, k, p) {
        var p :| i <= p && OccursAt(s, k, p);
        if p > i {
          assert ContainsFrom(s, k, i + 1);
        }
      }
    } else {
      forall p | i <= p ensures !OccursAt(s, k, p) {
      }
    }
  }

  /** A witness position shows that k is contained in s. */
  lemma ContainsAt(s: string, k: string, p: nat)
    requires OccursAt(s, k, p)
    ensures Contains(s, k)
  {
    ContainsFromSpec(s, k, 0);
  }

  /* ---------------------------------------------------------------------
     Case mapping (ASCII letters only)
     --------------------------------------------------------------------- */

  function LowerChar(c: char): char {
    if 'A' <= c <= 'Z' then (c as int + 32) as char else c
  }

  function UpperChar(c: char): char {
    if 'a' <= c <= 'z' then (c as int - 32) as char else c
  }

  /** `s.toLowerCase()` */
  function ToLower(s: string): string {
    seq(|s|, i requires 0 <= i < |s| => LowerChar(s[i]))
  }

  /** `s.toUpperCase()` */
  function ToUpper(s: string): string {
    seq(|s|, i requires 0 <= i < |s| => UpperChar(s[i]))
  }

  /** Lower-casing twice is lower-casing once; no upper-case letter is left. */
  lemma ToLowerIdempotent(s: string)
    ensures ToLower(ToLower(s)) == ToLower(s)
    ensures forall i :: 0 <= i < |s| ==> !('A' <= ToLower(s)[i] <= 'Z')
  {
  }

  /* ---------------------------------------------------------------------
     Ordering and sorting
     --------------------------------------------------------------------- */

  /** a comes before b in the order of the default sort, comparing from
      position i on: the first differing character decides, and a proper
      prefix comes first. */
  predicate LessFrom(a: string, b: string, i: nat)
    decreases |a| - i
  {
    if i >= |a| then i < |b|
    else if i >= |b| then false
    else a[i] < b[i] || (a[i] == b[i] && LessFrom(a, b, i + 1))
  }

  predicate Less(a: string, b: string) {
    LessFrom(a, b, 0)
  }

  lemma {:induction false} LessFromIrreflexive(a: string, i: nat)
    ensures !LessFrom(a, a, i)
    decreases |a| - i
  {
    if i < |a| {
      LessFromIrreflexive(a, i + 1);
    }
  }

  lemma {:induction false} LessFromTransitive(a: string, b: string, c: string, i: nat)
    requires LessFrom(a, b, i) && LessFrom(b, c, i)
    ensures LessFrom(a, c, i)
    decreases |a| - i
  {
    if i < |a| && i < |b| && i < |c| && a[i] == b[i] && b[i] == c[i] {
      LessFromTransitive(a, b, c, i + 1);
    }
  }

  lemma {:induction false} LessFromTotal(a: string, b: string, i: nat)
    requires i <= |a| && i <= |b|
    ensures a[i..] == b[i..] || LessFrom(a, b, i) || LessFrom(b, a, i)
    decreases |a| - i
  {
    if i < |a| && i < |b| && a[i] == b[i] {
      LessFromTotal(a, b, i + 1);
      if a[i + 1..] == b[i + 1..] {
        assert a[i..] == [a[i]] + a[i + 1..];
        assert b[i..] == [b[i]] + b[i + 1..];
      }
    }
  }

  /** The default sort order is a strict total order on strings. */
  lemma LessIsStrictTotalOrder(a: string, b: string, c: string)
    ensures !Less(a, a)
    ensures Less(a, b) && Less(b, c) ==> Less(a, c)
    ensures a == b || Less(a, b) || Less(b, a)
  {
    LessFromIrreflexive(a, 0);
    if Less(a, b) && Less(b, c) {
      LessFromTransitive(a, b, c, 0);
    }
    LessFromTotal(a, b, 0);
  }

  lemma LessAsymmetric(a: string, b: string)
    requires Less(a, b)
    ensures !Less(b, a)
  {
    if Less(b, a) {
      LessFromTransitive(a, b, a, 0);
      LessFromIrreflexive(a, 0);
    }
  }

  /** Ascending order, equal neighbours allowed. */
  predicate Sorted(s: seq<string>) {
    forall i, j :: 0 <= i < j < |s| ==> !Less(s[j], s[i])
  }

  /** Strictly ascending order: sorted and without repetitions. */
  predicate StrictlySorted(s: seq<string>) {
    forall i, j :: 0 <= i < j < |s| ==> Less(s[i], s[j])
  }

  predicate NoDuplicates(s: seq<string>) {
    forall i, j :: 0 <= i < j < |s| ==> s[i] != s[j]
  }

  /** Insert x before the first element not below it. */
  function Insert(x: string, s: seq<string>): seq<string> {
    if s == [] || !Less(s[0], x) then [x] + s
    else [s[0]] + Insert(x, s[1..])
  }

  /** The default `Array.prototype.sort` on strings, as an insertion sort;
      SortCorrect states what it yields. */
  function Sort(s: seq<string>): seq<string> {
    if s == [] then [] else Insert(s[0], Sort(s[1..]))
  }

  /** A head not above any element of a sorted tail keeps it sorted. */
  lemma SortedCons(h: string, t: seq<string>)
    requires Sorted(t)
    requires forall j :: 0 <= j < |t| ==> !Less(t[j], h)
    ensures Sorted([h] + t)
  {
    var r := [h] + t;
    forall i, j | 0 <= i < j < |r| ensures !Less(r[j], r[i]) {
      assert r[j] == t[j - 1];
      if i > 0 {
        assert r[i] == t[i - 1];
      }
    }
  }

  /** In a sorted sequence whose head is not below x, nothing is below x. */
  lemma NoneBelow(x: string, s: seq<string>, j: int)
    requires Sorted(s) && s != [] && !Less(s[0], x)
    requires 0 <= j < |s|
    ensures !Less(s[j], x)
  {
    if j > 0 && Less(s[j], x) {
      LessFromTotal(s[0], s[j], 0);
      LessFromTotal(s[0], x, 0);
      if Less(s[0], s[j]) {
        LessFromTransitive(s[0], s[j], x, 0);
      }
    }
  }

  /** Insert adds x and keeps everything else. */
  lemma {:induction false} InsertPermutes(x: string, s: seq<string>)
    ensures multiset(Insert(x, s)) == multiset(s) + multiset{x}
  {
    if s != [] && Less(s[0], x) {
      InsertPermutes(x, s[1..]);
      assert s == [s[0]] + s[1..];
    }
  }

  /** When x goes past the head of a sorted sequence, nothing inserted
      after the head is below it. */
  lemma AfterHeadNotBelow(x: string, s: seq<string>, j: int)
    requires Sorted(s) && s != [] && Less(s[0], x)
    requires 0 <= j < |Insert(x, s[1..])|
    ensures !Less(Insert(x, s[1..])[j], s[0])
  {
    var r := Insert(x, s[1..]);
    InsertPermutes(x, s[1..]);
    assert r[j] in multiset(r);
    if r[j] == x {
      LessAsymmetric(s[0], x);
    } else {
      assert r[j] in multiset(s[1..]);
      var k :| 0 <= k < |s[1..]| && s[1..][k] == r[j];
      assert s[k + 1] == r[j];
    }
  }

  lemma {:induction false} InsertCorrect(x: string, s: seq<string>)
    requires Sorted(s)
    ensures Sorted(Insert(x, s))
    ensures multiset(Insert(x, s)) == multiset(s) + multiset{x}
  {
    InsertPermutes(x, s);
    if s == [] || !Less(s[0], x) {
      forall j | 0 <= j < |s| ensures !Less(s[j], x) {
        NoneBelow(x, s, j);
      }
      SortedCons(x, s);
    } else {
      assert Sorted(s[1..]);
      InsertCorrect(x, s[1..]);
      var r := Insert(x, s[1..]);
      forall j | 0 <= j < |r| ensures !Less(r[j], s[0]) {
        AfterHeadNotBelow(x, s, j);
      }
      SortedCons(s[0], r);
    }
  }

  /** Sort yields an ascending permutation of its input. */
  lemma {:induction false} SortCorrect(s: seq<string>)
    ensures Sorted(Sort(s))
    ensures multiset(Sort(s)) == multiset(s)
    ensures |Sort(s)| == |s|
  {
    if s != [] {
      SortCorrect(s[1..]);
      InsertCorrect(s[0], Sort(s[1..]));
      assert s == [s[0]] + s[1..];
    }
    assert |Sort(s)| == |multiset(Sort(s))|;
  }

  /** A strictly ascending sequence is left as it is by Sort. */
  lemma {:induction false} SortOfStrictlySorted(s: seq<string>)
    requires StrictlySorted(s)
    ensures Sort(s) == s
  {
    if s != [] {
      SortOfStrictlySorted(s[1..]);
      if |s| > 1 {
        LessAsymmetric(s[0], s[1]);
      }
      assert Insert(s[0], s[1..]) == [s[0]] + s[1..];
    }
  }

  lemma StrictlySortedNoDuplicates(s: seq<string>)
    requires StrictlySorted(s)
    ensures NoDuplicates(s)
  {
    forall i, j | 0 <= i < j < |s| ensures s[i] != s[j] {
      LessFromIrreflexive(s[i], 0);
    }
  }

  /** Each element below the next is enough for strict ascending order. */
  lemma {:induction false} NeighboursStrictlySorted(s: seq<string>)
    requires forall i :: 0 < i < |s| ==> Less(s[i - 1], s[i])
    ensures StrictlySorted(s)
  {
    if |s| > 1 {
      NeighboursStrictlySorted(s[1..]);
      forall j | 1 < j < |s| ensures Less(s[0], s[j]) {
        assert s[1..][0] == s[1] && s[1..][j - 1] == s[j];
        LessFromTransitive(s[0], s[1], s[j], 0);
      }
      forall i, j | 0 <= i < j < |s| ensures Less(s[i], s[j]) {
        if i > 0 {
          assert s[1..][i - 1] == s[i] && s[1..][j - 1] == s[j];
        }
      }
    }
  }
}
