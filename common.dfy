/** Values and sequence functions shared by the client and the backend models:
    optional values, order-preserving filters, first-match lookup, ASCII case
    folding, substring search, whitespace trimming, decimal integer text, SQL-style
    grouping and a descending sort. */
module Common {

  datatype Option<T> = None | Some(value: T)

  // ---------------------------------------------------------------------------
  // Sub-lists and filtering (Array.prototype.filter, a SQL WHERE clause)
  // ---------------------------------------------------------------------------

  /** a is an order-preserving sub-list of b. */
  predicate IsSubsequence<T(==)>(a: seq<T>, b: seq<T>)
    decreases |b|
  {
    a == [] || (b != [] && ((a[0] == b[0] && IsSubsequence(a[1..], b[1..])) || IsSubsequence(a, b[1..])))
  }

  lemma {:induction false} IsSubsequenceRefl<T>(s: seq<T>)
    ensures IsSubsequence(s, s)
    decreases |s|
  {
    if s != [] {
      IsSubsequenceRefl(s[1..]);
    }
  }

  lemma {:induction false} IsSubsequenceTrans<T>(a: seq<T>, b: seq<T>, c: seq<T>)
    requires IsSubsequence(a, b) && IsSubsequence(b, c)
    ensures IsSubsequence(a, c)
    decreases |c|
  {
    if a != [] && c != [] {
      if b[0] == c[0] && IsSubsequence(b[1..], c[1..]) {
        if a[0] == b[0] && IsSubsequence(a[1..], b[1..]) {
          IsSubsequenceTrans(a[1..], b[1..], c[1..]);
        } else {
          IsSubsequenceTrans(a, b[1..], c[1..]);
        }
      } else {
        IsSubsequenceTrans(a, b, c[1..]);
      }
    }
  }

  /** The elements of s that satisfy p, in their original order. */
  function Filter<T(==,!new)>(s: seq<T>, p: T -> bool): (r: seq<T>)
    ensures |r| <= |s|
    ensures forall x :: x in r <==> x in s && p(x)
    ensures IsSubsequence(r, s)
  {
    if s == [] then []
    else if p(s[0]) then [s[0]] + Filter(s[1..], p)
    else Filter(s[1..], p)
  }

  /** Filtering twice is filtering once by the conjunction: a chain of WHERE
      clauses selects the rows that satisfy all of them. */
  lemma {:induction false} FilterConjunction<T(!new)>(s: seq<T>, p: T -> bool, q: T -> bool)
    ensures Filter(Filter(s, p), q) == Filter(s, x => p(x) && q(x))
  {
    if s != [] {
      FilterConjunction(s[1..], p, q);
    }
  }

  /** Filtering by p and by its complement q splits s. */
  lemma {:induction false} FilterSplit<T(!new)>(s: seq<T>, p: T -> bool, q: T -> bool)
    requires forall x :: q(x) == !p(x)
    ensures |Filter(s, p)| + |Filter(s, q)| == |s|
  {
    if s != [] {
      FilterSplit(s[1..], p, q);
    }
  }

  /** Filtering s extended by x extends the filtered s by x exactly when x is kept
      (the step of a loop that appends the elements it keeps). */
  lemma {:induction false} FilterSnoc<T(!new)>(s: seq<T>, x: T, p: T -> bool)
    ensures Filter(s + [x], p) == Filter(s, p) + (if p(x) then [x] else [])
  {
    if s == [] {
      assert s + [x] == [x];
      assert [x][1..] == [];
    } else {
      assert (s + [x])[0] == s[0];
      assert (s + [x])[1..] == s[1..] + [x];
      FilterSnoc(s[1..], x, p);
    }
  }

  /** A weaker predicate keeps a superset, in the same order. */
  lemma {:induction false} FilterMonotone<T(!new)>(s: seq<T>, p: T -> bool, q: T -> bool)
    requires forall x :: p(x) ==> q(x)
    ensures IsSubsequence(Filter(s, p), Filter(s, q))
  {
    if s != [] {
      FilterMonotone(s[1..], p, q);
      var a, b := Filter(s[1..], p), Filter(s[1..], q);
      if p(s[0]) {
        assert ([s[0]] + a)[1..] == a && ([s[0]] + b)[1..] == b;
      } else if q(s[0]) {
        assert ([s[0]] + b)[1..] == b;
      }
    }
  }

  /** Filtering distributes over concatenation. */
  lemma {:induction false} FilterConcat<T(!new)>(s: seq<T>, t: seq<T>, p: T -> bool)
    ensures Filter(s + t, p) == Filter(s, p) + Filter(t, p)
  {
    if s == [] {
      assert s + t == t;
    } else {
      assert (s + t)[0] == s[0];
      assert (s + t)[1..] == s[1..] + t;
      FilterConcat(s[1..], t, p);
    }
  }

  /** Filters with pointwise-equal predicates on the elements of s agree. */
  lemma {:induction false} FilterCongruent<T(!new)>(s: seq<T>, p: T -> bool, q: T -> bool)
    requires forall i :: 0 <= i < |s| ==> p(s[i]) == q(s[i])
    ensures Filter(s, p) == Filter(s, q)
  {
    if s != [] {
      assert forall i :: 0 <= i < |s[1..]| ==> s[1..][i] == s[i + 1];
      FilterCongruent(s[1..], p, q);
    }
  }

  /** A predicate true of every element keeps everything. */
  lemma {:induction false} FilterAll<T(!new)>(s: seq<T>, p: T -> bool)
    requires forall i :: 0 <= i < |s| ==> p(s[i])
    ensures Filter(s, p) == s
  {
    if s != [] {
      assert forall i :: 0 <= i < |s[1..]| ==> s[1..][i] == s[i + 1];
      FilterAll(s[1..], p);
    }
  }

  /** A predicate false of every element keeps nothing. */
  lemma {:induction false} FilterNone<T(!new)>(s: seq<T>, p: T -> bool)
    requires forall i :: 0 <= i < |s| ==> !p(s[i])
    ensures Filter(s, p) == []
  {
    if s != [] {
      assert forall i :: 0 <= i < |s[1..]| ==> s[1..][i] == s[i + 1];
      FilterNone(s[1..], p);
    }
  }

  /** A predicate true of a prefix and false of the rest keeps exactly that prefix. */
  lemma {:induction false} FilterPrefix<T(!new)>(s: seq<T>, k: nat, p: T -> bool)
    requires k <= |s|
    requires forall i :: 0 <= i < k ==> p(s[i])
    requires forall i :: k <= i < |s| ==> !p(s[i])
    ensures Filter(s, p) == s[..k]
  {
    if k == 0 {
      FilterNone(s, p);
    } else {
      assert forall i :: 0 <= i < |s[1..]| ==> s[1..][i] == s[i + 1];
      FilterPrefix(s[1..], k - 1, p);
      assert s[..k] == [s[0]] + s[1..][..k - 1];
    }
  }

  /** The first index whose element satisfies p (Array.prototype.find, query.first()). */
  function FindIndex<T>(s: seq<T>, p: T -> bool): (r: Option<nat>)
    ensures r.Some? ==> r.value < |s| && p(s[r.value]) && forall j :: 0 <= j < r.value ==> !p(s[j])
    ensures r.None? ==> forall j :: 0 <= j < |s| ==> !p(s[j])
  {
    if s == [] then None
    else if p(s[0]) then Some(0)
    else match FindIndex(s[1..], p)
      case None => None
      case Some(i) => Some(i + 1)
  }

  /** The first element satisfying p, if any. */
  function Find<T>(s: seq<T>, p: T -> bool): (r: Option<T>)
    ensures r.Some? <==> exists i :: 0 <= i < |s| && p(s[i])
    ensures r.Some? ==> p(r.value) && r.value in s
  {
    match FindIndex(s, p)
    case None => None
    case Some(i) => Some(s[i])
  }

  /** The first min(n, |s|) elements (SQL LIMIT n). */
  function Take<T>(s: seq<T>, n: nat): (r: seq<T>)
    ensures |r| <= n && |r| <= |s|
    ensures |s| <= n ==> r == s
    ensures |s| > n ==> |r| == n
    ensures r == s[..|r|]
  {
    if |s| <= n then s else s[..n]
  }

  /** The elements of s, each mapped by f. */
  function Map<T, U>(s: seq<T>, f: T -> U): (r: seq<U>)
    ensures |r| == |s| && forall i :: 0 <= i < |s| ==> r[i] == f(s[i])
  {
    if s == [] then [] else [f(s[0])] + Map(s[1..], f)
  }

  /** What Map(s, f) holds: the images of the elements of s. */
  lemma MapMembers<T, U>(s: seq<T>, f: T -> U)
    ensures forall y :: y in Map(s, f) <==> exists x :: x in s && y == f(x)
  {
    var r := Map(s, f);
    forall y | y in r ensures exists x :: x in s && y == f(x) {
      var i :| 0 <= i < |r| && r[i] == y;
      assert s[i] in s && y == f(s[i]);
    }
    forall x | x in s ensures f(x) in r {
      var i :| 0 <= i < |s| && s[i] == x;
      assert r[i] == f(x);
    }
  }

  /** Unique(rows, key): no two rows share a key (a UNIQUE or PRIMARY KEY column). */
  predicate Unique<T, K(==)>(rows: seq<T>, key: T -> K) {
    forall i, j :: 0 <= i < j < |rows| ==> key(rows[i]) != key(rows[j])
  }

  /** Replacing the row at k of a table with unique keys by a row that fails p takes
      exactly that row's key out of the rows that satisfy p. */
  lemma ReplaceDropsFromFilter<T(!new), K>(rows: seq<T>, k: nat, x: T, key: T -> K, p: T -> bool)
    requires Unique(rows, key) && k < |rows| && !p(x)
    ensures forall y :: y in Filter(rows[k := x], p) <==> y in Filter(rows, p) && key(y) != key(rows[k])
  {
    var r := rows[k := x];
    forall y ensures y in r && p(y) <==> y in rows && p(y) && key(y) != key(rows[k]) {
      if y in r && p(y) {
        var i :| 0 <= i < |r| && r[i] == y;
        assert i != k;
        assert r[i] == rows[i];
        if i < k {
          assert key(rows[i]) != key(rows[k]);
        } else {
          assert key(rows[k]) != key(rows[i]);
        }
      }
      if y in rows && p(y) && key(y) != key(rows[k]) {
        var i :| 0 <= i < |rows| && rows[i] == y;
        assert i != k && r[i] == y;
      }
    }
  }

  /** Two rows with the same key of a unique column are the same row. */
  lemma UniqueKeyIndex<T, K>(rows: seq<T>, key: T -> K, i: nat, j: nat)
    requires Unique(rows, key) && i < |rows| && j < |rows| && key(rows[i]) == key(rows[j])
    ensures i == j
  {
  }

  /** Appending a row whose key no row has keeps a column unique. */
  lemma UniqueAppend<T, K>(rows: seq<T>, x: T, key: T -> K)
    requires Unique(rows, key)
    requires forall i :: 0 <= i < |rows| ==> key(rows[i]) != key(x)
    ensures Unique(rows + [x], key)
  {
    var r := rows + [x];
    forall i, j | 0 <= i < j < |r| ensures key(r[i]) != key(r[j]) {
      if j < |rows| {
        assert r[i] == rows[i] && r[j] == rows[j];
      } else {
        assert r[i] == rows[i] && r[j] == x;
      }
    }
  }

  /** Removing a row keeps a column unique. */
  lemma UniqueRemove<T, K>(rows: seq<T>, k: nat, key: T -> K)
    requires Unique(rows, key) && k < |rows|
    ensures Unique(rows[..k] + rows[k + 1..], key)
  {
    var r := rows[..k] + rows[k + 1..];
    forall i, j | 0 <= i < j < |r| ensures key(r[i]) != key(r[j]) {
      var i' := if i < k then i else i + 1;
      var j' := if j < k then j else j + 1;
      assert r[i] == rows[i'] && r[j] == rows[j'] && i' < j';
    }
  }

  /** Replacing a row by one whose key no other row has keeps a column unique. */
  lemma UniqueReplace<T, K>(rows: seq<T>, k: nat, x: T, key: T -> K)
    requires Unique(rows, key) && k < |rows|
    requires forall j :: 0 <= j < |rows| && j != k ==> key(rows[j]) != key(x)
    ensures Unique(rows[k := x], key)
  {
    var r := rows[k := x];
    forall i, j | 0 <= i < j < |r| ensures key(r[i]) != key(r[j]) {
      if i == k {
        assert r[i] == x && r[j] == rows[j];
      } else if j == k {
        assert r[j] == x && r[i] == rows[i];
      } else {
        assert r[i] == rows[i] && r[j] == rows[j];
      }
    }
  }

  /** Replacing a row by one with the same key keeps a column unique. */
  lemma UniqueReplaceSameKey<T, K>(rows: seq<T>, k: nat, x: T, key: T -> K)
    requires Unique(rows, key) && k < |rows| && key(x) == key(rows[k])
    ensures Unique(rows[k := x], key)
  {
    forall j | 0 <= j < |rows| && j != k ensures key(rows[j]) != key(x) {
      if j < k {} else {}
    }
    UniqueReplace(rows, k, x, key);
  }

  // ---------------------------------------------------------------------------
  // Text: ASCII case folding, substring, whitespace
  // ---------------------------------------------------------------------------

  /** ASCII lower-casing of one character. */
  function Lower(c: char): char {
    if 'A' <= c <= 'Z' then (c as int + 32) as char else c
  }

  /** ASCII lower-casing of a string (the model's String.prototype.toLowerCase). */
  function LowerStr(s: string): (r: string)
    ensures |r| == |s| && forall i :: 0 <= i < |s| ==> r[i] == Lower(s[i])
  {
    if s == [] then [] else [Lower(s[0])] + LowerStr(s[1..])
  }

  predicate StartsWith(s: string, t: string) {
    |t| <= |s| && s[..|t|] == t
  }

  /** t occurs in s as a contiguous block (String.prototype.includes). */
  predicate Contains(s: string, t: string)
    decreases |s|
  {
    StartsWith(s, t) || (s != [] && Contains(s[1..], t))
  }

  /** Contains means: some suffix of s starts with t. */
  lemma {:induction false} ContainsAt(s: string, t: string)
    ensures Contains(s, t) <==> exists i :: 0 <= i <= |s| && StartsWith(s[i..], t)
  {
    assert s[0..] == s;
    if s != [] {
      ContainsAt(s[1..], t);
      if exists i :: 0 <= i <= |s[1..]| && StartsWith(s[1..][i..], t) {
        var i :| 0 <= i <= |s[1..]| && StartsWith(s[1..][i..], t);
        assert s[1..][i..] == s[i + 1..];
      }
      if exists i :: 0 <= i <= |s| && StartsWith(s[i..], t) {
        var i :| 0 <= i <= |s| && StartsWith(s[i..], t);
        if i > 0 {
          assert s[i..] == s[1..][i - 1..];
        }
      }
    }
  }

  /** The empty string occurs in every string. */
  lemma ContainsEmpty(s: string)
    ensures Contains(s, "")
  {
    assert StartsWith(s, "");
  }

  /** Case-insensitive substring match (SQL ILIKE '%t%', or includes after toLowerCase). */
  predicate ContainsIgnoringCase(s: string, t: string) {
    Contains(LowerStr(s), LowerStr(t))
  }

  /** SQL LIKE with no escape character: '%' matches any run of characters, '_' any
      single character, and every other pattern character itself. */
  predicate Like(s: string, pat: string)
    decreases |pat|, |s|
  {
    if pat == [] then s == []
    else if pat[0] == '%' then Like(s, pat[1..]) || (s != [] && Like(s[1..], pat))
    else s != [] && (pat[0] == '_' || pat[0] == s[0]) && Like(s[1..], pat[1..])
  }

  /** `col.ilike(pat)` as SQLite runs it: `lower(col) LIKE lower(pat)`, ASCII folding. */
  predicate ILike(s: string, pat: string) {
    Like(LowerStr(s), LowerStr(pat))
  }

  /** A text with no LIKE wildcard in it. */
  predicate Literal(t: string) {
    forall i :: 0 <= i < |t| ==> t[i] != '%' && t[i] != '_'
  }

  /** A lone '%' matches everything. */
  lemma {:induction false} LikeAnything(s: string)
    ensures Like(s, "%")
  {
    if s != [] {
      LikeAnything(s[1..]);
    }
  }

  /** A leading '%' lets the rest of the pattern match any suffix. */
  lemma {:induction false} LikeLeadingPercent(s: string, p: string)
    ensures Like(s, "%" + p) <==> exists i :: 0 <= i <= |s| && Like(s[i..], p)
  {
    assert ("%" + p)[1..] == p;
    assert s[0..] == s;
    if s != [] {
      LikeLeadingPercent(s[1..], p);
      if exists i :: 0 <= i <= |s[1..]| && Like(s[1..][i..], p) {
        var i :| 0 <= i <= |s[1..]| && Like(s[1..][i..], p);
        assert s[1..][i..] == s[i + 1..];
      }
      if exists i :: 0 <= i <= |s| && Like(s[i..], p) {
        var i :| 0 <= i <= |s| && Like(s[i..], p);
        if i > 0 {
          assert s[i..] == s[1..][i - 1..];
        }
      }
    }
  }

  /** A literal followed by '%' matches exactly the strings that start with it. */
  lemma {:induction false} LikeLiteralPrefix(s: string, t: string)
    requires Literal(t)
    ensures Like(s, t + "%") <==> StartsWith(s, t)
  {
    if t == [] {
      assert t + "%" == "%";
      LikeAnything(s);
    } else {
      assert (t + "%")[1..] == t[1..] + "%";
      assert Literal(t[1..]) by {
        forall i | 0 <= i < |t[1..]| ensures t[1..][i] != '%' && t[1..][i] != '_' {
          assert t[1..][i] == t[i + 1];
        }
      }
      if s != [] {
        LikeLiteralPrefix(s[1..], t[1..]);
        if |t| <= |s| {
          assert s[..|t|] == [s[0]] + s[1..][..|t| - 1];
          assert t == [t[0]] + t[1..];
        }
      }
    }
  }

  /** For a literal, the pattern '%t%' is a substring test. */
  lemma LikeContains(s: string, t: string)
    requires Literal(t)
    ensures Like(s, "%" + t + "%") <==> Contains(s, t)
  {
    assert "%" + t + "%" == "%" + (t + "%");
    LikeLeadingPercent(s, t + "%");
    ContainsAt(s, t);
    forall i | 0 <= i <= |s| ensures Like(s[i..], t + "%") <==> StartsWith(s[i..], t) {
      LikeLiteralPrefix(s[i..], t);
    }
  }

  /** Lower-casing commutes with concatenation. */
  lemma LowerStrConcat(a: string, b: string)
    ensures LowerStr(a + b) == LowerStr(a) + LowerStr(b)
  {
    assert forall i :: 0 <= i < |a + b| ==> LowerStr(a + b)[i] == (LowerStr(a) + LowerStr(b))[i];
  }

  /** `ilike('%t%')` with a text free of wildcards is a case-insensitive substring test. */
  lemma ILikeContains(s: string, t: string)
    requires Literal(t)
    ensures ILike(s, "%" + t + "%") <==> ContainsIgnoringCase(s, t)
  {
    LowerStrConcat("%" + t, "%");
    LowerStrConcat("%", t);
    assert LowerStr("%") == "%";
    assert Literal(LowerStr(t));
    LikeContains(LowerStr(s), LowerStr(t));
  }

  /** The whitespace String.prototype.trim removes (its ASCII and Latin-1 members). */
  predicate IsSpace(c: char) {
    c == ' ' || c == '\t' || c == '\n' || c == '\r' || c == '\U{0B}' || c == '\U{0C}'
    || c == '\U{A0}' || c == '\U{FEFF}'
  }

  predicate IsBlank(s: string) {
    forall i :: 0 <= i < |s| ==> IsSpace(s[i])
  }

  function TrimStart(s: string): (r: string)
    ensures |r| <= |s| && r == s[|s| - |r|..]
    ensures r != [] ==> !IsSpace(r[0])
  {
    if s != [] && IsSpace(s[0]) then TrimStart(s[1..]) else s
  }

  function TrimEnd(s: string): (r: string)
    ensures |r| <= |s| && r == s[..|r|]
  {
    if s != [] && IsSpace(s[|s| - 1]) then TrimEnd(s[..|s| - 1]) else s
  }

  /** What `TrimStart` removes is white space. */
  lemma {:induction false} TrimStartRemovesOnlySpace(s: string)
    ensures forall i :: 0 <= i < |s| - |TrimStart(s)| ==> IsSpace(s[i])
  {
    if s != [] && IsSpace(s[0]) {
      var t := s[1..];
      TrimStartRemovesOnlySpace(t);
      assert TrimStart(s) == TrimStart(t);
      forall i | 1 <= i < |s| - |TrimStart(s)| ensures IsSpace(s[i]) {
        assert s[i] == t[i - 1];
      }
    }
  }

  /** What `TrimEnd` removes is white space, and what it keeps does not end with it. */
  lemma {:induction false} TrimEndRemovesOnlySpace(s: string)
    ensures TrimEnd(s) != [] ==> !IsSpace(TrimEnd(s)[|TrimEnd(s)| - 1])
    ensures forall i :: |TrimEnd(s)| <= i < |s| ==> IsSpace(s[i])
  {
    if s != [] && IsSpace(s[|s| - 1]) {
      var t := s[..|s| - 1];
      TrimEndRemovesOnlySpace(t);
      assert TrimEnd(s) == TrimEnd(t);
      forall i | |TrimEnd(s)| <= i < |s| - 1 ensures IsSpace(s[i]) {
        assert s[i] == t[i];
      }
    }
  }

  /** String.prototype.trim. */
  function Trim(s: string): string {
    TrimEnd(TrimStart(s))
  }

  lemma {:induction false} TrimStartEmptyIffBlank(s: string)
    ensures TrimStart(s) == [] <==> IsBlank(s)
  {
    if s != [] && IsSpace(s[0]) {
      TrimStartEmptyIffBlank(s[1..]);
      assert IsBlank(s) <==> IsBlank(s[1..]) by {
        assert forall i :: 0 <= i < |s[1..]| ==> s[1..][i] == s[i + 1];
      }
    }
  }

  lemma {:induction false} TrimEndKeepsNonSpaceHead(s: string)
    requires s != [] && !IsSpace(s[0])
    ensures TrimEnd(s) != []
  {
    if IsSpace(s[|s| - 1]) {
      assert |s| > 1;
      TrimEndKeepsNonSpaceHead(s[..|s| - 1]);
    }
  }

  /** trim() leaves nothing exactly when every character is whitespace. */
  lemma TrimEmptyIffBlank(s: string)
    ensures Trim(s) == [] <==> IsBlank(s)
  {
    TrimStartEmptyIffBlank(s);
    if TrimStart(s) != [] {
      TrimEndKeepsNonSpaceHead(TrimStart(s));
    }
  }

  // ---------------------------------------------------------------------------
  // Decimal integers as text
  // ---------------------------------------------------------------------------

  predicate IsDigit(c: char) {
    '0' <= c <= '9'
  }

  predicate AllDigits(s: string) {
    forall i :: 0 <= i < |s| ==> IsDigit(s[i])
  }

  function DigitChar(d: nat): (c: char)
    requires d < 10
    ensures IsDigit(c) && c as int - '0' as int == d
  {
    ('0' as int + d) as char
  }

  /** Decimal text of a natural number, without leading zeros. */
  function NatToString(n: nat): (r: string)
    ensures r != [] && AllDigits(r)
    decreases n
  {
    if n < 10 then [DigitChar(n)] else NatToString(n / 10) + [DigitChar(n % 10)]
  }

  /** Number.prototype.toString() on an integer. */
  function IntToString(n: int): string {
    if n < 0 then "-" + NatToString(-n) else NatToString(n)
  }

  /** The value of a string of decimal digits. */
  function DigitsValue(s: string): nat
    requires AllDigits(s)
  {
    if s == [] then 0 else DigitsValue(s[..|s| - 1]) * 10 + (s[|s| - 1] as int - '0' as int)
  }

  /** How many decimal digits s starts with. */
  function LeadingDigits(s: string): (k: nat)
    ensures k <= |s| && AllDigits(s[..k])
    ensures k < |s| ==> !IsDigit(s[k])
  {
    if s != [] && IsDigit(s[0]) then 1 + LeadingDigits(s[1..]) else 0
  }

  /** JavaScript parseInt(s) with radix 10 on a string: leading whitespace, an optional
      sign, then the longest run of digits; None stands for NaN. */
  function ParseIntJs(s: string): Option<int> {
    var t := TrimStart(s);
    var neg := |t| > 0 && t[0] == '-';
    var u := if |t| > 0 && (t[0] == '-' || t[0] == '+') then t[1..] else t;
    var k := LeadingDigits(u);
    var v: int := DigitsValue(u[..k]);
    if k == 0 then None else Some(if neg then -v else v)
  }

  /** Python int(s) on a str: surrounding whitespace, an optional sign, then digits only. */
  function PyInt(s: string): Option<int> {
    var t := Trim(s);
    var neg := |t| > 0 && t[0] == '-';
    var u := if |t| > 0 && (t[0] == '-' || t[0] == '+') then t[1..] else t;
    if u != [] && AllDigits(u) then var v: int := DigitsValue(u); Some(if neg then -v else v)
    else None
  }

  lemma {:induction false} NatToStringValue(n: nat)
    ensures DigitsValue(NatToString(n)) == n
    decreases n
  {
    var r := NatToString(n);
    if n >= 10 {
      NatToStringValue(n / 10);
      assert r[..|r| - 1] == NatToString(n / 10);
    }
  }

  lemma LeadingDigitsOfDigits(s: string)
    requires AllDigits(s)
    ensures LeadingDigits(s) == |s|
  {
  }

  lemma NoSpaceInNumber(n: int)
    ensures !IsSpace(IntToString(n)[0])
    ensures !IsSpace(IntToString(n)[|IntToString(n)| - 1])
  {
  }

  /** parseInt reads back what toString wrote. */
  lemma ParseIntJsOfIntToString(n: int)
    ensures ParseIntJs(IntToString(n)) == Some(n)
  {
    var s := IntToString(n);
    NoSpaceInNumber(n);
    assert TrimStart(s) == s;
    if n < 0 {
      ParseIntJsOfDigits(NatToString(-n), -n, true);
      assert s == "-" + NatToString(-n);
    } else {
      ParseIntJsOfDigits(NatToString(n), n, false);
    }
  }

  /** parseInt of an optional minus sign followed by the digits of v. */
  lemma ParseIntJsOfDigits(d: string, v: nat, neg: bool)
    requires d == NatToString(v)
    ensures var s := if neg then "-" + d else d;
            TrimStart(s) == s ==> ParseIntJs(s) == Some(if neg then -(v as int) else v as int)
  {
    var s := if neg then "-" + d else d;
    var u := if neg then s[1..] else s;
    assert u == d;
    assert d[0] != '-' && d[0] != '+';
    LeadingDigitsOfDigits(d);
    assert d[..|d|] == d;
    NatToStringValue(v);
  }

  /** Printed integers carry no surrounding whitespace. */
  lemma TrimOfNumber(n: int)
    ensures Trim(IntToString(n)) == IntToString(n)
  {
    var s := IntToString(n);
    NoSpaceInNumber(n);
    assert TrimStart(s) == s;
    assert TrimEnd(s) == s;
  }

  /** Python's int() reads back what toString wrote. */
  lemma PyIntOfIntToString(n: int)
    ensures PyInt(IntToString(n)) == Some(n)
  {
    var s := IntToString(n);
    TrimOfNumber(n);
    if n < 0 {
      assert s[0] == '-' && s[1..] == NatToString(-n);
      NatToStringValue(-n);
    } else {
      assert s == NatToString(n) && s[0] != '-' && s[0] != '+';
      NatToStringValue(n);
    }
  }

  // ---------------------------------------------------------------------------
  // GROUP BY key with COUNT(*)
  // ---------------------------------------------------------------------------

  /** Number of occurrences of k in s. */
  function Occurrences<K(==)>(s: seq<K>, k: K): nat {
    if s == [] then 0 else Occurrences(s[..|s| - 1], k) + (if s[|s| - 1] == k then 1 else 0)
  }

  predicate DistinctKeys<K(==), V>(rows: seq<(K, V)>) {
    forall i, j :: 0 <= i < j < |rows| ==> rows[i].0 != rows[j].0
  }

  /** The count stored for k in a group table (0 when k has no row). */
  function CountFor<K(==)>(rows: seq<(K, nat)>, k: K): nat {
    if rows == [] then 0 else if rows[0].0 == k then rows[0].1 else CountFor(rows[1..], k)
  }

  function SumCounts<K>(rows: seq<(K, nat)>): nat {
    if rows == [] then 0 else rows[0].1 + SumCounts(rows[1..])
  }

  predicate HasKey<K(==), V>(rows: seq<(K, V)>, k: K) {
    exists i :: 0 <= i < |rows| && rows[i].0 == k
  }

  /** Counts one more occurrence of k: increments its row, or appends (k, 1). */
  function AddKey<K(==,!new)>(rows: seq<(K, nat)>, k: K): (r: seq<(K, nat)>)
    ensures DistinctKeys(rows) ==> DistinctKeys(r)
    ensures forall k' :: CountFor(r, k') == CountFor(rows, k') + (if k' == k then 1 else 0)
    ensures SumCounts(r) == SumCounts(rows) + 1
    ensures (forall i :: 0 <= i < |rows| ==> rows[i].1 > 0) ==> forall i :: 0 <= i < |r| ==> r[i].1 > 0
    ensures forall k' :: HasKey(r, k') <==> HasKey(rows, k') || k' == k
  {
    if rows == [] then [(k, 1)]
    else if rows[0].0 == k then
      assert forall k' :: HasKey(rows, k') <==> k' == k || HasKey(rows[1..], k') by {
        forall k' | HasKey(rows, k') && k' != k ensures HasKey(rows[1..], k') {
          var i :| 0 <= i < |rows| && rows[i].0 == k';
          assert rows[1..][i - 1] == rows[i];
        }
      }
      var r := [(k, rows[0].1 + 1)] + rows[1..];
      assert r[0].0 == k;
      assert forall k' :: HasKey(r, k') <==> k' == k || HasKey(rows[1..], k') by {
        forall k' | HasKey(r, k') && k' != k ensures HasKey(rows[1..], k') {
          var i :| 0 <= i < |r| && r[i].0 == k';
          assert rows[1..][i - 1] == r[i];
        }
        forall k' | HasKey(rows[1..], k') ensures HasKey(r, k') {
          var i :| 0 <= i < |rows[1..]| && rows[1..][i].0 == k';
          assert r[i + 1] == rows[1..][i];
        }
      }
      r
    else
      var t := AddKey(rows[1..], k);
      var r := [rows[0]] + t;
      assert r[0] == rows[0];
      assert forall k' :: HasKey(rows, k') <==> k' == rows[0].0 || HasKey(rows[1..], k') by {
        forall k' | HasKey(rows, k') && k' != rows[0].0 ensures HasKey(rows[1..], k') {
          var i :| 0 <= i < |rows| && rows[i].0 == k';
          assert rows[1..][i - 1] == rows[i];
        }
      }
      assert forall k' :: HasKey(r, k') <==> k' == rows[0].0 || HasKey(t, k') by {
        forall k' | HasKey(r, k') && k' != rows[0].0 ensures HasKey(t, k') {
          var i :| 0 <= i < |r| && r[i].0 == k';
          assert t[i - 1] == r[i];
        }
        forall k' | HasKey(t, k') ensures HasKey(r, k') {
          var i :| 0 <= i < |t| && t[i].0 == k';
          assert r[i + 1] == t[i];
        }
      }
      assert DistinctKeys(rows) ==> DistinctKeys(r) by {
        if DistinctKeys(rows) {
          assert DistinctKeys(rows[1..]) by {
            forall i, j | 0 <= i < j < |rows[1..]| ensures rows[1..][i].0 != rows[1..][j].0 {
              assert rows[1..][i] == rows[i + 1] && rows[1..][j] == rows[j + 1];
            }
          }
          assert !HasKey(rows[1..], rows[0].0) by {
            forall i | 0 <= i < |rows[1..]| ensures rows[1..][i].0 != rows[0].0 {
              assert rows[1..][i] == rows[i + 1];
            }
          }
          assert !HasKey(t, rows[0].0);
          forall i, j | 0 <= i < j < |r| ensures r[i].0 != r[j].0 {
            if i == 0 {
              assert r[j] == t[j - 1];
            } else {
              assert r[i] == t[i - 1] && r[j] == t[j - 1];
            }
          }
        }
      }
      r
  }

  /** SQL GROUP BY with COUNT: one row per distinct key, in order of first appearance. */
  function GroupCount<K(==,!new)>(s: seq<K>): (r: seq<(K, nat)>)
    ensures DistinctKeys(r)
    ensures forall k :: CountFor(r, k) == Occurrences(s, k)
    ensures SumCounts(r) == |s|
    ensures forall i :: 0 <= i < |r| ==> r[i].1 > 0
    ensures forall k :: HasKey(r, k) <==> k in s
  {
    if s == [] then []
    else
      var r := AddKey(GroupCount(s[..|s| - 1]), s[|s| - 1]);
      assert forall k :: k in s <==> k in s[..|s| - 1] || k == s[|s| - 1] by {
        assert s == s[..|s| - 1] + [s[|s| - 1]];
      }
      r
  }

  /** In a table with distinct keys, row i holds the count looked up for its key. */
  lemma {:induction false} CountForRow<K>(rows: seq<(K, nat)>, i: nat)
    requires DistinctKeys(rows) && i < |rows|
    ensures CountFor(rows, rows[i].0) == rows[i].1
  {
    if i > 0 {
      assert DistinctKeys(rows[1..]) by {
        forall a, b | 0 <= a < b < |rows[1..]| ensures rows[1..][a].0 != rows[1..][b].0 {
          assert rows[1..][a] == rows[a + 1] && rows[1..][b] == rows[b + 1];
        }
      }
      assert rows[1..][i - 1] == rows[i];
      CountForRow(rows[1..], i - 1);
    }
  }

  /** Each row of GroupCount(s) counts exactly the occurrences of its key in s. */
  lemma GroupCountRow<K(!new)>(s: seq<K>, i: nat)
    requires i < |GroupCount(s)|
    ensures GroupCount(s)[i].1 == Occurrences(s, GroupCount(s)[i].0)
  {
    CountForRow(GroupCount(s), i);
  }

  /** Occurrences of k split over a filter and the filter by its complement q. */
  lemma {:induction false} OccurrencesSplit<T(!new), K>(s: seq<T>, f: T -> K, p: T -> bool, q: T -> bool, k: K)
    requires forall x :: q(x) == !p(x)
    ensures Occurrences(Map(s, f), k)
         == Occurrences(Map(Filter(s, p), f), k) + Occurrences(Map(Filter(s, q), f), k)
  {
    if s != [] {
      OccurrencesSplit(s[1..], f, p, q, k);
      OccurrencesCons(f(s[0]), Map(s[1..], f), k);
      assert Map(s, f) == [f(s[0])] + Map(s[1..], f);
      if p(s[0]) {
        assert Map(Filter(s, p), f) == [f(s[0])] + Map(Filter(s[1..], p), f);
        OccurrencesCons(f(s[0]), Map(Filter(s[1..], p), f), k);
      } else {
        assert Map(Filter(s, q), f) == [f(s[0])] + Map(Filter(s[1..], q), f);
        OccurrencesCons(f(s[0]), Map(Filter(s[1..], q), f), k);
      }
    }
  }

  lemma {:induction false} OccurrencesCons<K>(x: K, s: seq<K>, k: K)
    ensures Occurrences([x] + s, k) == (if x == k then 1 else 0) + Occurrences(s, k)
    decreases |s|
  {
    if s != [] {
      var t := [x] + s;
      assert t[..|t| - 1] == [x] + s[..|s| - 1];
      OccurrencesCons(x, s[..|s| - 1], k);
    } else {
      assert ([x] + s)[..0] == [];
    }
  }

  // ---------------------------------------------------------------------------
  // ORDER BY key DESC
  // ---------------------------------------------------------------------------

  predicate SortedDesc<T>(s: seq<T>, key: T -> int) {
    forall i, j :: 0 <= i < j < |s| ==> key(s[i]) >= key(s[j])
  }

  /** The tail of a sorted list is sorted, and its head has the largest key. */
  lemma SortedDescTail<T>(s: seq<T>, key: T -> int)
    requires s != [] && SortedDesc(s, key)
    ensures SortedDesc(s[1..], key)
    ensures forall y :: y in multiset(s[1..]) ==> key(s[0]) >= key(y)
  {
    forall i, j | 0 <= i < j < |s[1..]| ensures key(s[1..][i]) >= key(s[1..][j]) {
      assert s[1..][i] == s[i + 1] && s[1..][j] == s[j + 1];
    }
    forall y | y in multiset(s[1..]) ensures key(s[0]) >= key(y) {
      assert y in s[1..];
      var i :| 0 <= i < |s[1..]| && s[1..][i] == y;
      assert s[1..][i] == s[i + 1];
    }
  }

  /** A head whose key is at least every key of a sorted tail gives a sorted list. */
  lemma SortedDescCons<T>(h: T, t: seq<T>, key: T -> int)
    requires SortedDesc(t, key)
    requires forall y :: y in multiset(t) ==> key(h) >= key(y)
    ensures SortedDesc([h] + t, key)
  {
    forall i | 0 <= i < |t| ensures key(h) >= key(t[i]) {
      assert t[i] in multiset(t);
    }
    forall i, j | 0 <= i < j < |[h] + t| ensures key(([h] + t)[i]) >= key(([h] + t)[j]) {
      if i > 0 {
        assert ([h] + t)[i] == t[i - 1] && ([h] + t)[j] == t[j - 1];
      } else {
        assert ([h] + t)[j] == t[j - 1];
      }
    }
  }

  /** The step of the insertion that keeps the head in front of an insertion into the
      tail. */
  lemma InsertDescHead<T>(x: T, s: seq<T>, t: seq<T>, key: T -> int)
    requires s != [] && key(s[0]) >= key(x)
    requires SortedDesc(t, key) && multiset(t) == multiset(s[1..]) + multiset{x}
    requires forall y :: y in multiset(s[1..]) ==> key(s[0]) >= key(y)
    ensures SortedDesc([s[0]] + t, key)
    ensures multiset([s[0]] + t) == multiset(s) + multiset{x}
  {
    assert s == [s[0]] + s[1..];
    SortedDescCons(s[0], t, key);
  }

  /** Inserts x into a list sorted by descending key, after the elements whose key is
      at least key(x). */
  function InsertDesc<T(==)>(x: T, s: seq<T>, key: T -> int): (r: seq<T>)
    requires SortedDesc(s, key)
    ensures SortedDesc(r, key)
    ensures multiset(r) == multiset(s) + multiset{x}
  {
    if s == [] || key(s[0]) < key(x) then
      SortedDescCons(x, s, key);
      [x] + s
    else
      SortedDescTail(s, key);
      var t := InsertDesc(x, s[1..], key);
      InsertDescHead(x, s, t, key);
      [s[0]] + t
  }

  /** An insertion sort by descending key: sorted and a permutation of s. */
  function SortDesc<T(==)>(s: seq<T>, key: T -> int): (r: seq<T>)
    ensures SortedDesc(r, key)
    ensures multiset(r) == multiset(s)
  {
    if s == [] then []
    else
      assert s == [s[0]] + s[1..];
      InsertDesc(s[0], SortDesc(s[1..], key), key)
  }

  /** A prefix holds no more of anything than the whole. */
  lemma TakeSubMultiset<T>(s: seq<T>, n: nat)
    ensures multiset(Take(s, n)) <= multiset(s)
  {
    var r := Take(s, n);
    assert s == r + s[|r|..];
    assert multiset(s) == multiset(r) + multiset(s[|r|..]);
  }

  /** Every row kept by ORDER BY key DESC LIMIT n is a row of the group table, so it
      holds the count of its key. */
  lemma TopRowsAreGroups<K(!new)>(s: seq<K>, key: ((K, nat)) -> int, n: nat)
    ensures forall g :: g in Take(SortDesc(GroupCount(s), key), n) ==>
              g in GroupCount(s) && g.1 == Occurrences(s, g.0) && g.1 > 0
  {
    var groups := GroupCount(s);
    var top := Take(SortDesc(groups, key), n);
    TakeSubMultiset(SortDesc(groups, key), n);
    forall g | g in top
      ensures g in groups && g.1 == Occurrences(s, g.0) && g.1 > 0
    {
      assert g in multiset(top);
      assert g in multiset(groups);
      var i :| 0 <= i < |groups| && groups[i] == g;
      GroupCountRow(s, i);
    }
  }

  /** An element at two positions counts at least twice. */
  lemma TwoPositionsCountTwice<T>(s: seq<T>, i: nat, j: nat)
    requires i < j < |s| && s[i] == s[j]
    ensures multiset(s)[s[i]] >= 2
  {
    assert s == s[..j] + [s[j]] + s[j + 1..];
    assert s[..j][i] == s[i];
    assert s[i] in multiset(s[..j]);
  }

  /** In a list without repeats each element counts at most once. */
  lemma {:induction false} DistinctCountsOnce<T>(s: seq<T>, x: T)
    requires forall i, j :: 0 <= i < j < |s| ==> s[i] != s[j]
    ensures multiset(s)[x] <= 1
  {
    if s != [] {
      assert s == [s[0]] + s[1..];
      forall i, j | 0 <= i < j < |s[1..]| ensures s[1..][i] != s[1..][j] {
        assert s[1..][i] == s[i + 1] && s[1..][j] == s[j + 1];
      }
      DistinctCountsOnce(s[1..], x);
    }
  }

  /** The rows kept by ORDER BY key DESC LIMIT n have distinct keys, and there are
      min(n, number of groups) of them. */
  lemma TopRowsDistinct<K(!new)>(s: seq<K>, key: ((K, nat)) -> int, n: nat)
    ensures var top := Take(SortDesc(GroupCount(s), key), n);
            && DistinctKeys(top)
            && |top| == (if |GroupCount(s)| < n then |GroupCount(s)| else n)
  {
    var groups := GroupCount(s);
    var sorted := SortDesc(groups, key);
    var top := Take(sorted, n);
    assert |sorted| == |groups| by {
      assert |multiset(sorted)| == |multiset(groups)|;
    }
    TopRowsAreGroups(s, key, n);
    forall i, j | 0 <= i < j < |top| ensures top[i].0 != top[j].0 {
      if top[i].0 == top[j].0 {
        assert top[i] in top && top[j] in top;
        assert top[i] == top[j];
        assert top == sorted[..|top|];
        assert sorted[i] == sorted[j];
        TwoPositionsCountTwice(sorted, i, j);
        assert forall a, b :: 0 <= a < b < |groups| ==> groups[a] != groups[b];
        DistinctCountsOnce(groups, sorted[i]);
        assert false;
      }
    }
  }

  /** What ORDER BY key DESC LIMIT n keeps of a group table: sorted rows of the table,
      with distinct keys, min(n, number of groups) of them, none smaller than a row
      left out, and every key when there are no more than n groups. */
  lemma TopRows<K(!new)>(s: seq<K>, key: ((K, nat)) -> int, n: nat)
    ensures var top := Take(SortDesc(GroupCount(s), key), n);
            && SortedDesc(top, key)
            && (forall g :: g in top ==> g.1 == Occurrences(s, g.0) && g.1 > 0)
            && (forall g, h :: g in GroupCount(s) && g !in top && h in top ==> key(h) >= key(g))
            && DistinctKeys(top)
            && |top| == (if |GroupCount(s)| < n then |GroupCount(s)| else n)
            && (forall k :: k in s && |GroupCount(s)| <= n ==> exists g :: g in top && g.0 == k)
  {
    var groups := GroupCount(s);
    var sorted := SortDesc(groups, key);
    var top := Take(sorted, n);
    TopRowsAreGroups(s, key, n);
    TopRowsDistinct(s, key, n);
    LimitKeepsLargestElements(sorted, key, n);
    assert SortedDesc(top, key) by {
      assert top == sorted[..|top|];
    }
    forall g | g in groups
      ensures g in sorted
    {
      assert g in multiset(groups);
    }
    forall k | k in s && |groups| <= n ensures exists g :: g in top && g.0 == k {
      assert HasKey(groups, k);
      var i :| 0 <= i < |groups| && groups[i].0 == k;
      assert groups[i] in groups;
    }
  }

  /** The same, for elements rather than positions. */
  lemma LimitKeepsLargestElements<T>(s: seq<T>, key: T -> int, n: nat)
    requires SortedDesc(s, key)
    ensures forall x, y :: x in s && x !in Take(s, n) && y in Take(s, n) ==> key(y) >= key(x)
  {
    var r := Take(s, n);
    forall x, y | x in s && x !in r && y in r ensures key(y) >= key(x) {
      var j :| 0 <= j < |s| && s[j] == x;
      var i :| 0 <= i < |r| && r[i] == y;
      assert r == s[..|r|];
      assert j >= |r| by {
        assert forall k :: 0 <= k < |r| ==> r[k] == s[k];
      }
      LimitKeepsLargest(s, key, n, i, j);
    }
  }

  /** After sorting by descending key and keeping the first n, nothing left out
      has a larger key than anything kept. */
  lemma LimitKeepsLargest<T>(s: seq<T>, key: T -> int, n: nat, i: nat, j: nat)
    requires SortedDesc(s, key)
    requires i < |Take(s, n)| && |Take(s, n)| <= j < |s|
    ensures key(Take(s, n)[i]) >= key(s[j])
  {
  }
}
