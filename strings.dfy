/** The JavaScript string operations the client relies on, over `seq<char>`:
    `includes`/`indexOf`, `split` on a non-empty separator, `trim`,
    `startsWith`, `toLowerCase` (ASCII letters) and `parseInt(s, 10)`. */
module Strings {
  import opened Types

  /** The WhiteSpace and LineTerminator code points of ECMAScript, the
      characters that `trim` removes and `parseInt` skips. */
  predicate IsSpace(c: char)
  {
    ('\t' <= c <= '\r') || c == ' ' || c == '\U{00A0}' || c == '\U{1680}' ||
    ('\U{2000}' <= c <= '\U{200A}') || c == '\U{2028}' || c == '\U{2029}' ||
    c == '\U{202F}' || c == '\U{205F}' || c == '\U{3000}' || c == '\U{FEFF}'
  }

  /** The first position at or after `i` that does not hold white space. */
  function SpaceEnd(s: string, i: nat): (j: nat)
    requires i <= |s|
    ensures i <= j <= |s|
    ensures j < |s| ==> !IsSpace(s[j])
    decreases |s| - i
  {
    if i < |s| && IsSpace(s[i]) then SpaceEnd(s, i + 1) else i
  }

  /** Everything `SpaceEnd` skips is white space. */
  lemma {:induction false} SpaceEndSkipsSpace(s: string, i: nat, k: nat)
    requires i <= |s| && i <= k < SpaceEnd(s, i)
    ensures IsSpace(s[k])
    decreases |s| - i
  {
    if k > i {
      SpaceEndSkipsSpace(s, i + 1, k);
    }
  }

  /** The position, not below `lo`, from which only white space runs up to `j`. */
  function SpaceStart(s: string, lo: nat, j: nat): (r: nat)
    requires lo <= j <= |s|
    ensures lo <= r <= j
    ensures r > lo ==> !IsSpace(s[r - 1])
    decreases j
  {
    if j > lo && IsSpace(s[j - 1]) then SpaceStart(s, lo, j - 1) else j
  }

  /** Everything `SpaceStart` skips is white space. */
  lemma {:induction false} SpaceStartSkipsSpace(s: string, lo: nat, j: nat, k: nat)
    requires lo <= j <= |s| && SpaceStart(s, lo, j) <= k < j
    ensures IsSpace(s[k])
    decreases j
  {
    if k < j - 1 {
      SpaceStartSkipsSpace(s, lo, j - 1, k);
    }
  }

  /** How many characters `trim` drops at the front. */
  function TrimOffset(s: string): nat
  {
    SpaceEnd(s, 0)
  }

  /** `s` with its leading white space removed. */
  function TrimStart(s: string): (r: string)
    ensures |r| <= |s| && r == s[|s| - |r|..]
    ensures r != [] ==> !IsSpace(r[0])
  {
    s[TrimOffset(s)..]
  }

  /** String.prototype.trim: the slice of `s` between its leading and its
      trailing white space. */
  function Trim(s: string): (r: string)
    ensures TrimOffset(s) + |r| <= |s|
    ensures r == s[TrimOffset(s)..TrimOffset(s) + |r|]
    ensures r != [] ==> !IsSpace(r[0]) && !IsSpace(r[|r| - 1])
  {
    s[TrimOffset(s)..SpaceStart(s, TrimOffset(s), |s|)]
  }

  /** Everything `Trim` drops, at either end, is white space. */
  lemma {:induction false} TrimDropsSpace(s: string, k: nat)
    requires k < |s|
    requires k < TrimOffset(s) || TrimOffset(s) + |Trim(s)| <= k
    ensures IsSpace(s[k])
  {
    if k < TrimOffset(s) {
      SpaceEndSkipsSpace(s, 0, k);
    } else {
      SpaceStartSkipsSpace(s, TrimOffset(s), |s|, k);
    }
  }

  /** A string that neither starts nor ends with white space is its own trim. */
  lemma {:induction false} TrimNoSpace(s: string)
    requires s != [] ==> !IsSpace(s[0]) && !IsSpace(s[|s| - 1])
    ensures Trim(s) == s
  {
    assert TrimOffset(s) == 0;
    assert SpaceStart(s, 0, |s|) == |s|;
  }

  /** `SpaceEnd` stops at the first character after `i` that is not white space. */
  lemma {:induction false} SpaceEndAt(s: string, i: nat, k: nat)
    requires i <= k <= |s|
    requires forall m :: i <= m < k ==> IsSpace(s[m])
    requires k < |s| ==> !IsSpace(s[k])
    ensures SpaceEnd(s, i) == k
    decreases k - i
  {
    if i < k {
      SpaceEndAt(s, i + 1, k);
    }
  }

  /** `SpaceStart` stops after the last character before `j` that is not
      white space. */
  lemma {:induction false} SpaceStartAt(s: string, lo: nat, j: nat, r: nat)
    requires lo <= r <= j <= |s|
    requires forall m :: r <= m < j ==> IsSpace(s[m])
    requires r > lo ==> !IsSpace(s[r - 1])
    ensures SpaceStart(s, lo, j) == r
    decreases j
  {
    if r < j {
      SpaceStartAt(s, lo, j - 1, r);
    }
  }

  /** White space, then a core that starts and ends with other characters,
      then white space: the trim is the core. */
  lemma {:induction false} TrimCore(s: string, o: nat, e: nat)
    requires o <= e <= |s|
    requires forall m :: 0 <= m < o ==> IsSpace(s[m])
    requires forall m :: e <= m < |s| ==> IsSpace(s[m])
    requires o < e ==> !IsSpace(s[o]) && !IsSpace(s[e - 1])
    ensures Trim(s) == s[o..e]
  {
    if o == e {
      SpaceEndAt(s, 0, |s|);
    } else {
      SpaceEndAt(s, 0, o);
      SpaceStartAt(s, o, |s|, e);
    }
  }

  /** Cutting white space off either end does not change the trim. */
  lemma {:induction false} TrimSlice(s: string, i: nat, j: nat)
    requires i <= j <= |s|
    requires forall m :: 0 <= m < i ==> IsSpace(s[m])
    requires forall m :: j <= m < |s| ==> IsSpace(s[m])
    ensures Trim(s[i..j]) == Trim(s)
  {
    if Trim(s) == [] {
      forall m | 0 <= m < j - i
        ensures IsSpace(s[i..j][m])
      {
        TrimDropsSpace(s, i + m);
      }
      TrimCore(s[i..j], 0, 0);
    } else {
      TrimSliceCore(s, i, j);
    }
  }

  /** `TrimSlice` when something is left after trimming. */
  lemma {:induction false} TrimSliceCore(s: string, i: nat, j: nat)
    requires i <= j <= |s|
    requires forall m :: 0 <= m < i ==> IsSpace(s[m])
    requires forall m :: j <= m < |s| ==> IsSpace(s[m])
    requires Trim(s) != []
    ensures Trim(s[i..j]) == Trim(s)
  {
    var o, t := TrimOffset(s), Trim(s);
    var e := o + |t|;
    assert t[0] == s[o] && t[|t| - 1] == s[e - 1];
    assert i <= o && e <= j;
    forall m | i <= m < o
      ensures IsSpace(s[m])
    {
      TrimDropsSpace(s, m);
    }
    forall m | e <= m < j
      ensures IsSpace(s[m])
    {
      TrimDropsSpace(s, m);
    }
    TrimSliceAround(s, i, j, o, e);
  }

  /** A slice of `s` holding a core that starts and ends with other
      characters than white space, and only white space around it, trims to
      that core. */
  lemma {:induction false} TrimSliceAround(s: string, i: nat, j: nat, o: nat, e: nat)
    requires i <= o < e <= j <= |s|
    requires forall m :: i <= m < o ==> IsSpace(s[m])
    requires forall m :: e <= m < j ==> IsSpace(s[m])
    requires !IsSpace(s[o]) && !IsSpace(s[e - 1])
    ensures Trim(s[i..j]) == s[o..e]
  {
    var w := s[i..j];
    forall m | 0 <= m < o - i
      ensures IsSpace(w[m])
    {
      assert w[m] == s[i + m];
    }
    forall m | e - i <= m < |w|
      ensures IsSpace(w[m])
    {
      assert w[m] == s[i + m];
    }
    TrimCore(w, o - i, e - i);
    forall k | 0 <= k < e - o
      ensures w[o - i..e - i][k] == s[o..e][k]
    {
      assert w[o - i + k] == s[o + k];
    }
    assert w[o - i..e - i] == s[o..e];
  }

  /** The trim of a text with a marker inside that starts and ends with
      other characters than white space: only the front of the text before
      the marker and the back of the text after it are cut. */
  lemma {:induction false} TrimAround(a: string, mark: string, b: string)
    requires |mark| > 0 && !IsSpace(mark[0]) && !IsSpace(mark[|mark| - 1])
    ensures Trim(a + mark + b) == a[TrimOffset(a)..] + mark + b[..SpaceStart(b, 0, |b|)]
  {
    var s := a + mark + b;
    var n := |a| + |mark|;
    var o, k := TrimOffset(a), SpaceStart(b, 0, |b|);
    forall m | 0 <= m < o
      ensures IsSpace(s[m])
    {
      assert s[m] == a[m];
      SpaceEndSkipsSpace(a, 0, m);
    }
    forall m | n + k <= m < |s|
      ensures IsSpace(s[m])
    {
      assert s[m] == b[m - n];
      SpaceStartSkipsSpace(b, 0, |b|, m - n);
    }
    if o < |a| {
      assert s[o] == a[o];
    } else {
      assert s[o] == mark[0];
    }
    if k > 0 {
      assert s[n + k - 1] == b[k - 1];
    } else {
      assert s[n - 1] == mark[|mark| - 1];
    }
    TrimCore(s, o, n + k);
    SliceAround(a, mark, b, o, k);
  }

  /** The slice of `a + mark + b` from `o` in `a` to `k` in `b`. */
  lemma {:induction false} SliceAround(a: string, mark: string, b: string, o: nat, k: nat)
    requires o <= |a| && k <= |b|
    ensures (a + mark + b)[o..|a| + |mark| + k] == a[o..] + mark + b[..k]
  {
    var s, r := a + mark + b, a[o..] + mark + b[..k];
    var n := |a| + |mark|;
    forall x | 0 <= x < |r|
      ensures s[o..n + k][x] == r[x]
    {
      if o + x < |a| {
        assert r[x] == a[o + x];
      } else if o + x < n {
        assert r[x] == mark[o + x - |a|];
      } else {
        assert r[x] == b[o + x - n];
      }
    }
  }

  /** Removing the leading white space does not change the trim. */
  lemma {:induction false} TrimFront(s: string)
    ensures Trim(s[TrimOffset(s)..]) == Trim(s)
  {
    forall m | 0 <= m < TrimOffset(s)
      ensures IsSpace(s[m])
    {
      SpaceEndSkipsSpace(s, 0, m);
    }
    TrimSlice(s, TrimOffset(s), |s|);
    assert s[TrimOffset(s)..|s|] == s[TrimOffset(s)..];
  }

  /** Removing the trailing white space does not change the trim. */
  lemma {:induction false} TrimBack(s: string)
    ensures Trim(s[..SpaceStart(s, 0, |s|)]) == Trim(s)
  {
    var k := SpaceStart(s, 0, |s|);
    forall m | k <= m < |s|
      ensures IsSpace(s[m])
    {
      SpaceStartSkipsSpace(s, 0, |s|, m);
    }
    TrimSlice(s, 0, k);
  }

  /** Trimming twice is trimming once. */
  lemma {:induction false} TrimIdempotent(s: string)
    ensures Trim(Trim(s)) == Trim(s)
  {
    TrimNoSpace(Trim(s));
  }

  predicate StartsWith(s: string, prefix: string)
  {
    |prefix| <= |s| && s[..|prefix|] == prefix
  }

  /** `sub` occurs in `s` starting at index `i`. */
  predicate OccursAt(s: string, sub: string, i: int)
  {
    0 <= i && i + |sub| <= |s| && s[i..i + |sub|] == sub
  }

  /** The first index at or after `from` where `sub` occurs, or -1. */
  function IndexFrom(s: string, sub: string, from: nat): (r: int)
    requires from <= |s|
    ensures r == -1 || (from <= r && OccursAt(s, sub, r))
    ensures forall j :: from <= j && (r == -1 || j < r) ==> !OccursAt(s, sub, j)
    decreases |s| - from
  {
    if from + |sub| > |s| then -1
    else if s[from..from + |sub|] == sub then from
    else IndexFrom(s, sub, from + 1)
  }

  /** String.prototype.indexOf */
  function IndexOf(s: string, sub: string): int
  {
    IndexFrom(s, sub, 0)
  }

  /** An occurrence found in `s` is still the first one once text is appended. */
  lemma {:induction false} IndexFromExtend(s: string, t: string, sub: string, from: nat)
    requires from <= |s| && IndexFrom(s, sub, from) >= 0
    ensures IndexFrom(s + t, sub, from) == IndexFrom(s, sub, from)
    decreases |s| - from
  {
    if s[from..from + |sub|] == sub {
      assert (s + t)[from..from + |sub|] == s[from..from + |sub|];
    } else {
      assert (s + t)[from..from + |sub|] == s[from..from + |sub|];
      IndexFromExtend(s, t, sub, from + 1);
    }
  }

  /** String.prototype.includes */
  predicate Contains(s: string, sub: string)
  {
    IndexOf(s, sub) >= 0
  }

  /** `includes` holds exactly when some occurrence exists. */
  lemma {:induction false} ContainsIff(s: string, sub: string)
    ensures Contains(s, sub) <==> exists j :: OccursAt(s, sub, j)
  {
  }

  /** An occurrence in a slice is an occurrence in the whole string. */
  lemma {:induction false} OccursInSlice(s: string, sub: string, lo: nat, hi: nat, j: int)
    requires lo <= hi <= |s|
    requires OccursAt(s[lo..hi], sub, j)
    ensures OccursAt(s, sub, lo + j)
  {
    var w := s[lo..hi];
    assert 0 <= j && j + |sub| <= |w| && w[j..j + |sub|] == sub;
    var a, b := w[j..j + |sub|], s[lo + j..lo + j + |sub|];
    assert |a| == |b|;
    assert forall t :: 0 <= t < |a| ==> a[t] == b[t];
    assert a == b;
  }

  /** A string that does not contain `sub` has no slice containing it. */
  lemma {:induction false} NotContainsSlice(s: string, sub: string, lo: nat, hi: nat)
    requires lo <= hi <= |s|
    requires !Contains(s, sub)
    ensures !Contains(s[lo..hi], sub)
  {
    if Contains(s[lo..hi], sub) {
      OccursInSlice(s, sub, lo, hi, IndexOf(s[lo..hi], sub));
      assert false;
    }
  }

  /** The text before the first occurrence contains no occurrence. */
  lemma {:induction false} BeforeFirstClean(s: string, sub: string)
    requires |sub| > 0 && IndexOf(s, sub) >= 0
    ensures !Contains(s[..IndexOf(s, sub)], sub)
  {
    var i := IndexOf(s, sub);
    if Contains(s[..i], sub) {
      OccursInSlice(s, sub, 0, i, IndexOf(s[..i], sub));
      assert false;
    }
  }

  /** Trimming cannot create an occurrence. */
  lemma {:induction false} NotContainsTrim(s: string, sub: string)
    requires !Contains(s, sub)
    ensures !Contains(Trim(s), sub)
  {
    NotContainsSlice(s, sub, TrimOffset(s), TrimOffset(s) + |Trim(s)|);
  }

  /** Text dropped before the first occurrence moves it back by as much. */
  lemma {:induction false} IndexOfSuffix(s: string, sub: string, lo: nat)
    requires lo <= IndexOf(s, sub)
    ensures IndexOf(s[lo..], sub) == IndexOf(s, sub) - lo
  {
    var i := IndexOf(s, sub);
    var t := s[lo..];
    assert t[i - lo..i - lo + |sub|] == s[i..i + |sub|];
    assert OccursAt(t, sub, i - lo);
    var r := IndexOf(t, sub);
    assert r >= 0 && OccursAt(t, sub, r);
    assert s[lo..|s|] == t;
    OccursInSlice(s, sub, lo, |s|, r);
  }

  /** String.prototype.split with a non-empty separator: the segments
      between successive occurrences, scanned from the left. */
  function Split(s: string, sep: string): (parts: seq<string>)
    requires |sep| > 0
    ensures |parts| >= 1
    decreases |s|
  {
    var i := IndexOf(s, sep);
    if i < 0 then [s] else [s[..i]] + Split(s[i + |sep|..], sep)
  }

  /** Array.prototype.join */
  function Join(parts: seq<string>, sep: string): string
  {
    if |parts| <= 1 then (if parts == [] then [] else parts[0])
    else parts[0] + sep + Join(parts[1..], sep)
  }

  /** Splitting and joining with the same separator gives back the string. */
  lemma {:induction false} JoinSplit(s: string, sep: string)
    requires |sep| > 0
    ensures Join(Split(s, sep), sep) == s
    decreases |s|
  {
    var i := IndexOf(s, sep);
    if i >= 0 {
      var rest := s[i + |sep|..];
      JoinSplit(rest, sep);
      assert s == s[..i] + sep + rest;
    }
  }

  /** No segment of a split contains the separator. */
  lemma {:induction false} SplitSegmentsClean(s: string, sep: string, k: nat)
    requires |sep| > 0 && k < |Split(s, sep)|
    ensures !Contains(Split(s, sep)[k], sep)
    decreases |s|
  {
    var i := IndexOf(s, sep);
    if i < 0 {
    } else if k == 0 {
      BeforeFirstClean(s, sep);
    } else {
      SplitSegmentsClean(s[i + |sep|..], sep, k - 1);
    }
  }

  /** The first segment is everything before the first occurrence. */
  lemma {:induction false} SplitFirst(s: string, sep: string)
    requires |sep| > 0
    ensures IndexOf(s, sep) >= 0 ==> Split(s, sep)[0] == s[..IndexOf(s, sep)]
    ensures IndexOf(s, sep) < 0 ==> Split(s, sep) == [s]
  {
  }

  /** The text before the first occurrence of `sep`, or all of `s`. */
  function Segment(s: string, sep: string): string
  {
    var i := IndexOf(s, sep);
    if i < 0 then s else s[..i]
  }

  /** The second segment of a split runs from the end of the first
      occurrence to the next occurrence, or to the end of the string. */
  lemma {:induction false} SplitSecond(s: string, sep: string)
    requires |sep| > 0 && IndexOf(s, sep) >= 0
    ensures |Split(s, sep)| >= 2
    ensures Split(s, sep)[1] == Segment(s[IndexOf(s, sep) + |sep|..], sep)
  {
    var rest := s[IndexOf(s, sep) + |sep|..];
    SplitFirst(rest, sep);
  }

  /** The number of times `c` occurs in `s`. */
  function CountChar(s: string, c: char): nat
  {
    if s == [] then 0 else (if s[0] == c then 1 else 0) + CountChar(s[1..], c)
  }

  lemma {:induction false} CountCharAppend(a: string, b: string, c: char)
    ensures CountChar(a + b, c) == CountChar(a, c) + CountChar(b, c)
    decreases |a|
  {
    if a == [] {
      assert a + b == b;
    } else {
      assert (a + b)[0] == a[0];
      assert (a + b)[1..] == a[1..] + b;
      CountCharAppend(a[1..], b, c);
    }
  }

  lemma {:induction false} CountCharAbsent(s: string, c: char)
    requires forall k :: 0 <= k < |s| ==> s[k] != c
    ensures CountChar(s, c) == 0
    decreases |s|
  {
    if s != [] {
      CountCharAbsent(s[1..], c);
    }
  }

  /** Splitting on a one-character separator yields one more field than the
      number of separators. */
  lemma {:induction false} SplitCount(s: string, c: char)
    ensures |Split(s, [c])| == CountChar(s, c) + 1
    decreases |s|
  {
    var i := IndexOf(s, [c]);
    if i < 0 {
      forall k | 0 <= k < |s| ensures s[k] != c {
        assert !OccursAt(s, [c], k);
        assert s[k..k + 1] == [s[k]];
      }
      CountCharAbsent(s, c);
    } else {
      var rest := s[i + 1..];
      SplitCount(rest, c);
      forall k | 0 <= k < i ensures s[..i][k] != c {
        assert !OccursAt(s, [c], k);
        assert s[k..k + 1] == [s[k]];
      }
      CountCharAbsent(s[..i], c);
      assert s[i..i + 1] == [c];
      assert s == s[..i] + [c] + rest;
      CountCharAppend(s[..i] + [c], rest, c);
      CountCharAppend(s[..i], [c], c);
    }
  }

  /** Array.prototype.map(p => p.trim()) */
  function TrimAll(parts: seq<string>): (r: seq<string>)
    ensures |r| == |parts|
    ensures forall k :: 0 <= k < |parts| ==> r[k] == Trim(parts[k])
  {
    seq(|parts|, k requires 0 <= k < |parts| => Trim(parts[k]))
  }

  function LowerChar(c: char): char
  {
    if 'A' <= c <= 'Z' then (c as int + 32) as char else c
  }

  /** String.prototype.toLowerCase, on ASCII letters. */
  function ToLower(s: string): (r: string)
    ensures |r| == |s|
    ensures forall k :: 0 <= k < |s| ==> r[k] == LowerChar(s[k])
  {
    seq(|s|, k requires 0 <= k < |s| => LowerChar(s[k]))
  }

  /** Lower-casing twice is lower-casing once. */
  lemma {:induction false} ToLowerIdempotent(s: string)
    ensures ToLower(ToLower(s)) == ToLower(s)
  {
    assert forall k :: 0 <= k < |s| ==> ToLower(ToLower(s))[k] == ToLower(s)[k];
  }

  predicate IsDigit(c: char)
  {
    '0' <= c <= '9'
  }

  predicate AllDigits(s: string)
  {
    forall k :: 0 <= k < |s| ==> IsDigit(s[k])
  }

  /** The longest prefix of `s` made of decimal digits. */
  function LeadingDigits(s: string): (d: string)
    ensures |d| <= |s| && d == s[..|d|]
    ensures AllDigits(d)
    ensures |d| < |s| ==> !IsDigit(s[|d|])
  {
    if s != [] && IsDigit(s[0]) then [s[0]] + LeadingDigits(s[1..]) else []
  }

  /** The number a string of decimal digits denotes. */
  function DigitsValue(ds: string): nat
    requires AllDigits(ds)
  {
    if ds == [] then 0
    else DigitsValue(ds[..|ds| - 1]) * 10 + (ds[|ds| - 1] as int - '0' as int)
  }

  /** The value of an optionally negated run of digits; no digits gives NaN,
      here None. */
  function SignedValue(negative: bool, ds: string): Option<int>
    requires AllDigits(ds)
  {
    if ds == [] then None
    else
      var v: int := DigitsValue(ds);
      Some(if negative then -v else v)
  }

  /** parseInt on a text without leading white space: an optional sign, then
      the longest run of digits. */
  function ParseSigned(t: string): Option<int>
  {
    if |t| > 0 && (t[0] == '-' || t[0] == '+') then SignedValue(t[0] == '-', LeadingDigits(t[1..]))
    else SignedValue(false, LeadingDigits(t))
  }

  /** parseInt(s, 10): skip leading white space, read an optional sign and the
      longest run of decimal digits. */
  function ParseInt(s: string): Option<int>
  {
    ParseSigned(TrimStart(s))
  }

  function DigitChar(d: nat): char
    requires d < 10
  {
    ('0' as int + d) as char
  }

  /** The decimal rendering of a natural number, as template literals print it. */
  function NatToDecimal(n: nat): (s: string)
    ensures |s| >= 1 && AllDigits(s)
  {
    if n < 10 then [DigitChar(n)] else NatToDecimal(n / 10) + [DigitChar(n % 10)]
  }

  function IntToDecimal(n: int): string
  {
    if n < 0 then "-" + NatToDecimal(-n) else NatToDecimal(n)
  }

  lemma {:induction false} DigitsValueOfDecimal(n: nat)
    ensures DigitsValue(NatToDecimal(n)) == n
  {
    if n >= 10 {
      var ds := NatToDecimal(n);
      assert ds[..|ds| - 1] == NatToDecimal(n / 10);
      DigitsValueOfDecimal(n / 10);
    }
  }

  lemma {:induction false} LeadingDigitsAll(s: string)
    requires AllDigits(s)
    ensures LeadingDigits(s) == s
  {
  }

  lemma {:induction false} TrimStartNoSpace(t: string)
    requires t != [] && !IsSpace(t[0])
    ensures TrimStart(t) == t
  {
    assert TrimOffset(t) == 0;
  }

  /** parseInt reads a bare run of digits as its value. */
  lemma {:induction false} ParseIntDigits(d: string)
    requires |d| > 0 && AllDigits(d)
    ensures ParseInt(d) == Some(DigitsValue(d))
  {
    assert IsDigit(d[0]) && d[0] != '-' && d[0] != '+';
    TrimStartNoSpace(d);
    assert ParseInt(d) == ParseSigned(d);
    assert ParseSigned(d) == SignedValue(false, LeadingDigits(d));
    LeadingDigitsAll(d);
  }

  /** parseInt gives NaN for a text whose first character is neither white
      space, a sign nor a digit, such as a score written as a word. */
  lemma {:induction false} ParseIntRejectsWord(s: string)
    requires s != [] && !IsSpace(s[0]) && !IsDigit(s[0]) && s[0] != '-' && s[0] != '+'
    ensures ParseInt(s) == None
  {
    TrimStartNoSpace(s);
    assert LeadingDigits(s) == [];
    assert ParseSigned(s) == SignedValue(false, []);
  }

  /** parseInt stops at the first character after the digits. */
  lemma {:induction false} ParseIntIgnoresTail(d: string, tail: string)
    requires |d| > 0 && AllDigits(d)
    requires tail != [] && !IsDigit(tail[0])
    ensures ParseInt(d + tail) == Some(DigitsValue(d))
  {
    var s := d + tail;
    assert s[0] == d[0] && IsDigit(d[0]);
    TrimStartNoSpace(s);
    LeadingDigitsPrefix(d, tail);
    assert ParseSigned(s) == SignedValue(false, d);
  }

  lemma {:induction false} LeadingDigitsPrefix(d: string, tail: string)
    requires AllDigits(d)
    requires tail != [] && !IsDigit(tail[0])
    ensures LeadingDigits(d + tail) == d
    decreases |d|
  {
    if d == [] {
      assert d + tail == tail;
    } else {
      assert (d + tail)[0] == d[0];
      assert (d + tail)[1..] == d[1..] + tail;
      LeadingDigitsPrefix(d[1..], tail);
    }
  }

  /** parseInt reads a minus sign followed by digits as the negated value. */
  lemma {:induction false} ParseIntNegatedDigits(d: string)
    requires |d| > 0 && AllDigits(d)
    ensures ParseInt("-" + d) == Some(-(DigitsValue(d) as int))
  {
    var t := ['-'] + d;
    assert t[0] == '-';
    TrimStartNoSpace(t);
    assert t[1..] == d;
    LeadingDigitsAll(d);
    assert ParseSigned(t) == SignedValue(true, d);
  }

  /** parseInt reads back every integer that is printed in decimal. */
  lemma {:induction false} ParseIntDecimal(n: int)
    ensures ParseInt(IntToDecimal(n)) == Some(n)
  {
    var m: nat := if n < 0 then -n else n;
    var d := NatToDecimal(m);
    DigitsValueOfDecimal(m);
    assert DigitsValue(d) == m;
    if n < 0 {
      ParseIntNegatedDigits(d);
      assert IntToDecimal(n) == "-" + d;
    } else {
      ParseIntDigits(d);
      assert IntToDecimal(n) == d;
    }
  }
}
