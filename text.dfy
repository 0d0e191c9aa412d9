/** The subset of Go's `strings` package (and `len` on strings) that the core
    relies on, over Dafny strings (sequences of Unicode scalar values). */
module Text {

  /** Go's `unicode.IsSpace`: the ASCII white space characters, U+0085, U+00A0
      and the other characters with the Unicode White_Space property. */
  predicate IsSpace(c: char)
  {
    c == ' ' || ('\t' <= c <= '\r') || c == '\U{0085}' || c == '\U{00A0}' ||
    c == '\U{1680}' || ('\U{2000}' <= c <= '\U{200A}') || c == '\U{2028}' ||
    c == '\U{2029}' || c == '\U{202F}' || c == '\U{205F}' || c == '\U{3000}'
  }

  /** No white space at either end. */
  predicate Trimmed(s: string)
  {
    s == [] || (!IsSpace(s[0]) && !IsSpace(s[|s| - 1]))
  }

  predicate NoSpace(s: string)
  {
    forall i :: 0 <= i < |s| ==> !IsSpace(s[i])
  }

  predicate AllSpace(s: string)
  {
    forall i :: 0 <= i < |s| ==> IsSpace(s[i])
  }

  /** Go's `strings.TrimLeftFunc(s, unicode.IsSpace)`. */
  function TrimLeft(s: string): (r: string)
    ensures |r| <= |s|
    ensures r != [] ==> !IsSpace(r[0])
  {
    if s != [] && IsSpace(s[0]) then TrimLeft(s[1..]) else s
  }

  /** Go's `strings.TrimRightFunc(s, unicode.IsSpace)`. */
  function TrimRight(s: string): (r: string)
    ensures |r| <= |s|
    ensures r != [] ==> !IsSpace(r[|r| - 1]) && r[0] == s[0]
  {
    if s != [] && IsSpace(s[|s| - 1]) then TrimRight(s[..|s| - 1]) else s
  }

  /** Go's `strings.TrimSpace`: white space removed from both ends. */
  function TrimSpace(s: string): (r: string)
    ensures Trimmed(r)
  {
    TrimRight(TrimLeft(s))
  }

  /** `TrimLeft` drops a run of white space from the front and keeps the rest. */
  lemma {:induction false} TrimLeftDrops(s: string)
    ensures TrimLeft(s) == s[|s| - |TrimLeft(s)|..]
    ensures AllSpace(s[..|s| - |TrimLeft(s)|])
    decreases |s|
  {
    if s != [] && IsSpace(s[0]) {
      TrimLeftDrops(s[1..]);
      var k := |s| - |TrimLeft(s)|;
      assert s[1..][k - 1..] == s[k..];
      assert forall i :: 1 <= i < k ==> s[..k][i] == s[1..][..k - 1][i - 1];
    }
  }

  /** `TrimRight` drops a run of white space from the back and keeps the rest. */
  lemma {:induction false} TrimRightDrops(s: string)
    ensures TrimRight(s) == s[..|TrimRight(s)|]
    ensures AllSpace(s[|TrimRight(s)|..])
    decreases |s|
  {
    if s != [] && IsSpace(s[|s| - 1]) {
      var init := s[..|s| - 1];
      TrimRightDrops(init);
      var k := |TrimRight(s)|;
      assert init[..k] == s[..k];
      assert forall i :: 0 <= i < |s| - 1 - k ==> s[k..][i] == init[k..][i];
    }
  }

  /** `TrimSpace(s)` is the slice of `s` left between a white-space prefix and
      a white-space suffix. */
  lemma TrimSpaceSlice(s: string) returns (i: nat, j: nat)
    ensures i + j <= |s| && TrimSpace(s) == s[i..i + j]
    ensures AllSpace(s[..i]) && AllSpace(s[i + j..])
  {
    var t := TrimLeft(s);
    i := |s| - |t|;
    TrimLeftDrops(s);
    TrimRightDrops(t);
    j := |TrimRight(t)|;
    assert TrimRight(t) == s[i..i + j] by {
      assert forall k :: 0 <= k < j ==> TrimRight(t)[k] == t[k] == s[i + k];
    }
    assert s[i + j..] == t[j..];
  }

  /** Trimming removes white space and nothing else: the characters that are
      not white space survive in order, and a character absent from `s` is
      absent from the result. */
  lemma TrimSpaceKeepsText(s: string)
    ensures NonSpace(TrimSpace(s)) == NonSpace(s)
    ensures forall c :: Lacks(s, c) ==> Lacks(TrimSpace(s), c)
  {
    var i, j := TrimSpaceSlice(s);
    var front, middle, back := s[..i], s[i..i + j], s[i + j..];
    assert s == front + middle + back by {
      var glued := front + middle + back;
      assert |glued| == |s|;
      assert forall k :: 0 <= k < |s| ==> glued[k] == s[k];
    }
    NonSpaceBetween(front, middle, back);
    forall c | Lacks(s, c) ensures Lacks(TrimSpace(s), c) {
      SliceLacks(s, i, i + j, c);
    }
  }

  /** A line trims to nothing exactly when it is all white space. */
  lemma TrimSpaceEmpty(s: string)
    ensures TrimSpace(s) == [] <==> AllSpace(s)
  {
    var t := TrimLeft(s);
    TrimLeftDrops(s);
    TrimRightDrops(t);
  }

  /** Trimming twice is trimming once. */
  lemma TrimSpaceIdempotent(s: string)
    ensures TrimSpace(TrimSpace(s)) == TrimSpace(s)
  {
  }

  /** White space on both sides of `b` contributes nothing to `NonSpace`. */
  lemma NonSpaceBetween(a: string, b: string, c: string)
    requires AllSpace(a) && AllSpace(c)
    ensures NonSpace(a + b + c) == NonSpace(b)
  {
    NonSpaceAppend(a + b, c);
    NonSpaceAppend(a, b);
    NonSpaceOfAllSpace(a);
    NonSpaceOfAllSpace(c);
  }

  lemma SliceLacks(s: string, lo: nat, hi: nat, c: char)
    requires lo <= hi <= |s| && Lacks(s, c)
    ensures Lacks(s[lo..hi], c)
  {
    assert forall k :: 0 <= k < hi - lo ==> s[lo..hi][k] == s[lo + k];
  }

  /** Length of the run of non-space characters at the start of `s`. */
  function WordLength(s: string): (n: nat)
    ensures n <= |s|
    ensures forall k :: 0 <= k < n ==> !IsSpace(s[k])
    ensures n < |s| ==> IsSpace(s[n])
  {
    if |s| > 0 && !IsSpace(s[0]) then 1 + WordLength(s[1..]) else 0
  }

  /** Go's `strings.Fields`: the maximal runs of non-space characters, in order. */
  function Fields(s: string): (r: seq<string>)
    ensures forall j :: 0 <= j < |r| ==> r[j] != [] && NoSpace(r[j])
    ensures (s != [] && !IsSpace(s[0])) ==> r != []
    decreases |s|
  {
    var t := TrimLeft(s);
    if t == [] then []
    else
      var n := WordLength(t);
      [t[..n]] + Fields(t[n..])
  }

  /** The characters of `s` that are not white space, in order. */
  function NonSpace(s: string): string
  {
    if s == [] then [] else (if IsSpace(s[0]) then [] else [s[0]]) + NonSpace(s[1..])
  }

  function Concat(parts: seq<string>): string
  {
    if parts == [] then [] else parts[0] + Concat(parts[1..])
  }

  lemma {:induction false} NonSpaceAppend(a: string, b: string)
    ensures NonSpace(a + b) == NonSpace(a) + NonSpace(b)
    decreases |a|
  {
    if a != [] {
      var head := if IsSpace(a[0]) then [] else [a[0]];
      assert (a + b)[0] == a[0];
      assert (a + b)[1..] == a[1..] + b;
      NonSpaceAppend(a[1..], b);
      calc {
        NonSpace(a + b);
        head + NonSpace(a[1..] + b);
        head + (NonSpace(a[1..]) + NonSpace(b));
        (head + NonSpace(a[1..])) + NonSpace(b);
        NonSpace(a) + NonSpace(b);
      }
    } else {
      assert a + b == b;
    }
  }

  lemma {:induction false} NonSpaceOfAllSpace(s: string)
    requires AllSpace(s)
    ensures NonSpace(s) == []
    decreases |s|
  {
    if s != [] { NonSpaceOfAllSpace(s[1..]); }
  }

  lemma {:induction false} NonSpaceOfNoSpace(s: string)
    requires NoSpace(s)
    ensures NonSpace(s) == s
    decreases |s|
  {
    if s != [] { NonSpaceOfNoSpace(s[1..]); }
  }

  lemma NonSpaceSkipsLead(s: string)
    ensures NonSpace(s) == NonSpace(TrimLeft(s))
  {
    var i := |s| - |TrimLeft(s)|;
    TrimLeftDrops(s);
    assert s == s[..i] + s[i..];
    NonSpaceAppend(s[..i], s[i..]);
    NonSpaceOfAllSpace(s[..i]);
  }

  lemma NonSpaceOfWord(t: string)
    ensures NonSpace(t) == t[..WordLength(t)] + NonSpace(t[WordLength(t)..])
  {
    var n := WordLength(t);
    assert t == t[..n] + t[n..];
    NonSpaceAppend(t[..n], t[n..]);
    NonSpaceOfNoSpace(t[..n]);
  }

  /** Cutting a string at `n` and gluing the halves back gives the string. */
  lemma CutAndGlue(s: string, n: nat)
    requires n <= |s|
    ensures s[..n] + s[n..] == s
  {
  }

  /** The elements of `[x] + xs` after the first are those of `xs`. */
  lemma ConsIndex<T>(x: T, xs: seq<T>)
    ensures forall j :: 1 <= j < |[x] + xs| ==> ([x] + xs)[j] == xs[j - 1]
  {
  }

  lemma AppendAssoc<T>(a: seq<T>, b: seq<T>, c: seq<T>)
    ensures (a + b) + c == a + (b + c)
  {
  }

  lemma ConcatCons(w: string, tail: seq<string>)
    ensures Concat([w] + tail) == w + Concat(tail)
  {
    assert ([w] + tail)[0] == w;
    assert ([w] + tail)[1..] == tail;
  }

  /** Joining the fields back together gives every non-space character of the
      input, in order: `Fields` loses nothing but white space. */
  lemma {:induction false} FieldsKeepText(s: string)
    ensures Concat(Fields(s)) == NonSpace(s)
    decreases |s|
  {
    var t := TrimLeft(s);
    NonSpaceSkipsLead(s);
    if t != [] {
      var n := WordLength(t);
      NonSpaceOfWord(t);
      FieldsKeepText(t[n..]);
      ConcatCons(t[..n], Fields(t[n..]));
    }
  }

  /** Left trimming a string and then appending is appending and then left
      trimming, unless the string is all white space. */
  lemma {:induction false} TrimLeftAppend(x: string, y: string)
    ensures TrimLeft(x) != [] ==> TrimLeft(x + y) == TrimLeft(x) + y
    ensures TrimLeft(x) == [] ==> TrimLeft(x + y) == TrimLeft(y)
    decreases |x|
  {
    if x == [] {
      assert x + y == y;
    } else {
      assert (x + y)[0] == x[0];
      assert (x + y)[1..] == x[1..] + y;
      if IsSpace(x[0]) {
        TrimLeftAppend(x[1..], y);
      }
    }
  }

  /** A word ends at the first white space, so text after that does not change it. */
  lemma {:induction false} WordLengthAppend(t: string, y: string)
    requires WordLength(t) < |t| || (y != [] && IsSpace(y[0]))
    ensures WordLength(t + y) == WordLength(t)
    decreases |t|
  {
    if t == [] {
      assert t + y == y;
    } else {
      assert (t + y)[0] == t[0];
      assert (t + y)[1..] == t[1..] + y;
      if !IsSpace(t[0]) {
        WordLengthAppend(t[1..], y);
      }
    }
  }

  /** Any white-space character separates fields: the fields of `a`, a space
      and `b` are the fields of `a` followed by those of `b`. */
  lemma {:induction false} FieldsSplitAtSpace(a: string, c: char, b: string)
    requires IsSpace(c)
    ensures Fields(a + [c] + b) == Fields(a) + Fields(b)
    decreases |a|
  {
    var t := TrimLeft(a);
    var cb := [c] + b;
    assert a + [c] + b == a + cb;
    TrimLeftAppend(a, cb);
    if t == [] {
      assert cb[0] == c && cb[1..] == b;
      assert TrimLeft(a + cb) == TrimLeft(b);
    } else {
      var n := WordLength(t);
      WordLengthAppend(t, cb);
      var u := t + cb;
      assert TrimLeft(a + cb) == u;
      assert u[..n] == t[..n];
      assert u[n..] == t[n..] + [c] + b;
      FieldsSplitAtSpace(t[n..], c, b);
      AppendAssoc([t[..n]], Fields(t[n..]), Fields(b));
    }
  }

  /** A non-empty run of non-space characters is a single field. */
  lemma FieldsOfWord(w: string)
    requires w != [] && NoSpace(w)
    ensures Fields(w) == [w]
  {
    assert TrimLeft(w) == w;
    assert WordLength(w) == |w|;
    assert w[..|w|] == w && w[|w|..] == [];
  }

  /** `c` does not occur in `s`. */
  predicate Lacks(s: string, c: char)
  {
    forall k :: 0 <= k < |s| ==> s[k] != c
  }

  /** Position of the first `c` in `s`, or `|s|` when there is none. */
  function Find(s: string, c: char): (i: nat)
    ensures i <= |s|
    ensures i < |s| ==> s[i] == c
    ensures forall k :: 0 <= k < i ==> s[k] != c
  {
    if s == [] then 0 else if s[0] == c then 0 else 1 + Find(s[1..], c)
  }

  lemma {:induction false} FindUnique(s: string, c: char, i: nat)
    requires i <= |s| && (i < |s| ==> s[i] == c)
    requires forall k :: 0 <= k < i ==> s[k] != c
    ensures Find(s, c) == i
    decreases |s|
  {
    if s != [] && s[0] != c {
      FindUnique(s[1..], c, i - 1);
    }
  }

  /** Go's `strings.Split` with a one-character separator. */
  function Split(s: string, sep: char): (r: seq<string>)
    ensures r != []
    decreases |s|
  {
    var i := Find(s, sep);
    if i == |s| then [s] else [s[..i]] + Split(s[i + 1..], sep)
  }

  /** No piece of a split contains the separator. */
  lemma {:induction false} SplitPiecesLackSep(s: string, sep: char)
    ensures forall j :: 0 <= j < |Split(s, sep)| ==> Lacks(Split(s, sep)[j], sep)
    decreases |s|
  {
    var i := Find(s, sep);
    if i < |s| {
      SplitPiecesLackSep(s[i + 1..], sep);
      ConsIndex(s[..i], Split(s[i + 1..], sep));
    }
  }

  /** Go's `strings.Join` with a one-character separator. */
  function Join(parts: seq<string>, sep: char): string
    requires parts != []
  {
    if |parts| == 1 then parts[0] else parts[0] + [sep] + Join(parts[1..], sep)
  }

  /** Joining the pieces of a split with the separator gives back the string. */
  lemma {:induction false} JoinSplit(s: string, sep: char)
    ensures Join(Split(s, sep), sep) == s
    decreases |s|
  {
    var i := Find(s, sep);
    if i < |s| {
      var tail := Split(s[i + 1..], sep);
      var parts := [s[..i]] + tail;
      assert parts[0] == s[..i] && parts[1..] == tail && |parts| > 1;
      JoinSplit(s[i + 1..], sep);
      assert s == s[..i] + [sep] + s[i + 1..];
    }
  }

  /** Splitting a join of separator-free pieces gives back the pieces. */
  lemma {:induction false} SplitJoin(parts: seq<string>, sep: char)
    requires parts != []
    requires forall j :: 0 <= j < |parts| ==> Lacks(parts[j], sep)
    ensures Split(Join(parts, sep), sep) == parts
    decreases |parts|
  {
    var first := parts[0];
    if |parts| == 1 {
      FindUnique(first, sep, |first|);
    } else {
      var s := Join(parts, sep);
      var rest := Join(parts[1..], sep);
      assert s == first + [sep] + rest;
      assert Find(s, sep) == |first| by {
        assert Lacks(first, sep);
        assert forall k :: 0 <= k < |first| ==> s[k] == first[k];
        FindUnique(s, sep, |first|);
      }
      assert s[..|first|] == first;
      assert s[|first| + 1..] == rest;
      SplitJoin(parts[1..], sep);
    }
  }

  /** `sub` occurs in `s` starting at index `i`. */
  predicate OccursAt(s: string, sub: string, i: int)
  {
    0 <= i && i + |sub| <= |s| && s[i..i + |sub|] == sub
  }

  /** Index of the first occurrence of `sub` in `s`, or -1 (Go's `strings.Index`). */
  function IndexOf(s: string, sub: string): (r: int)
    ensures r >= -1
    ensures r >= 0 ==> OccursAt(s, sub, r)
    ensures forall i :: (r < 0 || i < r) ==> !OccursAt(s, sub, i)
    decreases |s|
  {
    if |s| < |sub| then -1
    else if s[..|sub|] == sub then 0
    else
      var k := IndexOf(s[1..], sub);
      OccursShift(s, sub);
      if k < 0 then -1 else k + 1
  }

  /** An occurrence at `i >= 1` in `s` is one at `i - 1` in `s[1..]`. */
  lemma OccursShift(s: string, sub: string)
    requires s != []
    ensures forall i :: 1 <= i ==> (OccursAt(s, sub, i) <==> OccursAt(s[1..], sub, i - 1))
  {
    forall i | 1 <= i
      ensures OccursAt(s, sub, i) <==> OccursAt(s[1..], sub, i - 1)
    {
      if i + |sub| <= |s| {
        var here, there := s[i..i + |sub|], s[1..][i - 1..i - 1 + |sub|];
        assert |here| == |there|;
        assert forall k :: 0 <= k < |here| ==> here[k] == there[k];
      }
    }
  }

  /** Go's `strings.Contains`. */
  predicate Contains(s: string, sub: string)
  {
    exists i :: 0 <= i <= |s| && OccursAt(s, sub, i)
  }

  lemma ContainsIndexOf(s: string, sub: string)
    ensures Contains(s, sub) <==> IndexOf(s, sub) >= 0
  {
  }

  /** Go's `strings.HasPrefix` and `strings.HasSuffix`. */
  predicate HasPrefix(s: string, prefix: string)
  {
    |prefix| <= |s| && s[..|prefix|] == prefix
  }

  predicate HasSuffix(s: string, suffix: string)
  {
    |suffix| <= |s| && s[|s| - |suffix|..] == suffix
  }

  /** Go's `strings.TrimPrefix`. */
  function TrimPrefix(s: string, prefix: string): (r: string)
    ensures HasPrefix(s, prefix) ==> s == prefix + r
    ensures !HasPrefix(s, prefix) ==> r == s
  {
    if HasPrefix(s, prefix) then s[|prefix|..] else s
  }

  /** The second element of Go's `strings.SplitN(s, sep, 2)` when `sep` occurs
      in `s`: everything after its first occurrence. */
  function AfterFirst(s: string, sep: string): (r: string)
    requires IndexOf(s, sep) >= 0
    ensures s == s[..IndexOf(s, sep)] + sep + r
  {
    var i := IndexOf(s, sep);
    assert s == s[..i] + s[i..i + |sep|] + s[i + |sep|..];
    s[i + |sep|..]
  }

  /** Go's `strings.ToUpper`, for the ASCII letters. */
  function ToUpper(s: string): (r: string)
    ensures |r| == |s|
    ensures forall i :: 0 <= i < |s| ==>
      r[i] == (if 'a' <= s[i] <= 'z' then (s[i] as int - 32) as char else s[i])
  {
    if s == [] then []
    else [if 'a' <= s[0] <= 'z' then (s[0] as int - 32) as char else s[0]] + ToUpper(s[1..])
  }

  /** Bytes needed to encode `c` in UTF-8. */
  function Utf8Width(c: char): nat
  {
    if c as int < 0x80 then 1 else if c as int < 0x800 then 2 else if c as int < 0x10000 then 3 else 4
  }

  /** Go's `len` on a string: its length in UTF-8 bytes. */
  function Utf8Len(s: string): (n: nat)
    ensures |s| <= n <= 4 * |s|
    ensures n == |s| <==> forall i :: 0 <= i < |s| ==> s[i] as int < 0x80
  {
    if s == [] then 0 else Utf8Width(s[0]) + Utf8Len(s[1..])
  }
}
