/**
 * The parts of Python's `str` that the transcript code relies on:
 * `split()` with no argument, `strip()` with and without a character set,
 * and `lower()`.  Case mapping is modelled for ASCII letters only.
 */
module Text {
  type String = seq<char>

  /** Characters that `str.split()` and `str.strip()` treat as whitespace. */
  predicate IsSpace(c: char) {
    var n := c as int;
    n == 32 || 9 <= n <= 13 || 28 <= n <= 31 || n == 0x85 || n == 0xA0 || n == 0x1680
    || 0x2000 <= n <= 0x200A || n == 0x2028 || n == 0x2029 || n == 0x202F || n == 0x205F || n == 0x3000
  }

  function LowerChar(c: char): char {
    if 'A' <= c <= 'Z' then (c as int + 32) as char else c
  }

  /** `s.lower()` */
  function Lower(s: String): (r: String)
    ensures |r| == |s|
  {
    seq(|s|, i requires 0 <= i < |s| => LowerChar(s[i]))
  }

  /** A character class that does not care about letter case. */
  ghost predicate CaseBlind(drop: char -> bool) {
    forall c :: drop(LowerChar(c)) == drop(c)
  }

  /** Removes the leading characters for which `drop` holds. */
  function TrimLeft(s: String, drop: char -> bool): (r: String)
    ensures |r| <= |s|
    decreases |s|
  {
    if |s| > 0 && drop(s[0]) then TrimLeft(s[1..], drop) else s
  }

  /** Removes the trailing characters for which `drop` holds. */
  function TrimRight(s: String, drop: char -> bool): (r: String)
    ensures |r| <= |s|
    decreases |s|
  {
    if |s| > 0 && drop(s[|s| - 1]) then TrimRight(s[..|s| - 1], drop) else s
  }

  /** `s.strip(chars)`, the character set given as a predicate. */
  function Trim(s: String, drop: char -> bool): String {
    TrimRight(TrimLeft(s, drop), drop)
  }

  /** `s.strip()` */
  function Strip(s: String): String {
    Trim(s, IsSpace)
  }

  /** `TrimLeft` keeps a suffix that starts with a kept character, and cuts only dropped ones. */
  lemma {:induction false} TrimLeftIsSuffix(s: String, drop: char -> bool)
    ensures var r := TrimLeft(s, drop);
      && r == s[|s| - |r|..]
      && (r == [] || !drop(r[0]))
      && (forall i :: 0 <= i < |s| - |r| ==> drop(s[i]))
    decreases |s|
  {
    if |s| > 0 && drop(s[0]) {
      TrimLeftIsSuffix(s[1..], drop);
    }
  }

  /** `TrimRight` keeps a prefix that ends with a kept character, and cuts only dropped ones. */
  lemma {:induction false} TrimRightIsPrefix(s: String, drop: char -> bool)
    ensures var r := TrimRight(s, drop);
      && r == s[..|r|]
      && (r == [] || !drop(r[|r| - 1]))
      && (forall i :: |r| <= i < |s| ==> drop(s[i]))
    decreases |s|
  {
    if |s| > 0 && drop(s[|s| - 1]) {
      TrimRightIsPrefix(s[..|s| - 1], drop);
    }
  }

  /** The result of `Trim` is a slice of its input whose ends are kept characters,
      and everything cut away on either side is a dropped character. */
  lemma TrimIsSlice(s: String, drop: char -> bool) returns (lo: nat, hi: nat)
    ensures lo <= hi <= |s| && Trim(s, drop) == s[lo..hi]
    ensures forall i :: 0 <= i < lo ==> drop(s[i])
    ensures forall i :: hi <= i < |s| ==> drop(s[i])
    ensures lo < hi ==> !drop(s[lo]) && !drop(s[hi - 1])
  {
    var l := TrimLeft(s, drop);
    TrimLeftIsSuffix(s, drop);
    var r := TrimRight(l, drop);
    TrimRightIsPrefix(l, drop);
    lo := |s| - |l|;
    hi := lo + |r|;
    assert l == s[lo..];
    assert r == s[lo..hi];
    forall i | hi <= i < |s|
      ensures drop(s[i])
    {
      assert s[i] == l[i - lo];
    }
  }

  /** A string that starts and ends with kept characters is its own trim. */
  lemma TrimUnchanged(s: String, drop: char -> bool)
    requires s == [] || (!drop(s[0]) && !drop(s[|s| - 1]))
    ensures Trim(s, drop) == s
  {
  }

  /** Trimming leaves nothing exactly when every character is dropped. */
  lemma TrimEmpty(s: String, drop: char -> bool)
    ensures Trim(s, drop) == [] <==> forall i :: 0 <= i < |s| ==> drop(s[i])
  {
    var lo, hi := TrimIsSlice(s, drop);
    if Trim(s, drop) == [] {
      forall i | 0 <= i < |s|
        ensures drop(s[i])
      {
        if i >= lo {
          assert hi <= i;
        }
      }
    }
  }

  /** Trimming does not care whether lowering happens before or after. */
  lemma {:induction false} LowerTrimLeft(s: String, drop: char -> bool)
    requires CaseBlind(drop)
    ensures Lower(TrimLeft(s, drop)) == TrimLeft(Lower(s), drop)
    decreases |s|
  {
    if |s| > 0 {
      assert drop(LowerChar(s[0])) == drop(s[0]);
      assert Lower(s)[1..] == Lower(s[1..]);
      if drop(s[0]) {
        LowerTrimLeft(s[1..], drop);
      }
    }
  }

  lemma {:induction false} LowerTrimRight(s: String, drop: char -> bool)
    requires CaseBlind(drop)
    ensures Lower(TrimRight(s, drop)) == TrimRight(Lower(s), drop)
    decreases |s|
  {
    if |s| > 0 {
      assert drop(LowerChar(s[|s| - 1])) == drop(s[|s| - 1]);
      assert Lower(s)[..|s| - 1] == Lower(s[..|s| - 1]);
      if drop(s[|s| - 1]) {
        LowerTrimRight(s[..|s| - 1], drop);
      }
    }
  }

  lemma LowerIdempotent(s: String)
    ensures Lower(Lower(s)) == Lower(s)
  {
  }

  /** Lowering then stripping a case-blind class yields a string that is already
      lower-case and has no stripped character at either end. */
  lemma LowerTrimIsNormal(s: String, drop: char -> bool)
    requires CaseBlind(drop)
    ensures var w := Trim(Lower(s), drop);
            Lower(w) == w && (w == [] || (!drop(w[0]) && !drop(w[|w| - 1])))
  {
    var l := Lower(s);
    var left := TrimLeft(l, drop);
    LowerIdempotent(s);
    LowerTrimLeft(l, drop);
    assert Lower(left) == left;
    LowerTrimRight(left, drop);
    assert Lower(TrimRight(left, drop)) == TrimRight(left, drop);
    var lo, hi := TrimIsSlice(l, drop);
  }

  /** Length of the leading run of non-whitespace characters. */
  function TokenLength(s: String): (n: nat)
    ensures n <= |s|
    ensures forall i :: 0 <= i < n ==> !IsSpace(s[i])
    ensures n < |s| ==> IsSpace(s[n])
  {
    if |s| == 0 || IsSpace(s[0]) then 0 else 1 + TokenLength(s[1..])
  }

  ghost predicate AllSpace(s: String) {
    forall i :: 0 <= i < |s| ==> IsSpace(s[i])
  }

  ghost predicate IsToken(t: String) {
    t != [] && forall i :: 0 <= i < |t| ==> !IsSpace(t[i])
  }

  /** `s.split()`: the maximal runs of non-whitespace characters, in order. */
  function Split(s: String): (r: seq<String>)
    ensures forall k :: 0 <= k < |r| ==> IsToken(r[k])
    ensures r == [] <==> AllSpace(s)
    decreases |s|
  {
    if |s| == 0 then []
    else if IsSpace(s[0]) then Split(s[1..])
    else
      var n := TokenLength(s);
      [s[..n]] + Split(s[n..])
  }

  /** The length of the leading run is fixed by where the first whitespace is. */
  lemma TokenLengthUnique(s: String, n: nat)
    requires n <= |s|
    requires forall i :: 0 <= i < n ==> !IsSpace(s[i])
    requires n < |s| ==> IsSpace(s[n])
    ensures TokenLength(s) == n
  {
  }

  /** Splitting distributes over a concatenation cut at whitespace. */
  lemma {:induction false} SplitJoin(a: String, b: String)
    requires a == [] || b == [] || IsSpace(a[|a| - 1]) || IsSpace(b[0])
    ensures Split(a + b) == Split(a) + Split(b)
    decreases |a|, 2
  {
    if a == [] {
      assert a + b == b;
    } else if IsSpace(a[0]) {
      SplitJoinAfterSpace(a, b);
    } else if TokenLength(a) < |a| {
      SplitJoinAfterToken(a, b);
    } else if b == [] {
      assert a + b == a;
    } else {
      assert !IsSpace(a[|a| - 1]);
      SplitTokenThenSpace(a, b);
      SplitToken(a);
    }
  }

  lemma {:induction false} SplitJoinAfterSpace(a: String, b: String)
    requires a != [] && IsSpace(a[0])
    requires b == [] || IsSpace(a[|a| - 1]) || IsSpace(b[0])
    ensures Split(a + b) == Split(a) + Split(b)
    decreases |a|, 0
  {
    SplitLeadingSpace(a, b);
    assert a[1..] == [] || a[1..][|a[1..]| - 1] == a[|a| - 1];
    SplitJoin(a[1..], b);
  }

  lemma {:induction false} SplitJoinAfterToken(a: String, b: String)
    requires a != [] && !IsSpace(a[0]) && TokenLength(a) < |a|
    requires b == [] || IsSpace(a[|a| - 1]) || IsSpace(b[0])
    ensures Split(a + b) == Split(a) + Split(b)
    decreases |a|, 1
  {
    var m := TokenLength(a);
    SplitLeadingToken(a, b);
    SplitJoinRest(a, b);
    SplitUnfoldToken(a);
    Regroup(Split(a + b), [a[..m]], Split(a[m..] + b), Split(a[m..]), Split(b), Split(a));
  }

  lemma Regroup<T>(whole: seq<T>, first: seq<T>, tail: seq<T>, rest: seq<T>, after: seq<T>, head: seq<T>)
    requires whole == first + tail && tail == rest + after && head == first + rest
    ensures whole == head + after
  {
  }

  lemma {:induction false} SplitJoinRest(a: String, b: String)
    requires a != [] && !IsSpace(a[0]) && TokenLength(a) < |a|
    requires b == [] || IsSpace(a[|a| - 1]) || IsSpace(b[0])
    ensures Split(a[TokenLength(a)..] + b) == Split(a[TokenLength(a)..]) + Split(b)
    decreases |a|, 0
  {
    var m := TokenLength(a);
    assert a[m..][|a[m..]| - 1] == a[|a| - 1];
    SplitJoin(a[m..], b);
  }

  lemma SplitUnfoldToken(a: String)
    requires a != [] && !IsSpace(a[0])
    ensures Split(a) == [a[..TokenLength(a)]] + Split(a[TokenLength(a)..])
  {
  }

  lemma SplitLeadingSpace(a: String, b: String)
    requires a != [] && IsSpace(a[0])
    ensures Split(a + b) == Split(a[1..] + b)
  {
    assert (a + b)[0] == a[0];
    assert (a + b)[1..] == a[1..] + b;
  }

  lemma SplitLeadingToken(a: String, b: String)
    requires a != [] && !IsSpace(a[0]) && TokenLength(a) < |a|
    ensures Split(a + b) == [a[..TokenLength(a)]] + Split(a[TokenLength(a)..] + b)
  {
    var m := TokenLength(a);
    TokenLengthUnique(a + b, m);
    assert (a + b)[0] == a[0];
    assert (a + b)[..m] == a[..m];
    assert (a + b)[m..] == a[m..] + b;
  }

  /** A token followed by whitespace is the first token. */
  lemma SplitTokenThenSpace(a: String, b: String)
    requires IsToken(a) && b != [] && IsSpace(b[0])
    ensures Split(a + b) == [a] + Split(b)
  {
    assert (a + b)[|a|] == b[0];
    TokenLengthUnique(a + b, |a|);
    assert (a + b)[0] == a[0];
    assert (a + b)[..|a|] == a;
    assert (a + b)[|a|..] == b;
  }

  /** A whitespace character separates the tokens before it from those after it. */
  lemma SplitSeparator(a: String, c: char, b: String)
    requires IsSpace(c)
    ensures Split(a + [c] + b) == Split(a) + Split(b)
  {
    assert a + [c] + b == a + ([c] + b);
    SplitJoin(a, [c] + b);
    assert ([c] + b)[1..] == b;
  }

  /** A run of non-whitespace characters is a single token.  With
      `SplitSeparator` and `Split([]) == []` this fixes `Split` on every string. */
  lemma SplitToken(t: String)
    requires IsToken(t)
    ensures Split(t) == [t]
  {
    TokenLengthUnique(t, |t|);
    assert t[..|t|] == t;
  }

  /** Stripping twice is stripping once. */
  lemma StripIdempotent(s: String)
    ensures Strip(Strip(s)) == Strip(s)
  {
    var lo, hi := TrimIsSlice(s, IsSpace);
    TrimUnchanged(Strip(s), IsSpace);
  }

  /** Surrounding whitespace does not change the tokens. */
  lemma SplitIgnoresStrip(s: String)
    ensures Split(Strip(s)) == Split(s)
  {
    var lo, hi := TrimIsSlice(s, IsSpace);
    var pre, t, post := s[..lo], s[lo..hi], s[hi..];
    assert s == (pre + t) + post;
    assert Split(pre) == [] && Split(post) == [] by {
      assert AllSpace(pre) && AllSpace(post);
    }
    assert Split(pre + t) == Split(t) by {
      SplitJoin(pre, t);
    }
    assert Split((pre + t) + post) == Split(pre + t) by {
      assert post == [] || IsSpace(post[0]);
      SplitJoin(pre + t, post);
    }
  }

  /** A non-empty stripped string has at least one token. */
  lemma StripNonEmptySplits(s: String)
    ensures Strip(s) != [] <==> Split(Strip(s)) != []
  {
    var t := Strip(s);
    if t != [] {
      var lo, hi := TrimIsSlice(s, IsSpace);
      assert !IsSpace(t[0]);
    }
  }
}
