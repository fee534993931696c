/** String helpers shared by the TypeScript and the Python halves of the
    application: ASCII whitespace trimming, substring search, joining and
    splitting, ASCII case folding, and decimal digit runs. */
module Text {
  import opened Wrappers

  /** ASCII whitespace: space, tab, line feed, vertical tab, form feed and
      carriage return. */
  predicate IsSpace(c: char) {
    c == ' ' || '\t' <= c <= '\r'
  }

  /** `s` with its leading whitespace removed. */
  function TrimLeft(s: string): (r: string)
    ensures |r| <= |s| && r == s[|s| - |r|..]
    ensures forall k :: 0 <= k < |s| - |r| ==> IsSpace(s[k])
    ensures r == [] || !IsSpace(r[0])
  {
    if s != [] && IsSpace(s[0]) then TrimLeft(s[1..]) else s
  }

  /** `s` with its trailing whitespace removed. */
  function TrimRight(s: string): (r: string)
    ensures |r| <= |s| && r == s[..|r|]
    ensures forall k :: |r| <= k < |s| ==> IsSpace(s[k])
    ensures r == [] || !IsSpace(r[|r| - 1])
  {
    if s != [] && IsSpace(s[|s| - 1]) then TrimRight(s[..|s| - 1]) else s
  }

  /** Neither end of `s` is whitespace. */
  predicate IsTrimmed(s: string) {
    s == [] || (!IsSpace(s[0]) && !IsSpace(s[|s| - 1]))
  }

  /** Both ends trimmed: JavaScript's `trim` and Python's `strip`, on ASCII
      whitespace. */
  function Trim(s: string): (r: string)
    ensures IsTrimmed(r)
    ensures |r| <= |s|
  {
    TrimLeft(TrimRight(s))
  }

  /** Trimming keeps every string that already has no whitespace at its ends. */
  lemma TrimKeepsTrimmed(s: string)
    requires IsTrimmed(s)
    ensures Trim(s) == s
  {
  }

  predicate HasPrefix(s: string, p: string) {
    |p| <= |s| && s[..|p|] == p
  }

  /** Python's `sub in s`: `sub` occurs in `s` at some offset. */
  predicate Contains(s: string, sub: string)
    decreases |s|
  {
    HasPrefix(s, sub) || (s != [] && Contains(s[1..], sub))
  }

  lemma {:induction false} ContainsAt(s: string, sub: string, i: nat)
    requires i + |sub| <= |s| && s[i..i + |sub|] == sub
    ensures Contains(s, sub)
    decreases i
  {
    if i > 0 {
      assert s[1..][i - 1..i - 1 + |sub|] == sub;
      ContainsAt(s[1..], sub, i - 1);
    }
  }

  lemma {:induction false} ContainsWitness(s: string, sub: string) returns (i: nat)
    requires Contains(s, sub)
    ensures i + |sub| <= |s| && s[i..i + |sub|] == sub
    decreases |s|
  {
    if HasPrefix(s, sub) {
      i := 0;
    } else {
      var j := ContainsWitness(s[1..], sub);
      assert s[1..][j..j + |sub|] == s[j + 1..j + 1 + |sub|];
      i := j + 1;
    }
  }

  /** A string that contains `mid` contains everything `mid` contains. */
  lemma {:induction false} ContainsTransitive(s: string, mid: string, sub: string)
    requires Contains(s, mid) && Contains(mid, sub)
    ensures Contains(s, sub)
  {
    var i := ContainsWitness(s, mid);
    var j := ContainsWitness(mid, sub);
    var t := s[i..i + |mid|];
    assert t[j..j + |sub|] == sub;
    forall m | 0 <= m < |sub|
      ensures sub[m] == s[i + j + m]
    {
      assert sub[m] == t[j + m];
    }
    assert s[i + j..i + j + |sub|] == sub;
    ContainsAt(s, sub, i + j);
  }

  /** No string contains a pattern whose first character it lacks. */
  lemma {:induction false} NotContainsWithoutHead(s: string, sub: string)
    requires sub != [] && sub[0] !in s
    ensures !Contains(s, sub)
    decreases |s|
  {
    if s != [] {
      assert s[0] in s;
      assert forall k :: 0 <= k < |s[1..]| ==> s[1..][k] == s[k + 1];
      NotContainsWithoutHead(s[1..], sub);
    }
  }

  /** JavaScript's `xs.join(sep)` and Python's `sep.join(xs)`. */
  function Join(xs: seq<string>, sep: string): string {
    if |xs| == 0 then ""
    else if |xs| == 1 then xs[0]
    else xs[0] + sep + Join(xs[1..], sep)
  }

  lemma AppendAssoc(a: string, b: string, c: string)
    ensures (a + b) + c == a + (b + c)
  {
  }

  lemma AppendEmpty(a: string)
    ensures a + "" == a
  {
  }

  /** The pieces written one after the other, as repeated `+=` builds them. */
  function Concat(xs: seq<string>): string {
    if xs == [] then "" else Concat(xs[..|xs| - 1]) + xs[|xs| - 1]
  }

  /** Every piece occurs in the concatenation, between what comes before it
      and what comes after it. */
  lemma {:induction false} ConcatSplit(xs: seq<string>, j: nat) returns (before: string, after: string)
    requires j < |xs|
    ensures Concat(xs) == before + xs[j] + after
    decreases |xs|
  {
    var init := xs[..|xs| - 1];
    if j == |xs| - 1 {
      before, after := Concat(init), "";
    } else {
      var b, a := ConcatSplit(init, j);
      assert init[j] == xs[j];
      before, after := b, a + xs[|xs| - 1];
    }
  }

  /** Two pieces occur in the concatenation in their order. */
  lemma {:induction false} ConcatOrder(xs: seq<string>, i: nat, j: nat)
    returns (before: string, between: string, after: string)
    requires i < j < |xs|
    ensures Concat(xs) == before + xs[i] + between + xs[j] + after
    decreases |xs|
  {
    var init := xs[..|xs| - 1];
    assert init[i] == xs[i];
    if j == |xs| - 1 {
      var b, a := ConcatSplit(init, i);
      before, between, after := b, a, "";
    } else {
      var b, m, a := ConcatOrder(init, i, j);
      assert init[j] == xs[j];
      before, between, after := b, m, a + xs[|xs| - 1];
    }
  }

  /** Python's `s.split(c)` for a one-character separator: the pieces between
      the separators, so there is always at least one piece. */
  function Split(s: string, c: char): (r: seq<string>)
    ensures |r| >= 1
    ensures forall i :: 0 <= i < |r| ==> c !in r[i]
  {
    if s == [] then [""]
    else
      var rest := Split(s[1..], c);
      if s[0] == c then [""] + rest else [[s[0]] + rest[0]] + rest[1..]
  }

  /** Joining the pieces with the separator gives back the split string. */
  lemma {:induction false} JoinSplit(s: string, c: char)
    ensures Join(Split(s, c), [c]) == s
  {
    if s != [] {
      var rest := Split(s[1..], c);
      JoinSplit(s[1..], c);
      if s[0] == c {
        assert ([""] + rest)[1..] == rest;
      } else if |rest| > 1 {
        var r := [[s[0]] + rest[0]] + rest[1..];
        assert r[1..] == rest[1..];
        assert Join(r, [c]) == [s[0]] + rest[0] + [c] + Join(rest[1..], [c]);
      }
    }
  }

  predicate IsDigit(c: char) {
    '0' <= c <= '9'
  }

  predicate AllDigits(s: string) {
    forall k :: 0 <= k < |s| ==> IsDigit(s[k])
  }

  function DigitValue(c: char): nat
    requires IsDigit(c)
  {
    c as int - '0' as int
  }

  function DigitChar(d: nat): (c: char)
    requires d < 10
    ensures IsDigit(c) && DigitValue(c) == d
  {
    ('0' as int + d) as char
  }

  /** The number a string of decimal digits denotes (leading zeros allowed). */
  function DecimalValue(ds: string): nat
    requires AllDigits(ds)
  {
    if ds == [] then 0 else DecimalValue(ds[..|ds| - 1]) * 10 + DigitValue(ds[|ds| - 1])
  }

  /** The decimal rendering of `n`, as JavaScript's template literals and
      Python's f-strings print an integer. */
  function NatToString(n: nat): (r: string)
    ensures r != [] && AllDigits(r)
  {
    if n < 10 then [DigitChar(n)] else NatToString(n / 10) + [DigitChar(n % 10)]
  }

  lemma {:induction false} DecimalValueOfNatToString(n: nat)
    ensures DecimalValue(NatToString(n)) == n
  {
    if n >= 10 {
      DecimalValueOfNatToString(n / 10);
      var s := NatToString(n);
      assert s[..|s| - 1] == NatToString(n / 10);
    }
  }

  /** The decimal rendering of a possibly negative integer. */
  function IntToString(i: int): string {
    if i < 0 then "-" + NatToString(-i) else NatToString(i)
  }

  /** The index just past the run of digits that starts at `i`. */
  function DigitRunEnd(s: string, i: nat): (j: nat)
    requires i <= |s|
    ensures i <= j <= |s|
    ensures AllDigits(s[i..j])
    ensures j == |s| || !IsDigit(s[j])
    decreases |s| - i
  {
    if i < |s| && IsDigit(s[i]) then DigitRunEnd(s, i + 1) else i
  }

  /** The index of the first digit at or after `i`, or `|s|` when there is none. */
  function FirstDigitFrom(s: string, i: nat): (k: nat)
    requires i <= |s|
    ensures i <= k <= |s|
    ensures forall m :: i <= m < k ==> !IsDigit(s[m])
    ensures k < |s| ==> IsDigit(s[k])
    decreases |s| - i
  {
    if i == |s| || IsDigit(s[i]) then i else FirstDigitFrom(s, i + 1)
  }

  /** The value of the leftmost maximal run of ASCII digits in `s`, which is
      what `re.search(r'(\d+)', s)` followed by `int` finds; `None` when `s`
      has no digit. */
  function FirstDigitRun(s: string): (r: Option<nat>)
    ensures r.None? <==> forall m :: 0 <= m < |s| ==> !IsDigit(s[m])
  {
    var k := FirstDigitFrom(s, 0);
    if k == |s| then None else Some(DecimalValue(s[k..DigitRunEnd(s, k)]))
  }

  lemma {:induction false} FirstDigitFromIs(s: string, i: nat, k: nat)
    requires i <= k < |s| && IsDigit(s[k])
    requires forall m :: i <= m < k ==> !IsDigit(s[m])
    ensures FirstDigitFrom(s, i) == k
    decreases k - i
  {
    if i < k {
      FirstDigitFromIs(s, i + 1, k);
    }
  }

  lemma {:induction false} DigitRunEndIs(s: string, i: nat, e: nat)
    requires i <= e <= |s|
    requires forall m :: i <= m < e ==> IsDigit(s[m])
    requires e == |s| || !IsDigit(s[e])
    ensures DigitRunEnd(s, i) == e
    decreases e - i
  {
    if i < e {
      DigitRunEndIs(s, i + 1, e);
    }
  }

  /** A run of digits written after digit-free text and before a non-digit
      is the run found, and the value is its decimal value. */
  lemma DigitRunFoundAfterText(pre: string, digits: string, post: string)
    requires forall m :: 0 <= m < |pre| ==> !IsDigit(pre[m])
    requires digits != [] && AllDigits(digits)
    requires post == [] || !IsDigit(post[0])
    ensures FirstDigitRun(pre + digits + post) == Some(DecimalValue(digits))
  {
    var s := pre + digits + post;
    var e := |pre| + |digits|;
    assert forall m :: 0 <= m < |pre| ==> s[m] == pre[m];
    assert forall m :: |pre| <= m < e ==> s[m] == digits[m - |pre|];
    assert e < |s| ==> s[e] == post[0];
    FirstDigitFromIs(s, 0, |pre|);
    DigitRunEndIs(s, |pre|, e);
    assert s[|pre|..e] == digits;
  }

  /** A number written after digit-free text and before a non-digit is the
      value found: "約20分" gives 20. */
  lemma NumberFoundAfterText(pre: string, n: nat, post: string)
    requires forall m :: 0 <= m < |pre| ==> !IsDigit(pre[m])
    requires post == [] || !IsDigit(post[0])
    ensures FirstDigitRun(pre + NatToString(n) + post) == Some(n)
  {
    DigitRunFoundAfterText(pre, NatToString(n), post);
    DecimalValueOfNatToString(n);
  }

  /** Trimming drops whitespace padding around a trimmed, non-empty text. */
  lemma TrimOfPadded(left: string, t: string, right: string)
    requires forall k :: 0 <= k < |left| ==> IsSpace(left[k])
    requires forall k :: 0 <= k < |right| ==> IsSpace(right[k])
    requires t != [] && IsTrimmed(t)
    ensures Trim(left + t + right) == t
  {
    var s := left + t + right;
    var e := |left| + |t|;
    assert s[e - 1] == t[|t| - 1] && s[|left|] == t[0];
    assert forall k :: e <= k < |s| ==> s[k] == right[k - e];
    var u := TrimRight(s);
    assert |u| == e;
    assert u == left + t;
    var v := TrimLeft(u);
    assert forall k :: 0 <= k < |left| ==> u[k] == left[k];
    assert |v| == |t|;
    assert v == u[|left|..] == t;
  }

  /** Trimming the right end of `[c] + s` trims `s` and keeps `c` unless
      nothing but whitespace is left. */
  lemma {:induction false} TrimRightCons(c: char, s: string)
    ensures TrimRight([c] + s) ==
      if TrimRight(s) != [] then [c] + TrimRight(s)
      else if IsSpace(c) then [] else [c]
    decreases |s|
  {
    if s != [] && IsSpace(s[|s| - 1]) {
      assert ([c] + s)[..|s|] == [c] + s[..|s| - 1];
      TrimRightCons(c, s[..|s| - 1]);
    } else if s == [] {
      assert [c] + s == [c];
    }
  }

  /** A leading whitespace character makes no difference to `Trim`. */
  lemma TrimDropsLeadingSpace(c: char, s: string)
    requires IsSpace(c)
    ensures Trim([c] + s) == Trim(s)
  {
    TrimRightCons(c, s);
    var u := TrimRight(s);
    if u != [] {
      assert ([c] + u)[1..] == u;
    }
  }

  function ToLowerChar(c: char): char {
    if 'A' <= c <= 'Z' then (c as int + 32) as char else c
  }

  /** ASCII case folding, as the database's case-insensitive match applies it. */
  function ToLower(s: string): (r: string)
    ensures |r| == |s|
    ensures forall k :: 0 <= k < |s| ==> r[k] == ToLowerChar(s[k])
  {
    if s == [] then [] else [ToLowerChar(s[0])] + ToLower(s[1..])
  }

  /** Django's `icontains` lookup. */
  predicate ContainsIgnoringCase(s: string, sub: string) {
    Contains(ToLower(s), ToLower(sub))
  }
}
