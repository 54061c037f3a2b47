/** Text helpers shared by the monitor: decimal rendering of counters and
    status codes (Number.prototype.toString), and String.prototype.trim. */
module Text {

  predicate IsAsciiDigit(c: char) {
    '0' <= c <= '9'
  }

  predicate AllDigits(s: string) {
    forall i :: 0 <= i < |s| ==> IsAsciiDigit(s[i])
  }

  function DigitChar(d: nat): (c: char)
    requires d < 10
    ensures IsAsciiDigit(c) && c as int - '0' as int == d
  {
    ('0' as int + d) as char
  }

  /** The text `n.toString()` gives for a non-negative integer: shortest
      decimal form, ASCII digits, no sign and no leading zero. */
  function NatToDecimal(n: nat): (s: string)
    ensures 1 <= |s| && AllDigits(s)
    ensures s[0] == '0' ==> n == 0
    decreases n
  {
    if n < 10 then [DigitChar(n)] else NatToDecimal(n / 10) + [DigitChar(n % 10)]
  }

  /** The value a string of decimal digits denotes; the partner of NatToDecimal. */
  function DecimalValue(s: string): nat
    requires AllDigits(s)
  {
    if s == [] then 0
    else DecimalValue(s[..|s| - 1]) * 10 + (s[|s| - 1] as int - '0' as int)
  }

  lemma {:induction false} DecimalRoundTrip(n: nat)
    ensures DecimalValue(NatToDecimal(n)) == n
    decreases n
  {
    if n >= 10 {
      var s := NatToDecimal(n);
      assert s[..|s| - 1] == NatToDecimal(n / 10);
      DecimalRoundTrip(n / 10);
    }
  }

  /** Numbers below 1000 print with at most three digits. */
  lemma DecimalBelowThousand(n: nat)
    requires n < 1000
    ensures |NatToDecimal(n)| <= 3
  {
    if n >= 10 {
      assert |NatToDecimal(n / 10)| <= 2 by {
        if n / 10 >= 10 {
          assert |NatToDecimal(n / 100)| == 1;
        }
      }
    }
  }

  /** WhiteSpace and LineTerminator code points of ECMAScript, the characters
      String.prototype.trim removes. */
  predicate IsJsWhitespace(c: char) {
    var k := c as int;
    k == 0x09 || k == 0x0A || k == 0x0B || k == 0x0C || k == 0x0D || k == 0x20
    || k == 0xA0 || k == 0x1680 || (0x2000 <= k <= 0x200A) || k == 0x2028
    || k == 0x2029 || k == 0x202F || k == 0x205F || k == 0x3000 || k == 0xFEFF
  }

  predicate AllWhitespace(s: string) {
    forall i :: 0 <= i < |s| ==> IsJsWhitespace(s[i])
  }

  /** Neither end of `s` is whitespace (the empty string qualifies). */
  predicate Unpadded(s: string) {
    s == [] || (!IsJsWhitespace(s[0]) && !IsJsWhitespace(s[|s| - 1]))
  }

  function TrimStart(s: string): (r: string)
    ensures |r| <= |s| && r == s[|s| - |r|..]
    ensures AllWhitespace(s[..|s| - |r|])
    ensures r == [] || !IsJsWhitespace(r[0])
  {
    if s != [] && IsJsWhitespace(s[0]) then TrimStart(s[1..]) else s
  }

  function TrimEnd(s: string): (r: string)
    ensures |r| <= |s| && r == s[..|r|]
    ensures AllWhitespace(s[|r|..])
    ensures r == [] || !IsJsWhitespace(r[|r| - 1])
  {
    if s != [] && IsJsWhitespace(s[|s| - 1]) then TrimEnd(s[..|s| - 1]) else s
  }

  /** String.prototype.trim. */
  function Trim(s: string): (r: string)
    ensures Unpadded(r)
  {
    TrimEnd(TrimStart(s))
  }

  /** The trimmed text is a slice of `s` with only whitespace on either side
      of it, and has no whitespace at either of its own ends. */
  lemma TrimIsSlice(s: string)
    ensures var r := Trim(s);
      Unpadded(r) &&
      exists lo | 0 <= lo <= |s| - |r| ::
        s[lo..lo + |r|] == r && AllWhitespace(s[..lo]) && AllWhitespace(s[lo + |r|..])
  {
    var t := TrimStart(s);
    var r := TrimEnd(t);
    var lo := |s| - |t|;
    assert s[lo..lo + |r|] == r;
    assert s[lo + |r|..] == t[|r|..];
  }

  lemma {:induction false} TrimStartSkips(pre: string, t: string)
    requires AllWhitespace(pre)
    requires t == [] || !IsJsWhitespace(t[0])
    ensures TrimStart(pre + t) == t
    decreases |pre|
  {
    if pre != [] {
      assert (pre + t)[1..] == pre[1..] + t;
      TrimStartSkips(pre[1..], t);
    } else {
      assert pre + t == t;
    }
  }

  lemma {:induction false} TrimEndSkips(t: string, post: string)
    requires AllWhitespace(post)
    requires t == [] || !IsJsWhitespace(t[|t| - 1])
    ensures TrimEnd(t + post) == t
    decreases |post|
  {
    if post != [] {
      var p := post[..|post| - 1];
      assert (t + post)[..|t + post| - 1] == t + p;
      TrimEndSkips(t, p);
    } else {
      assert t + post == t;
    }
  }

  /** Trimming removes exactly the padding: whitespace around unpadded text. */
  lemma TrimRemovesPadding(pre: string, s: string, post: string)
    requires AllWhitespace(pre) && AllWhitespace(post) && Unpadded(s)
    ensures Trim(pre + s + post) == s
  {
    if s == [] {
      assert pre + s + post == (pre + post) + [];
      TrimStartSkips(pre + post, []);
    } else {
      assert pre + s + post == pre + (s + post);
      TrimStartSkips(pre, s + post);
      TrimEndSkips(s, post);
    }
  }

  /** Unpadded text is left alone, so trimming twice is trimming once. */
  lemma TrimIdempotent(s: string)
    ensures Unpadded(s) ==> Trim(s) == s
    ensures Trim(Trim(s)) == Trim(s)
  {
    if Unpadded(s) {
      assert [] + s + [] == s;
      TrimRemovesPadding([], s, []);
    }
    var r := Trim(s);
    assert [] + r + [] == r;
    TrimRemovesPadding([], r, []);
  }
}
