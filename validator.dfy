/** The check applied to the `ip` field of the lookup service's JSON body:
    a truthiness test, `trim()`, then the pattern `^(\d{1,3}\.){3}\d{1,3}$`
    (without the `u` flag, so `\d` is an ASCII digit). The pattern is
    syntactic only: octets above 255 pass. */
module IpValidator {
  import opened Text
  import opened Errors

  /** What `data.ip` evaluates to for a parsed, non-null JSON body. A body
      that is not an object, or an object without the key, gives `Missing`. */
  datatype IpField =
    | Missing
    | JNull
    | JBool(b: bool)
    | JNumber(n: real)
    | JString(s: string)
    | JArrayOrObject

  /** JavaScript truthiness of the field. */
  predicate Truthy(f: IpField) {
    match f
    case Missing => false
    case JNull => false
    case JBool(b) => b
    case JNumber(n) => n != 0.0
    case JString(s) => s != ""
    case JArrayOrObject => true
  }

  /** Length of the run of ASCII digits at the front of `s`. */
  function LeadingDigits(s: string): (n: nat)
    ensures n <= |s| && AllDigits(s[..n])
    ensures n < |s| ==> !IsAsciiDigit(s[n])
  {
    if s != [] && IsAsciiDigit(s[0]) then 1 + LeadingDigits(s[1..]) else 0
  }

  /** `s` matches `(\d{1,3}\.){k}\d{1,3}` from its first to its last character.
      A digit is never a dot, so a match must take the whole digit run in front
      of each dot and at the end: backtracking over shorter runs cannot succeed,
      and reading the runs greedily decides the pattern. */
  predicate MatchesGroups(s: string, k: nat)
    decreases k
  {
    var n := LeadingDigits(s);
    1 <= n <= 3 &&
    if k == 0 then n == |s|
    else n < |s| && s[n] == '.' && MatchesGroups(s[n + 1..], k - 1)
  }

  /** The pattern test of background.js:93. */
  predicate IsDottedQuad(s: string) {
    MatchesGroups(s, 3)
  }

  /** Index of the first dot in `s`, or `|s|` when there is none. */
  function DotIndex(s: string): (i: nat)
    ensures i <= |s| && (i < |s| ==> s[i] == '.')
    ensures forall j :: 0 <= j < i ==> s[j] != '.'
  {
    if s == [] || s[0] == '.' then 0 else 1 + DotIndex(s[1..])
  }

  /** The dot-separated fields of `s`, as `s.split('.')` gives them. */
  function Fields(s: string): (fs: seq<string>)
    ensures 1 <= |fs|
    decreases |s|
  {
    var i := DotIndex(s);
    if i == |s| then [s] else [s[..i]] + Fields(s[i + 1..])
  }

  predicate IsOctetText(f: string) {
    1 <= |f| <= 3 && AllDigits(f)
  }

  predicate AllOctetTexts(fs: seq<string>) {
    forall i :: 0 <= i < |fs| ==> IsOctetText(fs[i])
  }

  /** Reference reading of the pattern: exactly four dot-separated fields of
      one to three ASCII digits each. */
  predicate FourOctetFields(s: string) {
    |Fields(s)| == 4 && AllOctetTexts(Fields(s))
  }

  /** The digit run in front of `s` ends at or before the first dot, and
      exactly there when everything before the first dot is a digit. */
  lemma LeadingDigitsUpToDot(s: string)
    ensures LeadingDigits(s) <= DotIndex(s)
    ensures AllDigits(s[..DotIndex(s)]) ==> LeadingDigits(s) == DotIndex(s)
  {
  }

  lemma AllOctetTextsCons(x: string, rest: seq<string>)
    ensures AllOctetTexts([x] + rest) <==> IsOctetText(x) && AllOctetTexts(rest)
  {
    var fs := [x] + rest;
    if IsOctetText(x) && AllOctetTexts(rest) {
      forall j | 0 <= j < |fs| ensures IsOctetText(fs[j]) {
        if j > 0 { assert fs[j] == rest[j - 1]; }
      }
    }
    if AllOctetTexts(fs) {
      assert IsOctetText(fs[0]);
      forall j | 0 <= j < |rest| ensures IsOctetText(rest[j]) {
        assert rest[j] == fs[j + 1];
      }
    }
  }

  /** MatchesGroups read field by field: the text before the first dot is an
      octet, and either there is no dot and no group left, or the rest after
      the dot matches one group fewer. */
  lemma MatchesGroupsByField(s: string, k: nat)
    ensures var i := DotIndex(s);
      MatchesGroups(s, k) <==>
        IsOctetText(s[..i]) &&
        if k == 0 then i == |s| else i < |s| && MatchesGroups(s[i + 1..], k - 1)
  {
    var n, i := LeadingDigits(s), DotIndex(s);
    LeadingDigitsUpToDot(s);
    assert IsOctetText(s[..i]) <==> 1 <= n <= 3 && n == i;
  }

  lemma MatchesGroupsWithoutDot(s: string, k: nat)
    requires DotIndex(s) == |s|
    ensures MatchesGroups(s, k) <==> |Fields(s)| == k + 1 && AllOctetTexts(Fields(s))
  {
    MatchesGroupsByField(s, k);
    assert Fields(s) == [s];
    assert s[..|s|] == s;
    AllOctetTextsCons(s, []);
  }

  lemma FieldsAtDot(s: string)
    requires DotIndex(s) < |s|
    ensures Fields(s) == [s[..DotIndex(s)]] + Fields(s[DotIndex(s) + 1..])
  {
  }

  /** `s` splits at its dots into k + 1 fields of 1-3 ASCII digits each. */
  predicate OctetFields(s: string, k: nat) {
    |Fields(s)| == k + 1 && AllOctetTexts(Fields(s))
  }

  lemma {:induction false} MatchesGroupsIffFields(s: string, k: nat)
    ensures MatchesGroups(s, k) <==> OctetFields(s, k)
    decreases k
  {
    var i := DotIndex(s);
    if i == |s| {
      MatchesGroupsWithoutDot(s, k);
    } else {
      var rest := s[i + 1..];
      MatchesGroupsByField(s, k);
      FieldsAtDot(s);
      AllOctetTextsCons(s[..i], Fields(rest));
      if k > 0 {
        MatchesGroupsIffFields(rest, k - 1);
      }
    }
  }

  /** The pattern accepts exactly the strings with four fields of 1-3 digits. */
  lemma DottedQuadIffFourOctetFields(s: string)
    ensures IsDottedQuad(s) <==> FourOctetFields(s)
  {
    MatchesGroupsIffFields(s, 3);
  }

  /** A match begins and ends with a digit, so it is never padded. */
  lemma {:induction false} MatchIsUnpadded(s: string, k: nat)
    requires MatchesGroups(s, k)
    ensures |s| >= 1 && IsAsciiDigit(s[0]) && IsAsciiDigit(s[|s| - 1])
    ensures Unpadded(s)
    decreases k
  {
    var n := LeadingDigits(s);
    assert IsAsciiDigit(s[..n][0]);
    if k == 0 {
      assert IsAsciiDigit(s[..n][n - 1]);
    } else {
      MatchIsUnpadded(s[n + 1..], k - 1);
      assert s[|s| - 1] == s[n + 1..][|s[n + 1..]| - 1];
    }
  }

  /** Lines 86-95 of background.js: reject a falsy field, trim it (a TypeError
      for a non-string), and test the trimmed text against the pattern. */
  function Validate(f: IpField): (r: Result<string>)
    ensures r.Ok? ==> f.JString? && r.value == Trim(f.s) && IsDottedQuad(r.value)
    ensures !Truthy(f) ==> r == Err(NoIpAddress)
  {
    if !Truthy(f) then Err(NoIpAddress)
    else if !f.JString? then Err(TrimNotAFunction)
    else
      var ip := Trim(f.s);
      if !IsDottedQuad(ip) then Err(InvalidIpFormat) else Ok(ip)
  }

  /** Every outcome of the validator, stated against the reference reading. */
  lemma ValidateOutcomes(f: IpField)
    ensures Validate(f).Ok? <==> f.JString? && FourOctetFields(Trim(f.s))
    ensures Validate(f).Ok? ==> Validate(f).value == Trim(f.s)
    ensures Truthy(f) && !f.JString? ==> Validate(f) == Err(TrimNotAFunction)
    ensures f.JString? && f.s != "" && !FourOctetFields(Trim(f.s)) ==> Validate(f) == Err(InvalidIpFormat)
  {
    if f.JString? {
      DottedQuadIffFourOctetFields(Trim(f.s));
      if f.s == "" {
        assert Trim(f.s) == "";
        assert !IsDottedQuad("");
      }
    }
  }

  /** A string whose trimmed text passes the pattern is accepted as that text. */
  lemma ValidateAcceptsTrimmed(s: string)
    requires IsDottedQuad(Trim(s))
    ensures Validate(JString(s)) == Ok(Trim(s))
  {
    assert |Trim(s)| <= |s|;
  }

  /** Text that already passes the pattern passes the validator unchanged. */
  lemma ValidateAcceptsDottedQuad(ip: string)
    requires IsDottedQuad(ip)
    ensures Validate(JString(ip)) == Ok(ip)
  {
    MatchIsUnpadded(ip, 3);
    TrimIdempotent(ip);
  }

  /** The validator never produces the no-connection text, so the sentinel
      state and a real address can never be confused. */
  lemma SentinelIsNotDottedQuad()
    ensures !IsDottedQuad(NO_CONNECTION)
  {
    assert LeadingDigits(NO_CONNECTION) == 0;
  }

  lemma {:induction false} FieldsOfOctet(x: string)
    requires IsOctetText(x)
    ensures Fields(x) == [x]
  {
    assert DotIndex(x) == |x| by {
      if DotIndex(x) < |x| {
        assert IsAsciiDigit(x[DotIndex(x)]);
      }
    }
  }

  lemma FieldsOfJoin(x: string, rest: string)
    requires IsOctetText(x)
    ensures Fields(x + "." + rest) == [x] + Fields(rest)
  {
    var s := x + "." + rest;
    assert s[|x|] == '.';
    assert forall j :: 0 <= j < |x| ==> s[j] == x[j];
    assert DotIndex(s) == |x|;
    assert s[..|x|] == x;
    assert s[|x| + 1..] == rest;
    FieldsAtDot(s);
  }

  /** The text `w.x.y.z`. */
  function JoinQuad(w: string, x: string, y: string, z: string): string {
    w + "." + (x + "." + (y + "." + z))
  }

  /** Four octet texts joined by dots pass the pattern. */
  lemma JoinedOctetsMatch(w: string, x: string, y: string, z: string)
    requires IsOctetText(w) && IsOctetText(x) && IsOctetText(y) && IsOctetText(z)
    ensures IsDottedQuad(JoinQuad(w, x, y, z))
  {
    var t2 := y + "." + z;
    var t1 := x + "." + t2;
    FieldsOfOctet(z);
    FieldsOfJoin(y, z);
    FieldsOfJoin(x, t2);
    FieldsOfJoin(w, t1);
    AllOctetTextsCons(z, []);
    AllOctetTextsCons(y, Fields(z));
    AllOctetTextsCons(x, Fields(t2));
    AllOctetTextsCons(w, Fields(t1));
    assert OctetFields(JoinQuad(w, x, y, z), 3);
    MatchesGroupsIffFields(JoinQuad(w, x, y, z), 3);
  }

  /** The dotted-decimal text `a.b.c.d` of an IPv4 address. */
  function DottedDecimal(a: nat, b: nat, c: nat, d: nat): string {
    JoinQuad(NatToDecimal(a), NatToDecimal(b), NatToDecimal(c), NatToDecimal(d))
  }

  lemma OctetText(n: nat)
    requires n < 1000
    ensures IsOctetText(NatToDecimal(n))
  {
    DecimalBelowThousand(n);
  }

  /** Every IPv4 address the lookup service can report passes the pattern
      (and, being lenient, so does any quadruple of numbers below 1000). */
  lemma DottedDecimalAccepted(a: nat, b: nat, c: nat, d: nat)
    requires a < 1000 && b < 1000 && c < 1000 && d < 1000
    ensures IsDottedQuad(DottedDecimal(a, b, c, d))
    ensures Validate(JString(DottedDecimal(a, b, c, d))) == Ok(DottedDecimal(a, b, c, d))
  {
    OctetText(a); OctetText(b); OctetText(c); OctetText(d);
    JoinedOctetsMatch(NatToDecimal(a), NatToDecimal(b), NatToDecimal(c), NatToDecimal(d));
    ValidateAcceptsDottedQuad(DottedDecimal(a, b, c, d));
  }

  lemma SpelledOut999()
    ensures JoinQuad("999", "999", "1", "1") == "999.999.1.1"
  {
  }

  /** The pattern does not range-check octets: 999 passes. */
  lemma AcceptsOutOfRangeOctets()
    ensures Validate(JString("999.999.1.1")) == Ok("999.999.1.1")
  {
    assert IsOctetText("999") && IsOctetText("1");
    JoinedOctetsMatch("999", "999", "1", "1");
    SpelledOut999();
    ValidateAcceptsDottedQuad("999.999.1.1");
  }

  lemma EightsAreDottedQuad()
    ensures IsDottedQuad("8.8.8.8")
  {
    JoinedOctetsMatch("8", "8", "8", "8");
    assert JoinQuad("8", "8", "8", "8") == "8.8.8.8";
  }

  lemma TrimsPaddedEights()
    ensures Trim(" 8.8.8.8 ") == "8.8.8.8"
  {
    assert " 8.8.8.8 " == " " + "8.8.8.8" + " ";
    TrimRemovesPadding(" ", "8.8.8.8", " ");
  }

  /** Surrounding whitespace is trimmed away before the pattern test. */
  lemma AcceptsPaddedAddress()
    ensures Validate(JString(" 8.8.8.8 ")) == Ok("8.8.8.8")
  {
    EightsAreDottedQuad();
    TrimsPaddedEights();
  }

  lemma TrimUnpaddedLiteral(s: string)
    requires Unpadded(s)
    ensures Trim(s) == s
  {
    TrimIdempotent(s);
  }

  /** Text without digits fails the pattern. */
  lemma RejectsLetters()
    ensures Validate(JString("abc")) == Err(InvalidIpFormat)
  {
    TrimUnpaddedLiteral("abc");
    assert LeadingDigits("abc") == 0;
  }

  /** Three groups are one too few. */
  lemma RejectsThreeGroups()
    ensures Validate(JString("1.2.3")) == Err(InvalidIpFormat)
  {
    TrimUnpaddedLiteral("1.2.3");
    assert LeadingDigits("1.2.3") == 1;
    assert "1.2.3"[2..] == "2.3";
    assert LeadingDigits("2.3") == 1;
    assert "2.3"[2..] == "3";
    assert LeadingDigits("3") == 1;
  }

  /** A group of four digits is one digit too many. */
  lemma RejectsFourDigitGroup()
    ensures Validate(JString("1234.1.1.1")) == Err(InvalidIpFormat)
  {
    var s := "1234.1.1.1";
    TrimUnpaddedLiteral(s);
    var n := LeadingDigits(s);
    assert n >= 4;
  }

  /** Falsy and non-string fields are rejected before any trimming. */
  lemma RejectsAbsentOrNonStringField()
    ensures Validate(JString("")) == Err(NoIpAddress)
    ensures Validate(Missing) == Err(NoIpAddress)
    ensures Validate(JNumber(0.0)) == Err(NoIpAddress)
    ensures Validate(JNumber(8.0)) == Err(TrimNotAFunction)
  {
  }
}
