/** Decimal rendering of counters and of the `m:ss` game clock shared by the
    game, demo, game-master and home pages, and the ids built from
    timestamps and loop indices. */
module Text {

  import opened Common

  predicate IsDigit(c: char) {
    '0' <= c <= '9'
  }

  predicate AllDigits(s: string) {
    forall i :: 0 <= i < |s| ==> IsDigit(s[i])
  }

  function DigitChar(d: nat): (c: char)
    requires d < 10
    ensures IsDigit(c) && c as int - '0' as int == d
  {
    ('0' as int + d) as char
  }

  /** `n.toString()` for a non-negative integer: no sign, no leading zero. */
  function NatToString(n: nat): (s: string)
    ensures 1 <= |s| && AllDigits(s)
    ensures |s| > 1 ==> s[0] != '0'
    decreases n
  {
    if n < 10 then [DigitChar(n)] else NatToString(n / 10) + [DigitChar(n % 10)]
  }

  /** Reads a string of decimal digits back as a number (leading zeros allowed). */
  function ParseNat(s: string): (n: nat)
    requires AllDigits(s)
    decreases |s|
  {
    if s == [] then 0
    else ParseNat(s[..|s| - 1]) * 10 + (s[|s| - 1] as int - '0' as int)
  }

  lemma {:induction false} ParseNatToString(n: nat)
    ensures ParseNat(NatToString(n)) == n
    decreases n
  {
    if n >= 10 {
      var s := NatToString(n);
      assert s[..|s| - 1] == NatToString(n / 10);
      ParseNatToString(n / 10);
    }
  }

  /** Different numbers render differently, so ids built from distinct
      counters are distinct. */
  lemma NatToStringInjective(m: nat, n: nat)
    ensures NatToString(m) == NatToString(n) <==> m == n
  {
    if NatToString(m) == NatToString(n) {
      ParseNatToString(m);
      ParseNatToString(n);
    }
  }

  /** `s.padStart(2, '0')`. */
  function PadStart2(s: string): (r: string)
    ensures |r| == if |s| >= 2 then |s| else 2
    ensures r[|r| - |s|..] == s
    ensures forall i :: 0 <= i < |r| - |s| ==> r[i] == '0'
  {
    if |s| >= 2 then s else if |s| == 1 then "0" + s else "00"
  }

  /** The `formatTime` of the pages: minutes, a colon, and the seconds padded
      to two digits. All callers pass a non-negative whole number of seconds. */
  function FormatTime(seconds: nat): (r: string)
  {
    NatToString(seconds / 60) + ":" + PadStart2(NatToString(seconds % 60))
  }

  function IndexOfColon(s: string): (k: nat)
    ensures k <= |s|
    ensures k < |s| ==> s[k] == ':'
    ensures forall i :: 0 <= i < k ==> s[i] != ':'
  {
    if s == [] then 0 else if s[0] == ':' then 0 else 1 + IndexOfColon(s[1..])
  }

  /** Inverse of `FormatTime`: minutes before the colon, seconds after it. */
  function ParseTime(r: string): Option<nat>
  {
    var k := IndexOfColon(r);
    if k < |r| && AllDigits(r[..k]) && AllDigits(r[k + 1..])
    then Some(ParseNat(r[..k]) * 60 + ParseNat(r[k + 1..]))
    else None
  }

  /** The clock text always shows two second digits after a single colon,
      and reading it back gives the number of seconds it was made from. */
  lemma FormatTimeRoundTrip(seconds: nat)
    ensures var r := FormatTime(seconds);
      |r| >= 4 && r[|r| - 3] == ':' && ParseTime(r) == Some(seconds)
  {
    var m := NatToString(seconds / 60);
    var sec := NatToString(seconds % 60);
    SecondsFit(seconds % 60);
    PadZeros(sec);
    ColonSplit(m, PadStart2(sec));
    ParseNatToString(seconds / 60);
    ParseNatToString(seconds % 60);
  }

  /** Seconds below a minute render in at most two digits. */
  lemma SecondsFit(x: nat)
    requires x < 60
    ensures |NatToString(x)| <= 2
  {
    if x >= 10 {
      assert NatToString(x) == NatToString(x / 10) + [DigitChar(x % 10)];
    }
  }

  /** A digit string, a colon and a digit string are split back at that
      colon. */
  lemma ColonSplit(m: string, t: string)
    requires AllDigits(m) && AllDigits(t)
    ensures var r := m + ":" + t;
      IndexOfColon(r) == |m| && r[..|m|] == m && r[|m| + 1..] == t
  {
    var r := m + ":" + t;
    assert r[|m|] == ':';
    assert forall i :: 0 <= i < |m| ==> r[i] == m[i] && r[i] != ':';
  }

  /** Leading zeros do not change the value read back. */
  lemma PadZeros(s: string)
    requires AllDigits(s) && |s| <= 2
    ensures AllDigits(PadStart2(s)) && ParseNat(PadStart2(s)) == ParseNat(s)
  {
    if |s| == 1 {
      var t := "0" + s;
      assert t[..1] == "0" && t[..1][..0] == [];
      assert ParseNat(t[..1]) == 0;
      assert s[..0] == [];
      assert ParseNat(t) == s[0] as int - '0' as int == ParseNat(s);
    } else if |s| == 0 {
      var t := "00";
      assert t[..1] == "0" && t[..1][..0] == [];
      assert ParseNat(t[..1]) == 0;
    }
  }
}
