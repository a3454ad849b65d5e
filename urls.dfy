/** String operations behind the client's URLs: the base-URL normalisation done
    when a client is constructed, and the decimal rendering of a user id. */
module Urls {

  /** The secure scheme every base URL is made to start with. */
  const Scheme: string := "https://"

  /** Python's `s.startswith(prefix)`. */
  predicate StartsWith(s: string, prefix: string) {
    |prefix| <= |s| && s[..|prefix|] == prefix
  }

  /** Python's `s.rstrip(c)` for a single character: removes every trailing `c`.
      The result is the longest prefix of `s` that does not end in `c`, and
      everything it drops is `c`. */
  function RStrip(s: string, c: char): (r: string)
    ensures |r| <= |s| && r == s[..|r|]
    ensures forall i :: |r| <= i < |s| ==> s[i] == c
    ensures r == [] || r[|r| - 1] != c
    decreases |s|
  {
    if s != [] && s[|s| - 1] == c then RStrip(s[..|s| - 1], c) else s
  }

  /** The three properties in the contract of `RStrip` determine its result. */
  lemma RStripUnique(s: string, c: char, r: string)
    requires |r| <= |s| && r == s[..|r|]
    requires forall i :: |r| <= i < |s| ==> s[i] == c
    requires r == [] || r[|r| - 1] != c
    ensures r == RStrip(s, c)
  {
    var q := RStrip(s, c);
    if 0 < |q| {
      assert q[|q| - 1] == s[|q| - 1];
    }
    if 0 < |r| {
      assert r[|r| - 1] == s[|r| - 1];
    }
    assert |q| == |r|;
  }

  /** What follows the scheme once the client has put it in front: the input
      without its `https://`, or the whole input when it lacks one. */
  function HostPart(s: string): string {
    if StartsWith(s, Scheme) then s[|Scheme|..] else s
  }

  /** Whether anything other than slashes follows the scheme. */
  predicate HasHost(s: string) {
    exists i :: 0 <= i < |HostPart(s)| && HostPart(s)[i] != '/'
  }

  /** The base-URL normalisation of `ForumClient.__init__`: put `https://` in
      front unless the input already starts with it, then strip every trailing
      slash. The result always starts with `https:`, never ends in a slash, and
      is what remains of the prefixed input after its trailing slashes. */
  function Normalize(s: string): (r: string)
    ensures StartsWith(r, "https:")
    ensures r[|r| - 1] != '/'
    ensures StartsWith(Scheme + HostPart(s), r)
    ensures forall i :: |r| <= i < |Scheme + HostPart(s)| ==> (Scheme + HostPart(s))[i] == '/'
  {
    var prefixed := if StartsWith(s, Scheme) then s else Scheme + s;
    assert prefixed == Scheme + HostPart(s);
    var r := RStrip(prefixed, '/');
    assert prefixed[5] == ':';
    assert |r| > 5;
    assert r[..6] == prefixed[..6];
    r
  }

  /** The exact result of normalisation: the scheme followed by the host part
      without its trailing slashes, or just `https:` when the input is only the
      scheme and slashes (the slashes of `https://` are stripped too). */
  lemma NormalizeFormula(s: string)
    ensures Normalize(s) == if HasHost(s) then Scheme + RStrip(HostPart(s), '/') else "https:"
  {
    var h := HostPart(s);
    var t := Scheme + h;
    assert t == if StartsWith(s, Scheme) then s else Scheme + s;
    if HasHost(s) {
      var i :| 0 <= i < |h| && h[i] != '/';
      var stripped := RStrip(h, '/');
      assert i < |stripped|;
      var candidate := Scheme + stripped;
      assert candidate == t[..|candidate|];
      assert forall j :: |candidate| <= j < |t| ==> t[j] == h[j - |Scheme|];
      RStripUnique(t, '/', candidate);
    } else {
      var candidate := "https:";
      assert candidate == t[..6];
      assert forall j :: 8 <= j < |t| ==> t[j] == h[j - 8];
      RStripUnique(t, '/', candidate);
    }
  }

  /** Normalisation is idempotent exactly when something other than slashes
      follows the scheme. Otherwise the first pass gives `https:`, which does
      not start with `https://`, so a second pass gives `https://https:`. */
  lemma NormalizeIdempotentIff(s: string)
    ensures Normalize(Normalize(s)) == Normalize(s) <==> HasHost(s)
    ensures !HasHost(s) ==> Normalize(s) == "https:" && Normalize(Normalize(s)) == "https://https:"
  {
    NormalizeFormula(s);
    var r := Normalize(s);
    if HasHost(s) {
      assert StartsWith(r, Scheme);
      NormalizeFormula(r);
      var h := HostPart(r);
      assert r == Scheme + h;
      assert h[|h| - 1] != '/';
      RStripUnique(h, '/', h);
    } else {
      assert !StartsWith("https:", Scheme);
      assert HostPart("https:") == "https:";
      assert HostPart("https:")[0] != '/';
      NormalizeFormula("https:");
      RStripUnique("https:", '/', "https:");
    }
  }

  /** A host written without the scheme and with one trailing slash gains the
      scheme and loses the slash. */
  lemma NormalizeSchemelessHost(host: string)
    requires host != [] && host[|host| - 1] != '/' && !StartsWith(host + "/", Scheme)
    ensures Normalize(host + "/") == Scheme + host
  {
    var s := host + "/";
    assert HostPart(s) == s && s[|host| - 1] != '/';
    NormalizeFormula(s);
    RStripUnique(s, '/', host);
  }

  /** The host the demo entry point passes, with its trailing slash. */
  const DemoHost: string := "jsonplaceholder.typicode.com/"

  /** The demo host gains the scheme and loses its trailing slash. */
  lemma NormalizeDemoHost()
    ensures Normalize(DemoHost) == Scheme + DemoHost[..|DemoHost| - 1]
  {
    var host := DemoHost[..|DemoHost| - 1];
    assert host + "/" == DemoHost;
    assert host[|host| - 1] == 'm' && DemoHost[0] == 'j';
    NormalizeSchemelessHost(host);
  }

  /** The two inputs that show normalisation is not idempotent in general. */
  lemma NormalizeBareSchemeExamples()
    ensures Normalize("https://") == "https:"
    ensures Normalize("https:") == "https://https:"
  {
    assert StartsWith("https://", Scheme) && HostPart("https://") == [];
    NormalizeIdempotentIff("https://");
  }

  /** The ASCII digit for `d`. */
  function DigitChar(d: nat): (c: char)
    requires d < 10
    ensures '0' <= c <= '9' && c as int - '0' as int == d
  {
    ('0' as int + d) as char
  }

  /** Whether every character of `r` is a decimal digit. */
  predicate IsDigits(r: string) {
    forall i :: 0 <= i < |r| ==> '0' <= r[i] <= '9'
  }

  /** The number a string of decimal digits denotes, most significant digit first. */
  function DecimalValue(r: string): nat
    requires IsDigits(r)
  {
    if r == [] then 0 else DecimalValue(r[..|r| - 1]) * 10 + (r[|r| - 1] as int - '0' as int)
  }

  /** Python's `str(n)` for a natural number: the decimal digits that denote
      `n`, most significant first, without leading zeros. */
  function NatToDecimal(n: nat): (r: string)
    ensures |r| > 0 && IsDigits(r)
    ensures DecimalValue(r) == n
    ensures r[0] == '0' <==> n == 0
    ensures n < 10 <==> |r| == 1
  {
    if n < 10 then [DigitChar(n)]
    else
      var prefix := NatToDecimal(n / 10);
      var r := prefix + [DigitChar(n % 10)];
      assert r[..|r| - 1] == prefix;
      r
  }

  /** Python's `str(n)` for an integer: a minus sign for a negative number,
      then the digits of its magnitude, without leading zeros. */
  function IntToDecimal(n: int): (r: string)
    ensures |r| > 0 && '/' !in r
    ensures r[0] == '-' <==> n < 0
    ensures n >= 0 ==> IsDigits(r) && DecimalValue(r) == n
    ensures n < 0 ==> IsDigits(r[1..]) && DecimalValue(r[1..]) == -n
    ensures n >= 0 ==> (r[0] == '0' <==> n == 0)
    ensures r[0] == '0' ==> r == "0"
    ensures n < 0 ==> |r| > 1 && r[1] != '0'
  {
    if n < 0 then
      var r := "-" + NatToDecimal(-n);
      assert r[1..] == NatToDecimal(-n);
      r
    else NatToDecimal(n)
  }

  /** Distinct integers have distinct decimal renderings, so distinct user
      ids give distinct request paths. */
  lemma IntToDecimalInjective(a: int, b: int)
    requires IntToDecimal(a) == IntToDecimal(b)
    ensures a == b
  {
    var r := IntToDecimal(a);
    if a < 0 {
      assert DecimalValue(r[1..]) == -a == -b;
    } else {
      assert DecimalValue(r) == a == b;
    }
  }
}
