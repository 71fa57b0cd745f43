/** Output-file naming of the upscale commands: the decimal rendering Rust's
    `{}` gives an unsigned integer, the three file-name formats, and the join
    onto the temporary directory. */
module Naming {
  import opened Outcomes

  predicate IsDigit(c: char) {
    '0' <= c <= '9'
  }

  predicate AllDigits(s: string) {
    forall i :: 0 <= i < |s| ==> IsDigit(s[i])
  }

  function DigitChar(d: nat): (c: char)
    requires d < 10
    ensures IsDigit(c)
  {
    (('0' as int) + d) as char
  }

  function DigitValue(c: char): (d: nat)
    requires IsDigit(c)
    ensures d < 10
  {
    (c as int) - ('0' as int)
  }

  /** `format!("{}", n)` for an unsigned integer: most significant digit
      first, no leading zeros, no sign, no padding. */
  function Decimal(n: nat): (s: string)
    ensures 1 <= |s| && AllDigits(s)
    ensures |s| > 1 ==> s[0] != '0'
  {
    if n < 10 then [DigitChar(n)] else Decimal(n / 10) + [DigitChar(n % 10)]
  }

  /** The value of a string of decimal digits. */
  function DecimalValue(s: string): nat
    requires AllDigits(s)
  {
    if s == [] then 0 else DecimalValue(s[..|s| - 1]) * 10 + DigitValue(s[|s| - 1])
  }

  /** Reading back what `Decimal` writes gives the number again. */
  lemma {:induction false} DecimalRoundTrip(n: nat)
    ensures DecimalValue(Decimal(n)) == n
  {
    var s := Decimal(n);
    if n < 10 {
      assert s[..0] == [];
    } else {
      DecimalRoundTrip(n / 10);
      assert s[..|s| - 1] == Decimal(n / 10);
      assert DigitValue(s[|s| - 1]) == n % 10;
    }
  }

  /** Distinct numbers are written differently. */
  lemma DecimalInjective(m: nat, n: nat)
    requires Decimal(m) == Decimal(n)
    ensures m == n
  {
    DecimalRoundTrip(m);
    DecimalRoundTrip(n);
  }

  // ---------------------------------------------------------------------------
  // File names

  /** Which command names the file: `upscale_image`, `upscale_image_enhanced`
      or `upscale_image_nearest_neighbor`. */
  datatype Variant = Plain | Enhanced | Nearest

  const NAME_PREFIX := "upscaled_"
  const NAME_SUFFIX := ".png"

  /** The word between `upscaled_` and the factor. */
  function VariantTag(v: Variant): string {
    match v
    case Plain => ""
    case Enhanced => "enhanced_"
    case Nearest => "nearest_"
  }

  /** `upscaled_{f}x_{secs}.png`, `upscaled_enhanced_{f}x_{secs}.png` and
      `upscaled_nearest_{f}x_{secs}.png`. */
  function FileName(v: Variant, factor: nat, seconds: nat): string {
    NAME_PREFIX + VariantTag(v) + Numbers(factor, seconds)
  }

  /** `{f}x_{secs}.png`, the part of the name after the tag. */
  function Numbers(factor: nat, seconds: nat): string {
    Decimal(factor) + "x_" + Decimal(seconds) + NAME_SUFFIX
  }

  /** The length of the longest run of digits `s` starts with. */
  function DigitRun(s: string): (n: nat)
    ensures n <= |s| && AllDigits(s[..n])
    ensures n < |s| ==> !IsDigit(s[n])
  {
    if s == [] || !IsDigit(s[0]) then 0
    else
      var n := 1 + DigitRun(s[1..]);
      assert forall i :: 1 <= i < n ==> s[..n][i] == s[1..][..n - 1][i - 1];
      n
  }

  /** A digit run ends where the digits do. */
  lemma {:induction false} DigitRunOf(d: string, t: string)
    requires AllDigits(d)
    requires t == [] || !IsDigit(t[0])
    ensures DigitRun(d + t) == |d|
  {
    if d == [] {
      assert d + t == t;
    } else {
      assert (d + t)[1..] == d[1..] + t;
      DigitRunOf(d[1..], t);
    }
  }

  /** Reads a number in decimal off the front of `s` and returns it with the
      rest of `s`; `None` when `s` does not start with a digit. */
  function ReadNumber(s: string): (r: Option<(nat, string)>)
    ensures r.Some? ==> |r.value.1| < |s|
  {
    var n := DigitRun(s);
    if n == 0 then None else Some((DecimalValue(s[..n]), s[n..]))
  }

  lemma ReadDecimal(k: nat, t: string)
    requires t == [] || !IsDigit(t[0])
    ensures ReadNumber(Decimal(k) + t) == Some((k, t))
  {
    var d := Decimal(k);
    DigitRunOf(d, t);
    assert (d + t)[..|d|] == d && (d + t)[|d|..] == t;
    DecimalRoundTrip(k);
  }

  predicate StartsWith(s: string, p: string) {
    |p| <= |s| && s[..|p|] == p
  }

  /** `{f}x_{secs}.png` read back as its two numbers. */
  function ParseNumbers(body: string): (r: Option<(nat, nat)>) {
    match ReadNumber(body)
    case None => None
    case Some((factor, tail)) =>
      if !StartsWith(tail, "x_") then None
      else match ReadNumber(tail[2..])
        case None => None
        case Some((seconds, last)) => if last == NAME_SUFFIX then Some((factor, seconds)) else None
  }

  /** The variant whose tag `rest` starts with; a digit means no tag. */
  function TagOf(rest: string): Variant {
    if StartsWith(rest, "enhanced_") then Enhanced else if StartsWith(rest, "nearest_") then Nearest else Plain
  }

  /** The variant, factor and seconds a generated file name was made from, or
      `None` when `name` is not one. */
  function ParseFileName(name: string): Option<(Variant, nat, nat)> {
    if !StartsWith(name, NAME_PREFIX) then None
    else
      var rest := name[|NAME_PREFIX|..];
      var v := TagOf(rest);
      if |rest| < |VariantTag(v)| then None
      else match ParseNumbers(rest[|VariantTag(v)|..])
        case None => None
        case Some((factor, seconds)) => Some((v, factor, seconds))
  }

  /** `ParseNumbers` accepts a body whose two numbers read off as given. */
  lemma ParseNumbersOf(body: string, factor: nat, tail: string, seconds: nat)
    requires ReadNumber(body) == Some((factor, tail)) && StartsWith(tail, "x_")
    requires ReadNumber(tail[2..]) == Some((seconds, NAME_SUFFIX))
    ensures ParseNumbers(body) == Some((factor, seconds))
  {
  }

  lemma NumbersRoundTrip(factor: nat, seconds: nat)
    ensures ParseNumbers(Numbers(factor, seconds)) == Some((factor, seconds))
  {
    var t := Decimal(seconds) + NAME_SUFFIX;
    var tail := "x_" + t;
    assert Numbers(factor, seconds) == Decimal(factor) + tail;
    assert tail[0] == 'x';
    ReadDecimal(factor, tail);
    assert tail[..2] == "x_" && tail[2..] == t;
    assert NAME_SUFFIX[0] == '.';
    ReadDecimal(seconds, NAME_SUFFIX);
    ParseNumbersOf(Numbers(factor, seconds), factor, tail, seconds);
  }


  lemma TagRoundTrip(v: Variant, body: string)
    requires body != [] && IsDigit(body[0])
    ensures TagOf(VariantTag(v) + body) == v
  {
    var rest := VariantTag(v) + body;
    if v == Plain {
      assert rest == body;
      assert rest[0] != "enhanced_"[0] && rest[0] != "nearest_"[0];
    } else if v == Enhanced {
      assert rest[..9] == "enhanced_";
    } else {
      assert rest[..8] == "nearest_";
      assert rest[0] != "enhanced_"[0];
    }
  }

  /** `ParseFileName` accepts a name made of the prefix, a tag and a body
      whose numbers parse. */
  lemma ParseFileNameOf(name: string, v: Variant, body: string, factor: nat, seconds: nat)
    requires StartsWith(name, NAME_PREFIX) && name[|NAME_PREFIX|..] == VariantTag(v) + body
    requires TagOf(VariantTag(v) + body) == v
    requires ParseNumbers(body) == Some((factor, seconds))
    ensures ParseFileName(name) == Some((v, factor, seconds))
  {
    assert (VariantTag(v) + body)[|VariantTag(v)|..] == body;
  }

  /** Every generated name parses back to what it was built from, so the name
      determines the command, the factor and the second. */
  lemma FileNameRoundTrip(v: Variant, factor: nat, seconds: nat)
    ensures ParseFileName(FileName(v, factor, seconds)) == Some((v, factor, seconds))
  {
    var body := Numbers(factor, seconds);
    var rest := VariantTag(v) + body;
    var name := FileName(v, factor, seconds);
    assert name == NAME_PREFIX + rest;
    Split(NAME_PREFIX, rest);
    Split(Decimal(factor), "x_" + Decimal(seconds) + NAME_SUFFIX);
    TagRoundTrip(v, body);
    NumbersRoundTrip(factor, seconds);
    ParseFileNameOf(name, v, body, factor, seconds);
  }

  /** A concatenation splits back into its two parts. */
  lemma Split(p: string, q: string)
    ensures (p + q)[..|p|] == p && (p + q)[|p|..] == q
    ensures p != [] ==> (p + q)[0] == p[0]
  {
  }



  /** Different requests made in different seconds, or for different factors
      or commands, never get the same file name. */
  lemma FileNamesDiffer(v1: Variant, f1: nat, s1: nat, v2: Variant, f2: nat, s2: nat)
    requires (v1, f1, s1) != (v2, f2, s2)
    ensures FileName(v1, f1, s1) != FileName(v2, f2, s2)
  {
    FileNameRoundTrip(v1, f1, s1);
    FileNameRoundTrip(v2, f2, s2);
  }

  // ---------------------------------------------------------------------------
  // The temporary directory

  const SEPARATOR: char := '/'

  /** `temp_dir.join(file_name)` for a relative `file_name`: a separator is put
      between the two unless the directory is empty or already ends in one. */
  function Join(dir: string, name: string): (p: string)
    ensures |dir| + |name| <= |p| <= |dir| + |name| + 1
    ensures p[..|dir|] == dir && p[|p| - |name|..] == name
    ensures dir != [] ==> p[|p| - |name| - 1] == SEPARATOR
    ensures |p| == |dir| + |name| <==> dir == [] || dir[|dir| - 1] == SEPARATOR
  {
    if dir == [] || dir[|dir| - 1] == SEPARATOR then dir + name else dir + [SEPARATOR] + name
  }

  /** The full output path of a command. */
  function OutputPath(tempDir: string, v: Variant, factor: nat, seconds: nat): (p: string)
    ensures StartsWith(p, tempDir)
  {
    Join(tempDir, FileName(v, factor, seconds))
  }

  /** The output file sits directly in the temporary directory: after the
      directory and at most one separator comes the file name, whole. */
  lemma OutputPathEndsWithName(tempDir: string, v: Variant, factor: nat, seconds: nat)
    ensures var p, name := OutputPath(tempDir, v, factor, seconds), FileName(v, factor, seconds);
      |name| <= |p| && p[|p| - |name|..] == name
      && ParseFileName(p[|p| - |name|..]) == Some((v, factor, seconds))
  {
    FileNameRoundTrip(v, factor, seconds);
  }
}
