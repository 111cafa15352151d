/** Sensor file names of the two board layouts, built the way p_est.py
    builds them: `str(j)`, `os.path.join` and `str.replace`. */
module SysfsPaths {

  /** Directory of the INA3221 monitor on the first layout (topology A). */
  const HwmonBase: string := "/sys/bus/i2c/drivers/ina3221/1-0040/hwmon/hwmon3"
  /** Directory whose sub-folders hold the power files on the second layout (topology B). */
  const IioBase: string := "/sys/bus/i2c/drivers/ina3221x/"
  /** The device directory name that topology B rewrites into its aliases. */
  const IioDevice: string := "iio_device"

  /** Decimal digit of `d`. */
  function Digit(d: nat): (c: char)
    requires d < 10
    ensures '0' <= c <= '9'
  {
    ('0' as int + d) as char
  }

  /** Python's `str(n)` for a natural number. */
  function Str(n: nat): (s: string)
    ensures |s| > 0
    decreases n
  {
    if n < 10 then [Digit(n)] else Str(n / 10) + [Digit(n % 10)]
  }

  /** Python's `os.path.join(a, b)` on POSIX: an absolute `b` replaces `a`,
      otherwise a separator is inserted unless `a` is empty or already ends in one. */
  function JoinPath(a: string, b: string): (r: string)
    ensures |b| <= |r| && r[|r| - |b|..] == b
    ensures (|b| == 0 || b[0] != '/') ==> a <= r
  {
    if |b| > 0 && b[0] == '/' then b
    else if a == [] || a[|a| - 1] == '/' then a + b
    else a + "/" + b
  }

  /** Python's `s.replace(pat, rep)` for a non-empty `pat`: every occurrence,
      scanning left to right, occurrences do not overlap. */
  function Replace(s: string, pat: string, rep: string): string
    requires |pat| > 0
    decreases |s|
  {
    if |s| < |pat| then s
    else if s[..|pat|] == pat then rep + Replace(s[|pat|..], pat, rep)
    else [s[0]] + Replace(s[1..], pat, rep)
  }

  /** The current file of pair `j` of topology A (p_est.py:36, 40). */
  function CurrPath(j: nat): string {
    JoinPath(HwmonBase, "curr" + Str(j) + "_input")
  }

  /** The voltage file of pair `j` of topology A (p_est.py:37, 41). */
  function InPath(j: nat): string {
    JoinPath(HwmonBase, "in" + Str(j) + "_input")
  }

  /** The `i`-th power file of a topology-B folder in its `iio_device` form (p_est.py:48, 52). */
  function CandidatePath(folder: string, i: nat): string {
    JoinPath(JoinPath(IioBase, folder), IioDevice + "/in_power" + Str(i) + "_input")
  }

  /** `cur_path.replace("iio_device", "iio:device" + str(k))` (p_est.py:56, 60). */
  function AliasPath(p: string, k: nat): string {
    Replace(p, IioDevice, "iio:device" + Str(k))
  }

  lemma DigitInjective(a: nat, b: nat)
    requires a < 10 && b < 10
    ensures Digit(a) == Digit(b) ==> a == b
  {
    assert Digit(a) as int == '0' as int + a;
    assert Digit(b) as int == '0' as int + b;
  }

  /** The digit of a single-digit `str(d)` joined under a directory sits just
      after the directory, the separator and the prefix. */
  lemma DigitAt(base: string, pre: string, d: nat, suf: string)
    requires d < 10
    requires base != [] && base[|base| - 1] != '/' && pre != [] && pre[0] != '/'
    ensures |base| + 1 + |pre| < |JoinPath(base, pre + Str(d) + suf)|
    ensures JoinPath(base, pre + Str(d) + suf)[|base| + 1 + |pre|] == Digit(d)
  {
    var b := pre + Str(d) + suf;
    assert b[0] == pre[0];
    assert JoinPath(base, b) == base + "/" + b;
    assert b[|pre|] == Digit(d);
  }

  /** Single-digit pair indices name distinct current files and distinct voltage files. */
  lemma PairPathsInjective(a: nat, b: nat)
    requires a < 10 && b < 10
    ensures CurrPath(a) == CurrPath(b) ==> a == b
    ensures InPath(a) == InPath(b) ==> a == b
  {
    assert HwmonBase[|HwmonBase| - 1] == '3';
    DigitAt(HwmonBase, "curr", a, "_input");
    DigitAt(HwmonBase, "curr", b, "_input");
    DigitAt(HwmonBase, "in", a, "_input");
    DigitAt(HwmonBase, "in", b, "_input");
    DigitInjective(a, b);
  }
}
