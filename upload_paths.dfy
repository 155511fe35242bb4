/** Where a recipe photo is stored: `recipes/<Date.now()>_<file name>`. The
    millisecond clock is rendered as JavaScript renders a non-negative integer
    Number below 10^21: its decimal digits, without leading zeros. */
module UploadPaths {

  const Folder: string := "recipes/"

  predicate IsDigit(c: char) {
    '0' <= c <= '9'
  }

  predicate AllDigits(s: string) {
    forall k :: 0 <= k < |s| ==> IsDigit(s[k])
  }

  function DigitChar(d: nat): (c: char)
    requires d < 10
    ensures IsDigit(c) && c as int - '0' as int == d
  {
    ('0' as int + d) as char
  }

  /** The decimal rendering of `n`, as the template string `${n}` gives it. */
  function Decimal(n: nat): (s: string)
    ensures s != [] && AllDigits(s)
    ensures |s| > 1 ==> s[0] != '0'
  {
    if n < 10 then [DigitChar(n)] else Decimal(n / 10) + [DigitChar(n % 10)]
  }

  /** The number a string of decimal digits denotes. */
  function DigitsValue(s: string): nat
    requires AllDigits(s)
  {
    if s == [] then 0 else 10 * DigitsValue(s[..|s| - 1]) + (s[|s| - 1] as int - '0' as int)
  }

  /** Reading the rendered digits back gives the clock value. */
  lemma {:induction false} DecimalValue(n: nat)
    ensures DigitsValue(Decimal(n)) == n
  {
    if n >= 10 {
      DecimalValue(n / 10);
      var s := Decimal(n);
      assert s[..|s| - 1] == Decimal(n / 10);
    }
  }

  /** The storage path of a photo uploaded at clock `clock` from a file named `name`. */
  function UploadPath(clock: nat, name: string): (p: string)
    ensures |p| > |Folder| + |name| + 1
    ensures p[..|Folder|] == Folder
    ensures IsDigit(p[|Folder|]) && p[|p| - |name| - 1] == '_' && p[|p| - |name|..] == name
  {
    Folder + Decimal(clock) + "_" + name
  }

  /** Where the shorter digit string ends, the longer one still has a digit and
      not the '_' separator. */
  lemma SeparatorAt(short: string, name: string, long: string, other: string)
    requires |short| < |long| && AllDigits(long)
    ensures (short + "_" + name)[|short|] == '_'
    ensures IsDigit((long + "_" + other)[|short|])
  {
  }

  /** Two uploads share a path only when they share both the clock reading and
      the file name: the digits end at the first '_', so the path splits back. */
  lemma UploadPathInjective(clock1: nat, name1: string, clock2: nat, name2: string)
    requires UploadPath(clock1, name1) == UploadPath(clock2, name2)
    ensures clock1 == clock2 && name1 == name2
  {
    var d1, d2 := Decimal(clock1), Decimal(clock2);
    var t1, t2 := d1 + "_" + name1, d2 + "_" + name2;
    assert UploadPath(clock1, name1) == Folder + t1;
    assert UploadPath(clock2, name2) == Folder + t2;
    assert t1 == UploadPath(clock1, name1)[|Folder|..];
    assert t1 == t2;
    if |d1| < |d2| {
      SeparatorAt(d1, name1, d2, name2);
      assert false;
    } else if |d2| < |d1| {
      SeparatorAt(d2, name2, d1, name1);
      assert false;
    }
    assert d1 == t1[..|d1|] && d2 == t2[..|d2|];
    assert name1 == t1[|d1| + 1..] && name2 == t2[|d2| + 1..];
    DecimalValue(clock1);
    DecimalValue(clock2);
  }
}
