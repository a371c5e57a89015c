/**
 * Image file names of the capture: the `%`-patterns the manifest is built
 * from (capture.py, create_view_groups) and the names the renders are
 * renamed to (capture.py, rename_renders). The manifest and the files on
 * disk must agree, so the two formulas are shown to give the same names.
 */
module FileNames {
  import opened Faces

  predicate IsDigit(c: char)
  {
    '0' <= c <= '9'
  }

  predicate AllDigits(s: string)
  {
    forall i :: 0 <= i < |s| ==> IsDigit(s[i])
  }

  function DigitChar(d: nat): (c: char)
    requires d < 10
    ensures IsDigit(c)
  {
    ('0' as int + d) as char
  }

  function DigitValue(c: char): (d: nat)
    requires IsDigit(c)
    ensures d < 10
  {
    c as int - '0' as int
  }

  /** str(n) for n >= 0: decimal digits, most significant first, no leading zero. */
  function DecimalString(n: nat): (s: string)
    ensures |s| >= 1 && AllDigits(s)
    ensures s[0] == '0' ==> n == 0
  {
    if n < 10 then [DigitChar(n)]
    else DecimalString(n / 10) + [DigitChar(n % 10)]
  }

  /** The number a string of decimal digits denotes; leading zeros do not count. */
  function DecimalValue(s: string): (n: nat)
    requires AllDigits(s)
  {
    if |s| == 0 then 0
    else 10 * DecimalValue(s[..|s| - 1]) + DigitValue(s[|s| - 1])
  }

  /** str(n) for any integer: a minus sign in front of the digits of |n| when n < 0. */
  function IntString(n: int): (s: string)
    ensures |s| >= 1
    ensures s[0] == '-' <==> n < 0
  {
    if n < 0 then "-" + DecimalString(-n) else DecimalString(n)
  }

  function Zeros(k: nat): (z: string)
    ensures |z| == k && AllDigits(z)
  {
    seq(k, _ => '0')
  }

  /**
   * Python's str.zfill(width): zeros are added on the left up to width
   * characters, after a leading '+' or '-' sign if there is one.
   */
  function ZFill(s: string, width: nat): (r: string)
    ensures |r| == if |s| >= width then |s| else width
  {
    if |s| >= width then s
    else if |s| > 0 && (s[0] == '+' || s[0] == '-') then [s[0]] + Zeros(width - |s|) + s[1..]
    else Zeros(width - |s|) + s
  }

  /**
   * The `%0<width>d` conversion of Python's %-formatting: the sign, then
   * zeros, then the digits of |n|, at least width characters in all.
   */
  function PercentZeroPad(n: int, width: nat): (r: string)
    ensures |r| >= width
    ensures n >= 0 ==> AllDigits(r)
  {
    var sign := if n < 0 then "-" else "";
    var digits := DecimalString(if n < 0 then -n else n);
    var padding := width - |sign| - |digits|;
    sign + Zeros(if padding > 0 then padding else 0) + digits
  }

  /** `str(n).zfill(width)` and `'%0<width>d' % n` are the same string for every integer n. */
  lemma ZFillAgreesWithPercentFormat(n: int, width: nat)
    ensures ZFill(IntString(n), width) == PercentZeroPad(n, width)
  {
    var s := IntString(n);
    if n < 0 && |s| < width {
      assert s[1..] == DecimalString(-n);
    }
  }

  lemma {:induction false} DecimalRoundTrip(n: nat)
    ensures DecimalValue(DecimalString(n)) == n
  {
    if n >= 10 {
      DecimalRoundTrip(n / 10);
      var s := DecimalString(n);
      assert s[..|s| - 1] == DecimalString(n / 10);
    }
  }

  lemma {:induction false} LeadingZerosIgnored(k: nat, s: string)
    requires AllDigits(s)
    ensures DecimalValue(Zeros(k) + s) == DecimalValue(s)
  {
    if |s| == 0 {
      ZerosValue(k);
      assert Zeros(k) + s == Zeros(k);
    } else {
      LeadingZerosIgnored(k, s[..|s| - 1]);
      assert (Zeros(k) + s)[..|Zeros(k) + s| - 1] == Zeros(k) + s[..|s| - 1];
    }
  }

  lemma {:induction false} ZerosValue(k: nat)
    ensures DecimalValue(Zeros(k)) == 0
  {
    if k > 0 {
      ZerosValue(k - 1);
      assert Zeros(k)[..k - 1] == Zeros(k - 1);
    }
  }

  /** A zero-padded index reads back as the index: padding never merges two views. */
  lemma PaddedIndexRoundTrip(n: nat, width: nat)
    ensures DecimalValue(PercentZeroPad(n, width)) == n
  {
    var digits := DecimalString(n);
    var padding := width - |digits|;
    var zeros := if padding > 0 then padding else 0;
    assert PercentZeroPad(n, width) == "" + Zeros(zeros) + digits;
    assert "" + Zeros(zeros) + digits == Zeros(zeros) + digits;
    LeadingZerosIgnored(zeros, digits);
    DecimalRoundTrip(n);
  }

  /**
   * A file-path pattern `<head>%s<middle>%0<width>d<tail>` as create_view_groups
   * receives it: the face name goes into `%s`, the view group index into the
   * zero-padded integer conversion. head, middle and tail hold no `%`.
   */
  datatype PathPattern = PathPattern(head: string, middle: string, width: nat, tail: string)
  {
    /** The pattern as the Python string that is formatted. */
    function Text(): (text: string)
    {
      head + "%s" + middle + "%0" + DecimalString(width) + "d" + tail
    }

    /**
     * pattern % (face_name, index): the head, the face name, the middle,
     * at least width characters of index, then the tail.
     */
    function Format(faceName: string, index: int): (path: string)
      ensures |path| >= |head| + |faceName| + |middle| + width + |tail|
      ensures path[..|head| + |faceName|] == head + faceName
      ensures path[|path| - |tail|..] == tail
    {
      head + faceName + middle + PercentZeroPad(index, width) + tail
    }
  }

  const DefaultColorPattern := PathPattern("", "_color.", 4, ".exr")
  const DefaultDepthPattern := PathPattern("", "_depth.", 4, ".exr")

  /** The patterns the capture operator passes are '%s_color.%04d.exr' and '%s_depth.%04d.exr'. */
  lemma DefaultPatternTexts()
    ensures DefaultColorPattern.Text() == "%s_color.%04d.exr"
    ensures DefaultDepthPattern.Text() == "%s_depth.%04d.exr"
  {
    assert DecimalString(4) == "4";
  }

  /**
   * The colour image a render is renamed to: directory + face + "_color." +
   * str(view).zfill(4) + ".exr". It lies in the output directory, starts
   * with the face name and has the .exr extension.
   */
  function ColorFileName(outputPath: string, view: int, faceName: string): (name: string)
    ensures |name| >= |outputPath| + |faceName| + 15
    ensures name[..|outputPath| + |faceName|] == outputPath + faceName
    ensures name[|name| - 4..] == ".exr"
  {
    outputPath + faceName + "_color." + ZFill(IntString(view), 4) + ".exr"
  }

  /**
   * The depth image a render is renamed to: directory + face + "_depth." +
   * str(view).zfill(4) + ".exr". It lies in the output directory, starts
   * with the face name and has the .exr extension.
   */
  function DepthFileName(outputPath: string, view: int, faceName: string): (name: string)
    ensures |name| >= |outputPath| + |faceName| + 15
    ensures name[..|outputPath| + |faceName|] == outputPath + faceName
    ensures name[|name| - 4..] == ".exr"
  {
    outputPath + faceName + "_depth." + ZFill(IntString(view), 4) + ".exr"
  }

  /** A pattern `%s<middle>%04d.exr` gives the name face + middle + str(index).zfill(4) + ".exr". */
  lemma ZeroPaddedPatternMatchesRename(outputPath: string, view: int, faceName: string, middle: string)
    ensures outputPath + PathPattern("", middle, 4, ".exr").Format(faceName, view)
         == outputPath + faceName + middle + ZFill(IntString(view), 4) + ".exr"
  {
    var pad := PercentZeroPad(view, 4);
    assert PathPattern("", middle, 4, ".exr").Format(faceName, view) == "" + faceName + middle + pad + ".exr";
    ZFillAgreesWithPercentFormat(view, 4);
    Regroup(outputPath, faceName, middle, pad, ".exr");
  }

  /** Concatenation regrouped, with an empty head dropped. */
  lemma Regroup(s1: string, s2: string, s3: string, s4: string, s5: string)
    ensures s1 + ("" + s2 + s3 + s4 + s5) == s1 + s2 + s3 + s4 + s5
  {
    assert "" + s2 == s2;
  }

  /**
   * The manifest paths from the default patterns are the rename targets
   * with the output directory removed, for every face name and index.
   */
  lemma DefaultPatternsMatchRenames(outputPath: string, view: int, faceName: string)
    ensures outputPath + DefaultColorPattern.Format(faceName, view) == ColorFileName(outputPath, view, faceName)
    ensures outputPath + DefaultDepthPattern.Format(faceName, view) == DepthFileName(outputPath, view, faceName)
  {
    ZeroPaddedPatternMatchesRename(outputPath, view, faceName, "_color.");
    ZeroPaddedPatternMatchesRename(outputPath, view, faceName, "_depth.");
  }

  /**
   * No face name is a prefix of another: two different faces' names differ
   * at a position both names have.
   */
  lemma FaceNamesPrefixFree(face1: Face, face2: Face)
    requires face1 != face2
    ensures exists i :: 0 <= i < |face1.Name()| && i < |face2.Name()| && face1.Name()[i] != face2.Name()[i]
  {
    var n1, n2 := face1.Name(), face2.Name();
    if n1[0] == n2[0] {
      // Only "back" and "bottom" share their first letter.
      assert n1[1] != n2[1];
    } else {
      assert n1[0] != n2[0];
    }
  }

  /** Whatever follows them, two different face names give different strings. */
  lemma DifferentFacesDifferentStarts(face1: Face, face2: Face, rest1: string, rest2: string)
    requires face1 != face2
    ensures face1.Name() + rest1 != face2.Name() + rest2
  {
    var name1, name2 := face1.Name(), face2.Name();
    FaceNamesPrefixFree(face1, face2);
    var i :| 0 <= i < |name1| && i < |name2| && name1[i] != name2[i];
    assert (name1 + rest1)[i] == name1[i];
    assert (name2 + rest2)[i] == name2[i];
  }

  /** Equal strings with equal prefixes have equal remainders. */
  lemma CancelPrefix(prefix: string, x: string, y: string)
    requires prefix + x == prefix + y
    ensures x == y
  {
    assert x == (prefix + x)[|prefix|..];
    assert y == (prefix + y)[|prefix|..];
  }

  /** Equal strings with equal suffixes have equal beginnings. */
  lemma CancelSuffix(x: string, y: string, suffix: string)
    requires x + suffix == y + suffix
    ensures x == y
  {
    assert |x| == |y|;
    assert x == (x + suffix)[..|x|];
    assert y == (y + suffix)[..|y|];
  }

  /** The formatted path as the head followed by the face name and the rest. */
  lemma FormatParts(p: PathPattern, faceName: string, index: int)
    ensures p.Format(faceName, index)
         == p.head + (faceName + (p.middle + (PercentZeroPad(index, p.width) + p.tail)))
  {
  }

  /**
   * Distinct (face, view group index) pairs get distinct paths under any
   * pattern: no render overwrites another.
   */
  lemma DistinctViewsGetDistinctPaths(p: PathPattern, face1: Face, index1: nat, face2: Face, index2: nat)
    requires p.Format(face1.Name(), index1) == p.Format(face2.Name(), index2)
    ensures face1 == face2 && index1 == index2
  {
    var name1, name2 := face1.Name(), face2.Name();
    var pad1, pad2 := PercentZeroPad(index1, p.width), PercentZeroPad(index2, p.width);
    var rest1, rest2 := p.middle + (pad1 + p.tail), p.middle + (pad2 + p.tail);
    FormatParts(p, name1, index1);
    FormatParts(p, name2, index2);
    CancelPrefix(p.head, name1 + rest1, name2 + rest2);
    if face1 != face2 {
      DifferentFacesDifferentStarts(face1, face2, rest1, rest2);
      assert false;
    }
    CancelPrefix(name1, rest1, rest2);
    CancelPrefix(p.middle, pad1 + p.tail, pad2 + p.tail);
    CancelSuffix(pad1, pad2, p.tail);
    PaddedIndexRoundTrip(index1, p.width);
    PaddedIndexRoundTrip(index2, p.width);
  }
}
