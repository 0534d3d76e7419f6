/** Output file names: fixed names for the structure set, plan and dose, and
    `<modality>.<n>.dcm` for the n-th image of a series. */
module FileNames {

  const RtssName := "rtss.dcm"
  const RtplanName := "rtplan.dcm"
  const RtdoseName := "rtdose.dcm"
  const ImageStorage := " Image Storage"

  /** ASCII lower-casing of one character. */
  function LowerChar(c: char): char {
    if 'A' <= c <= 'Z' then (c as int - 'A' as int + 'a' as int) as char else c
  }

  function Lower(s: string): (r: string)
    ensures |r| == |s|
  {
    seq(|s|, i requires 0 <= i < |s| => LowerChar(s[i]))
  }

  /** `sep` occurs in `s` starting at position `i`. */
  predicate OccursAt(s: string, sep: string, i: nat) {
    i + |sep| <= |s| && s[i..i + |sep|] == sep
  }

  /** The first component of `s.partition(sep)`: the text before the first
      occurrence of `sep`, or all of `s` when `sep` does not occur. */
  function PartitionHead(s: string, sep: string): (r: string)
    requires |sep| > 0
    ensures r <= s
    ensures forall i: nat :: i < |r| ==> !OccursAt(s, sep, i)
    ensures r == s || OccursAt(s, sep, |r|)
    decreases |s|
  {
    if |s| < |sep| then s
    else if s[..|sep|] == sep then []
    else
      var rest := PartitionHead(s[1..], sep);
      assert forall i: nat :: OccursAt(s, sep, i + 1) <==> OccursAt(s[1..], sep, i) by {
        forall i: nat ensures OccursAt(s, sep, i + 1) <==> OccursAt(s[1..], sep, i) {
          if i + 1 + |sep| <= |s| {
            assert s[i + 1..i + 1 + |sep|] == s[1..][i..i + |sep|];
          }
        }
      }
      var r := [s[0]] + rest;
      assert !OccursAt(s, sep, 0);
      assert forall i: nat :: 0 < i < |r| ==> !OccursAt(s, sep, i) by {
        forall i: nat | 0 < i < |r| ensures !OccursAt(s, sep, i) {
          assert !OccursAt(s[1..], sep, i - 1);
        }
      }
      r
  }

  /** The modality part of a storage class name: the text before " Image Storage". */
  function Modality(className: string): (m: string)
    ensures m <= className
  {
    PartitionHead(className, ImageStorage)
  }

  function Digit(d: nat): (c: char)
    requires d < 10
  {
    "0123456789"[d]
  }

  /** Decimal representation of a natural number, as `str(n)`. */
  function NatToString(n: nat): (r: string)
    ensures |r| > 0
    ensures forall i :: 0 <= i < |r| ==> '0' <= r[i] <= '9'
    decreases n
  {
    if n < 10 then [Digit(n)] else NatToString(n / 10) + [Digit(n % 10)]
  }

  lemma DigitInjective(a: nat, b: nat)
    requires a < 10 && b < 10 && Digit(a) == Digit(b)
    ensures a == b
  {
  }

  /** Distinct numbers have distinct decimal representations. */
  lemma {:induction false} NatToStringInjective(n: nat, m: nat)
    requires NatToString(n) == NatToString(m)
    ensures n == m
    decreases n
  {
    var s := NatToString(n);
    if n < 10 && m < 10 {
      DigitInjective(n, m);
    } else if n >= 10 && m >= 10 {
      var p, q := NatToString(n / 10), NatToString(m / 10);
      assert s == p + [Digit(n % 10)] == q + [Digit(m % 10)];
      assert |p| == |q|;
      assert p == s[..|p|] == q;
      assert s[|p|] == Digit(n % 10) == Digit(m % 10);
      DigitInjective(n % 10, m % 10);
      NatToStringInjective(n / 10, m / 10);
    }
  }

  /** The file name of the n-th image of a series whose storage class is
      called `className`. */
  function ImageFileName(className: string, n: nat): (name: string)
    ensures |name| > 4 && name[|name| - 4..] == ".dcm"
  {
    Lower(Modality(className)) + "." + NatToString(n) + ".dcm"
  }

  /** An image name is never a dot-free stem followed by ".dcm": the part of
      it before ".dcm" holds the dot that separates modality and index. */
  lemma ImageFileNameNotStem(className: string, n: nat, stem: string)
    requires forall i :: 0 <= i < |stem| ==> stem[i] != '.'
    ensures ImageFileName(className, n) != stem + ".dcm"
  {
    var p := Lower(Modality(className));
    var q := p + "." + NatToString(n);
    assert (q + ".dcm")[|p|] == '.';
  }

  /** No image is ever written under the structure-set, plan or dose name. */
  lemma ImageFileNameNotFixed(className: string, n: nat)
    ensures ImageFileName(className, n) != RtssName
    ensures ImageFileName(className, n) != RtplanName
    ensures ImageFileName(className, n) != RtdoseName
  {
    assert RtssName == "rtss" + ".dcm";
    assert RtplanName == "rtplan" + ".dcm";
    assert RtdoseName == "rtdose" + ".dcm";
    ImageFileNameNotStem(className, n, "rtss");
    ImageFileNameNotStem(className, n, "rtplan");
    ImageFileNameNotStem(className, n, "rtdose");
  }

  /** The part after the last dot is determined: `p + "." + d` splits
      uniquely when `d` has no dot. */
  lemma SplitAtLastDot(p1: string, d1: string, p2: string, d2: string)
    requires p1 + "." + d1 == p2 + "." + d2
    requires forall i :: 0 <= i < |d1| ==> d1[i] != '.'
    requires forall i :: 0 <= i < |d2| ==> d2[i] != '.'
    ensures p1 == p2 && d1 == d2
  {
    var x := p1 + "." + d1;
    assert x[|p1|] == '.';
    assert x == p2 + "." + d2;
    assert x[|p2|] == '.';
    if |d1| == |d2| {
      assert p1 == x[..|p1|] == p2;
      assert d1 == x[|p1| + 1..] == d2;
    }
  }

  /** Two images of one series get the same file name only when they have the
      same index: an image name identifies its index and its modality. */
  lemma ImageFileNameInjective(a: string, n: nat, b: string, m: nat)
    requires ImageFileName(a, n) == ImageFileName(b, m)
    ensures n == m
    ensures Lower(Modality(a)) == Lower(Modality(b))
  {
    var pa, da := Lower(Modality(a)), NatToString(n);
    var pb, db := Lower(Modality(b)), NatToString(m);
    var xa, xb := pa + "." + da, pb + "." + db;
    assert xa + ".dcm" == xb + ".dcm";
    assert |xa| == |xb|;
    assert xa == (xa + ".dcm")[..|xa|] == xb;
    SplitAtLastDot(pa, da, pb, db);
    NatToStringInjective(n, m);
  }

  /** The modality of a CT image is "ct". */
  lemma CtModality()
    ensures Lower(Modality("CT Image Storage")) == "ct"
  {
    var c := "CT Image Storage";
    assert c[..|ImageStorage|][0] != ImageStorage[0];
    assert c[1..][..|ImageStorage|][0] != ImageStorage[0];
    assert c[1..][1..] == ImageStorage;
    assert Modality(c) == "CT";
    assert Lower("CT") == "ct";
  }

  /** The first two CT images of a series are written to ct.0.dcm and ct.1.dcm. */
  lemma CtExample()
    ensures ImageFileName("CT Image Storage", 0) == "ct.0.dcm"
    ensures ImageFileName("CT Image Storage", 1) == "ct.1.dcm"
  {
    CtModality();
    assert NatToString(0) == "0" && NatToString(1) == "1";
  }
}
