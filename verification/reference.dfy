/** The ticket reference the purchase route synthesises:
    `TIX` followed by `Math.floor(10000 + Math.random() * 90000)` in
    decimal. The random draw is the integer `k = floor(random * 90000)`,
    so the printed number is `10000 + k`. */
module Reference {
  import Decimal

  const Prefix: string := "TIX"

  /** Number of distinct draws. */
  const Draws: nat := 90000

  /** Smallest printed number. */
  const Lowest: nat := 10000

  /** A legal draw of the random source. */
  predicate IsDraw(k: int) {
    0 <= k < Draws
  }

  /** The shape of every reference the purchase route produces: the prefix,
      then five decimal digits with no leading zero. */
  predicate WellFormed(r: string) {
    && |r| == 8
    && r[..3] == Prefix
    && Decimal.AllDigits(r[3..])
    && r[3] != '0'
  }

  /** The reference for draw `k`. */
  function Generate(k: int): (r: string)
    requires IsDraw(k)
    ensures WellFormed(r)
  {
    var n := Lowest + k;
    assert Decimal.Pow10(4) == 10000 && Decimal.Pow10(5) == 100000;
    Decimal.ShowLength(n, 5);
    var r := Prefix + Decimal.Show(n);
    assert r[3..] == Decimal.Show(n);
    r
  }

  /** The draw a well-formed reference came from. */
  function DrawOf(r: string): int
    requires WellFormed(r)
  {
    Decimal.Value(r[3..]) - Lowest
  }

  /** Reading the draw back out of a generated reference. */
  lemma DrawOfGenerate(k: int)
    requires IsDraw(k)
    ensures DrawOf(Generate(k)) == k
  {
    var n := Lowest + k;
    assert Generate(k)[3..] == Decimal.Show(n);
    Decimal.ValueShow(n);
  }

  /** Every well-formed reference is generated by exactly one draw, so the
      generator's range is exactly the well-formed references. */
  lemma GenerateDrawOf(r: string)
    requires WellFormed(r)
    ensures IsDraw(DrawOf(r))
    ensures Generate(DrawOf(r)) == r
  {
    var digits := r[3..];
    Decimal.ShowValue(digits);
    var n := Decimal.Value(digits);
    Decimal.ValuePositive(digits);
    Decimal.ShowBounds(n);
    assert Decimal.Pow10(4) == 10000 && Decimal.Pow10(5) == 100000;
    assert r == Prefix + digits;
  }

  /** Two purchases get the same reference exactly when their draws agree;
      nothing else keeps references apart. */
  lemma SameReferenceIffSameDraw(k1: int, k2: int)
    requires IsDraw(k1) && IsDraw(k2)
    ensures Generate(k1) == Generate(k2) <==> k1 == k2
  {
    DrawOfGenerate(k1);
    DrawOfGenerate(k2);
  }

  /** The seeded ticket's reference is not of the generated shape. */
  lemma SeedReferenceNotGenerated()
    ensures !WellFormed("NEO-1234567890")
    ensures forall k :: IsDraw(k) ==> Generate(k) != "NEO-1234567890"
  {
  }
}
