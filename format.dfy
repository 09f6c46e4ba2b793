/** The tier choice of `format_number`: a table of magnitude names, one per
    power of ten 10^3, 10^6, ..., 10^186, is scanned from the top and the first
    threshold not above the number names its tier; a number below 1000 is
    shown as it is. Only the choice of tier is modelled, not the rendering of
    num / threshold with two decimals. */
module Format {
  import opened Numbers
  import opened Wrappers

  /** The magnitude names in table order; entry i belongs to the threshold
      10^(3 * (i + 1)). "sexdecillion" appears twice, for 10^51 and again for
      10^183, as the table has it. The list is written in two halves, 10^3 to
      10^93 and 10^96 to 10^186, which keeps each literal small enough for the
      verifier to index. */
  const Suffixes: seq<string> := LowerSuffixes + UpperSuffixes

  const LowerSuffixes: seq<string> := [
    "thousand", "million", "billion", "trillion", "quadrillion",
    "quintillion", "sextillion", "septillion", "octillion", "nonillion",
    "decillion", "undecillion", "duodecillion", "tredecillion",
    "quattuordecillion", "quindecillion", "sexdecillion", "septendecillion",
    "octodecillion", "novemdecillion", "vigintillion", "unvigintillion",
    "duovigintillion", "trevigintillion", "quattuorvigintillion",
    "quinvigintillion", "sexvigintillion", "septenvigintillion",
    "octovigintillion", "novemvigintillion", "trigintillion"]

  const UpperSuffixes: seq<string> := [
    "untrigintillion", "duotrigintillion", "tretrigintillion",
    "quattuortrigintillion", "quintrigintillion", "sextrigintillion",
    "septentrigintillion", "octotrigintillion", "novemtrigintillion",
    "quadragintillion", "unquadragintillion", "duoquadragintillion",
    "trequadragintillion", "quattuorquadragintillion", "quinquadragintillion",
    "sexquadragintillion", "septenquadragintillion", "octoquadragintillion",
    "novemquadragintillion", "quinquagintillion", "unquinquagintillion",
    "duoquinquagintillion", "trequinquagintillion",
    "quattuorquinquagintillion", "quinquinquagintillion",
    "sexquinquagintillion", "septenquinquagintillion",
    "octoquinquagintillion", "novemquinquagintillion", "sexdecillion",
    "Beyond"]

  /** The threshold of table entry i. */
  function Threshold(i: nat): nat
  {
    Pow10(3 * (i + 1))
  }

  /** The tier a number is shown in: as it is, or as a multiple of one
      table entry. */
  datatype Formatted = Plain(value: int) | Scaled(tier: nat, threshold: nat, suffix: string)

  /** The table's thresholds strictly increase, starting at 1000. */
  lemma ThresholdsIncrease(i: nat, j: nat)
    requires i < j
    ensures 1000 <= Threshold(i) < Threshold(j)
  {
    Pow10Increasing(3 * (i + 1), 3 * (j + 1));
    if i > 0 {
      Pow10Increasing(3, 3 * (i + 1));
    }
    assert Threshold(0) == 1000;
  }

  lemma ThresholdAtLeastThousand(i: nat)
    ensures Threshold(i) >= 1000
  {
    ThresholdsIncrease(i, i + 1);
  }

  /** Scanning the first k entries from the top: the first (highest) entry
      whose threshold is not above num, if any. */
  function ScanDown(num: int, k: nat): (r: Option<nat>)
    requires k <= |Suffixes|
    ensures r.Some? ==> r.value < k && Threshold(r.value) <= num
    ensures r.Some? ==> forall j :: r.value < j < k ==> num < Threshold(j)
    ensures r.None? ==> forall j :: 0 <= j < k ==> num < Threshold(j)
  {
    if k == 0 then None
    else if num >= Threshold(k - 1) then Some(k - 1)
    else ScanDown(num, k - 1)
  }

  /** The tier `format_number` renders num in: the plain number exactly when
      num is below 1000, and otherwise the largest table threshold not above
      num together with that entry's name. */
  function FormatTier(num: int): (r: Formatted)
    ensures r.Plain? <==> num < 1000
    ensures r.Plain? ==> r.value == num
    ensures r.Scaled? ==>
      && r.tier < |Suffixes|
      && r.threshold == Threshold(r.tier) <= num
      && r.suffix == Suffixes[r.tier]
      && (forall j :: 0 <= j < |Suffixes| && Threshold(j) <= num ==> j <= r.tier)
  {
    match ScanDown(num, |Suffixes|)
    case None =>
      assert num < Threshold(0) == 1000;
      Plain(num)
    case Some(i) =>
      ThresholdAtLeastThousand(i);
      Scaled(i, Threshold(i), Suffixes[i])
  }

  /** The same choice as `format_number` makes it: a loop over the table in
      reverse that returns at the first threshold not above num. */
  method FormatNumber(num: int) returns (r: Formatted)
    ensures r == FormatTier(num)
  {
    var k := |Suffixes|;
    while k > 0
      invariant 0 <= k <= |Suffixes|
      invariant ScanDown(num, k) == ScanDown(num, |Suffixes|)
    {
      if num >= Threshold(k - 1) {
        return Scaled(k - 1, Threshold(k - 1), Suffixes[k - 1]);
      }
      k := k - 1;
    }
    return Plain(num);
  }

  /** Numbers from 10^186 up are all shown in the last tier, "Beyond". */
  lemma BeyondTopThreshold(num: int)
    requires num >= Pow10(186)
    ensures FormatTier(num).Scaled? && FormatTier(num).suffix == "Beyond"
  {
  }

  /** Below the first threshold the number is shown as it is. */
  lemma FormatBelowThousand()
    ensures FormatTier(999) == Plain(999)
  {
  }

  /** 1500 is shown in thousands. */
  lemma FormatThousands()
    ensures FormatTier(1500) == Scaled(0, 1000, "thousand")
  {
    var t := FormatTier(1500);
    assert Threshold(0) == 1000;
    if t.tier > 0 {
      assert Threshold(1) == 1000000;
      if t.tier > 1 {
        ThresholdsIncrease(1, t.tier);
      }
    }
  }

  /** 2500000 is shown in millions. */
  lemma FormatMillions()
    ensures FormatTier(2500000) == Scaled(1, 1000000, "million")
  {
    var m := FormatTier(2500000);
    assert Threshold(1) == 1000000;
    if m.tier > 1 {
      assert Threshold(2) == 1000000000;
      if m.tier > 2 {
        ThresholdsIncrease(2, m.tier);
      }
    }
  }

  /** Each threshold is shown in its own tier, with its own name; so 10^183
      is shown as "sexdecillion", the name 10^51 is shown with too. */
  lemma {:induction false} ThresholdInOwnTier(i: nat)
    requires i < |Suffixes|
    ensures FormatTier(Threshold(i)) == Scaled(i, Threshold(i), Suffixes[i])
    ensures i == 16 || i == 60 ==> FormatTier(Threshold(i)).suffix == "sexdecillion"
  {
    var t := FormatTier(Threshold(i));
    ThresholdAtLeastThousand(i);
    if t.tier > i {
      ThresholdsIncrease(i, t.tier);
    }
  }
}
