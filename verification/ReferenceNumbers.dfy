/**
 Alert reference numbers: the text AlertRepository gives an alert from the value it
 draws from `alert_ref_seq`, and the text the migration gave to older alerts.
 */
module ReferenceNumbers {
  import opened Wrappers
  import opened Decimal

  const PREFIX: string := "FRD-"
  const WIDTH: nat := 5
  const COLUMN_SIZE: nat := 20

  /** `f"FRD-{n:05d}"`. */
  function Format(n: nat): string {
    var digits := Print(n);
    PREFIX + Zeros(if |digits| < WIDTH then WIDTH - |digits| else 0) + digits
  }

  /** PostgreSQL's `LPAD(text, width, '0')`, which also cuts a longer text down to `width`. */
  function Lpad(text: string, width: nat): string {
    if |text| >= width then text[..width] else Zeros(width - |text|) + text
  }

  /** `'FRD-' || LPAD(n::text, 5, '0')`, the migration's backfill. */
  function Backfill(n: nat): string {
    PREFIX + Lpad(Print(n), WIDTH)
  }

  function Parse(reference: string): Option<nat> {
    if PREFIX <= reference && |reference| > |PREFIX| && AllDigits(reference[|PREFIX|..])
    then Some(Value(reference[|PREFIX|..]))
    else None
  }

  /** Reading a reference number back gives the sequence value it was made from. */
  lemma ParseFormat(n: nat)
    ensures Parse(Format(n)) == Some(n)
  {
    var digits := Print(n);
    var pad := if |digits| < WIDTH then WIDTH - |digits| else 0;
    assert Format(n)[|PREFIX|..] == Zeros(pad) + digits;
    LeadingZeros(pad, digits);
    ValueOfPrint(n);
  }

  /** A reference number is "FRD-" and at least five digits. */
  lemma FormatShape(n: nat)
    ensures Format(n)[..4] == "FRD-" && |Format(n)| >= 9 && AllDigits(Format(n)[4..])
  {
    var digits := Print(n);
    assert Format(n)[4..] == Zeros(if |digits| < WIDTH then WIDTH - |digits| else 0) + digits;
  }

  /** Different sequence values never share a reference number. */
  lemma FormatInjective(m: nat, n: nat)
    ensures Format(m) == Format(n) <==> m == n
  {
    ParseFormat(m);
    ParseFormat(n);
  }

  lemma TenToThe16()
    ensures Pow10(16) == 10_000_000_000_000_000
    ensures Pow10(5) == 100_000
  {
    assert Pow10(5) == 100_000;
    assert Pow10(10) == 100_000 * 100_000;
    assert Pow10(15) == 100_000 * 100_000 * 100_000;
  }

  /** The reference fits its String(20) column exactly while the sequence is below 10 to the 16. */
  lemma FitsColumn(n: nat)
    ensures |Format(n)| <= COLUMN_SIZE <==> n < 10_000_000_000_000_000
  {
    TenToThe16();
    PrintLength(n, 16);
  }

  /**
   The migration's form agrees with the service's form exactly up to 99999: beyond
   that LPAD cuts digits off, and the backfilled text no longer determines the number.
   */
  lemma BackfillAgrees(n: nat)
    ensures Backfill(n) == Format(n) <==> n <= 99_999
    ensures n > 99_999 ==> exists m: nat :: m != n && Backfill(m) == Backfill(n)
  {
    TenToThe16();
    PrintLength(n, WIDTH);
    if n > 99_999 {
      assert |Backfill(n)| < |Format(n)|;
      var longer := 10 * n;
      assert Print(longer) == Print(n) + [DigitChar(0)];
      assert Backfill(longer) == Backfill(n);
    }
  }
}
