/** The powers of ten that bound amounts, in numbers. */
module Powers {
  import opened Decimals

  lemma PowersOfTen()
    ensures Pow10(7) == 10_000_000
    ensures Pow10(13) == 10_000_000_000_000
    ensures Pow10(20) == 100_000_000_000_000_000_000
    ensures Pow10(28) == 10_000_000_000_000_000_000_000_000_000
  {
    assert Pow10(6) == 1_000_000 && Pow10(7) == 10_000_000 && Pow10(8) == 100_000_000;
    Pow10Sum(7, 6);
    Pow10Sum(13, 7);
    Pow10Sum(20, 8);
  }
}
