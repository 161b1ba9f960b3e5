/**
 * The Bangladeshi mobile-number formatting shared by the signup and login pages:
 * a local number starting with `0` gets the country code `+88`, a number already
 * starting with `+88` is kept, and anything else is taken to be missing its `+880`.
 */
module Phone {

  const CountryPrefix := "+88"

  /** The number as sent to the one-time-password endpoint. */
  function Normalize(p: string): (r: string)
    ensures CountryPrefix <= r
    ensures |p| <= |r| && r[|r| - |p|..] == p
  {
    if "0" <= p then CountryPrefix + p
    else if CountryPrefix <= p then p
    else "+880" + p
  }

  /** The three cases, each stated by what it adds in front of the number. */
  lemma NormalizeCases(p: string)
    ensures "0" <= p ==> Normalize(p) == "+88" + p
    ensures !("0" <= p) && "+88" <= p ==> Normalize(p) == p
    ensures !("0" <= p) && !("+88" <= p) ==> Normalize(p) == "+880" + p
  {
  }

  /** A formatted number is left as it is, so formatting twice is formatting once. */
  lemma NormalizeIdempotent(p: string)
    ensures Normalize(Normalize(p)) == Normalize(p)
  {
    var r := Normalize(p);
    assert r[0] == '+';
  }

  /** The leading zero of a local number is optional: with or without it, the same number results. */
  lemma LeadingZeroOptional(rest: string)
    requires !("0" <= rest) && !("+88" <= rest)
    ensures Normalize("0" + rest) == Normalize(rest) == "+880" + rest
  {
    assert "0" <= "0" + rest;
    assert "+88" + ("0" + rest) == "+880" + rest;
  }

  /** An eleven-digit local number `01XXXXXXXXX` becomes the fourteen-character `+8801XXXXXXXXX`. */
  lemma LocalNumberLength(p: string)
    requires |p| == 11 && "01" <= p
    ensures |Normalize(p)| == 14 && Normalize(p) == "+88" + p
  {
    assert "0" <= p;
  }
}
