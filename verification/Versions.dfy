/** Contract versions: three plain numbers, each written in one way only. */
module Versions {
  import opened Core
  import opened Texts
  import opened Values
  import opened Printer
  import opened Parser
  import opened RoundTrip
  import opened Shrink

  const DOT: Unit := 0x2E
  const MAX_PART: nat := 2147483647

  datatype Version = Version(major: nat, minor: nat, patch: nat)

  /** (0|[1-9]\d*) at the front of a text. */
  function Part(t: Text): Option<(int, Text)> {
    if t != [] && IsDigit(t[0]) then ParseNumber(t) else None
  }

  /** `version`. */
  function ParseVersion(t: Text): Option<Version> {
    match Part(t)
    case None => None
    case Some((a, u)) =>
      if !StartsWith(u, DOT) then None
      else match Part(u[1..])
        case None => None
        case Some((b, v)) =>
          if !StartsWith(v, DOT) then None
          else match Part(v[1..])
            case None => None
            case Some((c, w)) =>
              if w == [] && 0 <= a <= MAX_PART && 0 <= b <= MAX_PART && 0 <= c <= MAX_PART then Some(Version(a, b, c)) else None
  }

  function VersionText(v: Version): Text {
    Digits(v.major) + ([DOT] + (Digits(v.minor) + ([DOT] + Digits(v.patch))))
  }

  lemma PartIsDigits(t: Text)
    requires Part(t).Some?
    ensures
      var (n, rest) := Part(t).value;
      n >= 0 && t == Digits(n) + rest
  {
    var k := if t[0] == ZERO then 1 else DigitRun(t);
    var digits := t[..k];
    assert digits[0] == t[0];
    DigitsUndo(digits);
    assert t == t[..k] + t[k..];
  }

  lemma DigitsArePart(n: nat, rest: Text)
    requires rest == [] || rest[0] == DOT
    ensures Part(Digits(n) + rest) == Some((n as int, rest))
  {
    ParseDecimal(n, rest);
    DigitsAscii(n);
    assert (Digits(n) + rest)[0] == Digits(n)[0];
  }

  /** A text is a version exactly when it is the one text of three numbers in range: so
      no two texts name the same version. */
  lemma OneTextPerVersion(t: Text, v: Version)
    ensures ParseVersion(t) == Some(v)
      <==> t == VersionText(v) && v.major <= 2147483647 && v.minor <= 2147483647 && v.patch <= 2147483647
  {
    hide Part, Digits;
    if ParseVersion(t).Some? {
      PartIsDigits(t);
      var u := Part(t).value.1;
      PartIsDigits(u[1..]);
      var w := Part(u[1..]).value.1;
      PartIsDigits(w[1..]);
      assert u == [DOT] + u[1..] && w == [DOT] + w[1..];
      assert Digits(Part(w[1..]).value.0) + [] == Digits(Part(w[1..]).value.0);
      assert t == VersionText(ParseVersion(t).value);
    }
    if t == VersionText(v) {
      var w := [DOT] + Digits(v.patch);
      var u := [DOT] + (Digits(v.minor) + w);
      DigitsArePart(v.major, u);
      DigitsArePart(v.minor, w);
      DigitsArePart(v.patch, []);
      assert u[1..] == Digits(v.minor) + w && w[1..] == Digits(v.patch) + [];
    }
  }

  /** Newer versions first. */
  predicate Newer(a: Version, b: Version) {
    a.major > b.major || (a.major == b.major && (a.minor > b.minor || (a.minor == b.minor && a.patch > b.patch)))
  }
}
