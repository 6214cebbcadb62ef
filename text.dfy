/** Text conventions of the service: Python's int() and str() on quantity
    cells, the quote stripping of datum hashes, and the 56-character
    policy-id/asset-name split of asset units. */
module Text {
  import opened Outcomes

  /** Length of a policy id in hex characters. */
  const PolicyIdLength := 56

  predicate IsDigit(c: char) { '0' <= c <= '9' }

  function DigitValue(c: char): (d: nat)
    requires IsDigit(c)
    ensures d < 10
  {
    (c as int) - ('0' as int)
  }

  function DigitChar(d: nat): (c: char)
    requires d < 10
    ensures IsDigit(c) && DigitValue(c) == d
  {
    (('0' as int) + d) as char
  }

  /** A non-empty run of decimal digits, read as a natural number. */
  function ParseDigits(s: string): Option<nat>
  {
    if |s| == 0 || !IsDigit(s[|s| - 1]) then None
    else if |s| == 1 then Some(DigitValue(s[0]))
    else match ParseDigits(s[..|s| - 1])
      case None => None
      case Some(v) => Some(10 * v + DigitValue(s[|s| - 1]))
  }

  /** Python's int() on a cell of the node's listing: an optional sign,
      then ASCII decimal digits. */
  function ParseInt(s: string): Option<int>
  {
    var signed := |s| > 0 && (s[0] == '-' || s[0] == '+');
    var digits := if signed then s[1..] else s;
    match ParseDigits(digits)
    case None => None
    case Some(v) => Some(if signed && s[0] == '-' then -(v as int) else v as int)
  }

  /** Python's str() on a natural number: decimal digits, no leading zero. */
  function ShowNat(n: nat): (s: string)
    ensures |s| >= 1
    ensures forall i :: 0 <= i < |s| ==> IsDigit(s[i])
  {
    if n < 10 then [DigitChar(n)] else ShowNat(n / 10) + [DigitChar(n % 10)]
  }

  /** Python's str() on an integer. */
  function ShowInt(n: int): string
  {
    if n < 0 then "-" + ShowNat(-n) else ShowNat(n)
  }

  lemma {:induction false} ParseShowNat(n: nat)
    ensures ParseDigits(ShowNat(n)) == Some(n)
  {
    if n >= 10 {
      var s := ShowNat(n);
      assert s[..|s| - 1] == ShowNat(n / 10);
      ParseShowNat(n / 10);
    }
  }

  /** Reading back what str() printed gives the number again. */
  lemma ParseShowInt(n: int)
    ensures ParseInt(ShowInt(n)) == Some(n)
  {
    var s := ShowInt(n);
    if n < 0 {
      ParseShowNat(-n);
      assert s[0] == '-' && s[1..] == ShowNat(-n);
    } else {
      ParseShowNat(n);
      assert IsDigit(s[0]);
    }
  }

  /** A cell that equals str(q) as text holds the number q. */
  lemma TextEqualImpliesNumericEqual(cell: string, q: int)
    requires cell == ShowInt(q)
    ensures ParseInt(cell) == Some(q)
  {
    ParseShowInt(q);
  }

  /** The converse fails: "05" is the number 5 but is not str(5), so a
      text comparison differs from a numeric one on a cell with leading
      zeros, which the node does not write. */
  lemma NumericEqualDoesNotImplyTextEqual()
    ensures ParseInt("05") == Some(5) && ShowInt(5) != "05"
  {
    assert "05"[..1] == "0";
    assert ShowInt(5) == "5";
  }

  /** Python's s.lstrip('"'). */
  function TrimLeadingQuotes(s: string): (r: string)
    ensures |r| <= |s| && r == s[|s| - |r|..]
    ensures |r| > 0 ==> r[0] != '"'
    ensures forall i :: 0 <= i < |s| - |r| ==> s[i] == '"'
  {
    if |s| > 0 && s[0] == '"' then TrimLeadingQuotes(s[1..]) else s
  }

  /** Python's s.rstrip('"'). */
  function TrimTrailingQuotes(s: string): (r: string)
    ensures |r| <= |s| && r == s[..|r|]
    ensures |r| > 0 ==> r[|r| - 1] != '"'
    ensures forall i :: |r| <= i < |s| ==> s[i] == '"'
  {
    if |s| > 0 && s[|s| - 1] == '"' then TrimTrailingQuotes(s[..|s| - 1]) else s
  }

  /** Python's s.strip('"'): cut every double quote off both ends. */
  function StripQuotes(s: string): (r: string)
    ensures |r| <= |s|
    ensures |r| > 0 ==> r[0] != '"' && r[|r| - 1] != '"'
    ensures (|s| == 0 || (s[0] != '"' && s[|s| - 1] != '"')) ==> r == s
  {
    TrimTrailingQuotes(TrimLeadingQuotes(s))
  }

  /** The request form of an asset unit is policy id and asset name run
      together; the query form puts a '.' after the 56-character policy id
      (utils.py:688-696, rest-api.py:1273-1277). */
  function SplitUnit(u: string): (r: string)
  {
    if |u| > PolicyIdLength then u[..PolicyIdLength] + "." + u[PolicyIdLength..] else u
  }

  /** The inverse rewrite applied to response units: drop character 56 of a
      unit longer than 56 characters (rest-api.py:1289-1293). */
  function JoinUnit(u: string): (r: string)
  {
    if |u| > PolicyIdLength then u[..PolicyIdLength] + u[PolicyIdLength + 1..] else u
  }

  /** Splitting a request unit and joining it again restores it, for every unit. */
  lemma JoinSplitUnit(u: string)
    ensures JoinUnit(SplitUnit(u)) == u
    ensures |u| > PolicyIdLength ==> |SplitUnit(u)| == |u| + 1 && SplitUnit(u)[PolicyIdLength] == '.'
    ensures |u| <= PolicyIdLength ==> SplitUnit(u) == u
  {
    if |u| > PolicyIdLength {
      var s := SplitUnit(u);
      assert s[..PolicyIdLength] == u[..PolicyIdLength];
      assert s[PolicyIdLength + 1..] == u[PolicyIdLength..];
      assert u[..PolicyIdLength] + u[PolicyIdLength..] == u;
    }
  }

  /** Joining a query unit whose character 56 is the '.' separator, and
      splitting again, restores it when the asset name is not empty. */
  lemma SplitJoinUnit(u: string)
    requires |u| > PolicyIdLength + 1 && u[PolicyIdLength] == '.'
    ensures SplitUnit(JoinUnit(u)) == u
  {
    var j := JoinUnit(u);
    assert j[..PolicyIdLength] == u[..PolicyIdLength];
    assert j[PolicyIdLength..] == u[PolicyIdLength + 1..];
    assert u == u[..PolicyIdLength] + [u[PolicyIdLength]] + u[PolicyIdLength + 1..];
  }
}
