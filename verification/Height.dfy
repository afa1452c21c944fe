/** Block heights of a revisioned chain (solo-machine-core/src/ibc/core/ics02_client/height.rs). */
module Height {
  import opened Wrappers
  import opened Text

  datatype Ordering = Less | Equal | Greater

  datatype HeightError = WrongFormat | InvalidRevisionNumber | InvalidRevisionHeight

  datatype Height = Height(revisionNumber: nat, revisionHeight: nat) {

    /** Both parts fit the 64-bit fields of the source. */
    predicate Valid() {
      revisionNumber <= U64_MAX && revisionHeight <= U64_MAX
    }

    function CheckedAdd(rhs: nat): Option<Height> {
      if revisionHeight + rhs <= U64_MAX then Some(Height(revisionNumber, revisionHeight + rhs)) else None
    }

    function CheckedSub(rhs: nat): Option<Height> {
      if rhs <= revisionHeight then Some(Height(revisionNumber, revisionHeight - rhs)) else None
    }

    function Cmp(other: Height): Ordering {
      match CmpNat(revisionNumber, other.revisionNumber)
      case Equal => CmpNat(revisionHeight, other.revisionHeight)
      case Greater => Greater
      case Less => Less
    }

    function Print(): string {
      Decimal(revisionNumber) + "-" + Decimal(revisionHeight)
    }
  }

  function CmpNat(a: nat, b: nat): Ordering {
    if a < b then Less else if a == b then Equal else Greater
  }

  function Parse(s: string): Result<Height, HeightError> {
    var split := Split('-', s);
    if |split| != 2 then Err(WrongFormat)
    else
      match ParseU64(split[0])
      case None => Err(InvalidRevisionNumber)
      case Some(number) =>
        match ParseU64(split[1])
        case None => Err(InvalidRevisionHeight)
        case Some(height) => Ok(Height(number, height))
  }

  lemma SplitPrint(h: Height)
    ensures Split('-', h.Print()) == [Decimal(h.revisionNumber), Decimal(h.revisionHeight)]
  {
    var pieces := [Decimal(h.revisionNumber), Decimal(h.revisionHeight)];
    DecimalCanonical(h.revisionNumber);
    DecimalCanonical(h.revisionHeight);
    DigitsFree('-', pieces[0]);
    DigitsFree('-', pieces[1]);
    assert Join('-', pieces) == h.Print();
    SplitJoin('-', pieces);
  }

  /** Parsing a printed height returns it, for every pair of 64-bit numbers. */
  lemma PrintParse(h: Height)
    requires h.Valid()
    ensures Parse(h.Print()) == Ok(h)
  {
    SplitPrint(h);
    ParseDecimal(h.revisionNumber);
    ParseDecimal(h.revisionHeight);
  }

  lemma PrintInjective(g: Height, h: Height)
    requires g.Print() == h.Print()
    ensures g == h
  {
    SplitPrint(g);
    SplitPrint(h);
    DecimalInjective(g.revisionNumber, h.revisionNumber);
    DecimalInjective(g.revisionHeight, h.revisionHeight);
  }

  /** Printing what was parsed is idempotent, and it reproduces the input exactly when both pieces were
      canonical already: no plus sign and no leading zero. */
  lemma ParsePrint(s: string)
    requires Parse(s).Ok?
    ensures Parse(s).value.Valid() && Parse(Parse(s).value.Print()) == Parse(s)
    ensures Parse(s).value.Print() == s <==> (forall piece | piece in Split('-', s) :: Canonical(piece))
  {
    var split := Split('-', s);
    var h := Parse(s).value;
    PrintParse(h);
    JoinSplit('-', s);
    assert s == split[0] + "-" + split[1];
    DecimalParse(split[0]);
    DecimalParse(split[1]);
    if h.Print() == s {
      SplitPrint(h);
      assert Canonical(split[0]) && Canonical(split[1]);
    }
  }

  /** `Cmp` is a total order: it decides equality, is antisymmetric and is transitive. The revision number decides
      first, then the revision height. */
  lemma CmpTotalOrder(a: Height, b: Height, c: Height)
    ensures a.Cmp(b) == Equal <==> a == b
    ensures a.Cmp(b) == Less <==> b.Cmp(a) == Greater
    ensures a.Cmp(b) == Less && b.Cmp(c) == Less ==> a.Cmp(c) == Less
    ensures a.revisionNumber < b.revisionNumber ==> a.Cmp(b) == Less
    ensures a.revisionNumber == b.revisionNumber && a.revisionHeight < b.revisionHeight ==> a.Cmp(b) == Less
  {
  }

  /** Adding never moves a height down, keeps the order of two heights, and subtracting undoes it. */
  lemma AddSub(a: Height, b: Height, n: nat)
    requires a.Valid() && b.Valid()
    ensures a.CheckedAdd(n).Some? ==>
      && a.CheckedAdd(n).value == Height(a.revisionNumber, a.revisionHeight + n)
      && a.CheckedAdd(n).value.Valid()
      && a.CheckedAdd(n).value.CheckedSub(n) == Some(a)
      && (a.CheckedAdd(n).value.Cmp(a) == Equal <==> n == 0)
      && a.CheckedAdd(n).value.Cmp(a) != Less
      && (b.CheckedAdd(n).Some? ==> a.CheckedAdd(n).value.Cmp(b.CheckedAdd(n).value) == a.Cmp(b))
    ensures a.CheckedAdd(n).None? <==> a.revisionHeight + n > U64_MAX
    ensures a.CheckedSub(n).None? <==> n > a.revisionHeight
  {
  }

  /** How heights are written. */
  lemma PrintExample()
    ensures Height(1, 110).Print() == "1-110" && Parse("1-110") == Ok(Height(1, 110))
  {
    assert Decimal(1) == "1" && Decimal(11) == "11" && Decimal(110) == "110";
    PrintParse(Height(1, 110));
  }
}
