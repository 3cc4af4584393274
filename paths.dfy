/** Item paths such as `/api/v1/tenants/7`: a template literal renders the
    numeric id in decimal after the collection's base path. */
module Paths {
  import opened Api

  predicate IsDigit(c: char) {
    '0' <= c <= '9'
  }

  function DigitChar(d: nat): (c: char)
    requires d < 10
    ensures IsDigit(c) && (c as int) - ('0' as int) == d
  {
    (('0' as int) + d) as char
  }

  /** Decimal text of a natural number, without leading zeros. */
  function NatText(n: nat): (s: string)
    ensures |s| >= 1
    ensures forall i :: 0 <= i < |s| ==> IsDigit(s[i])
    ensures |s| > 1 ==> s[0] != '0'
  {
    if n < 10 then [DigitChar(n)] else NatText(n / 10) + [DigitChar(n % 10)]
  }

  /** How `${id}` renders an integral number. */
  function IntText(n: int): string {
    if n < 0 then "-" + NatText(-n) else NatText(n)
  }

  /** The value of a string of decimal digits, or `None` if it is empty or
      holds anything else. */
  function ParseNat(s: string): Option<nat> {
    if |s| == 0 || !IsDigit(s[|s| - 1]) then None
    else if |s| == 1 then Some((s[0] as int) - ('0' as int))
    else match ParseNat(s[..|s| - 1])
      case None => None
      case Some(v) => Some(10 * v + ((s[|s| - 1] as int) - ('0' as int)))
  }

  function ParseInt(s: string): Option<int> {
    if |s| > 0 && s[0] == '-' then
      match ParseNat(s[1..])
      case None => None
      case Some(v) => Some(-(v as int))
    else ParseNat(s)
  }

  /** The path of one item of the collection at `base`. */
  function ItemPath(base: string, id: int): string {
    base + "/" + IntText(id)
  }

  /** The id an item path names, if it is an item path of `base`. */
  function IdOf(base: string, path: string): Option<int> {
    if |path| > |base| && path[..|base| + 1] == base + "/" then ParseInt(path[|base| + 1..])
    else None
  }

  lemma {:induction false} ParseNatText(n: nat)
    ensures ParseNat(NatText(n)) == Some(n)
  {
    var s := NatText(n);
    if n >= 10 {
      ParseNatText(n / 10);
      assert s[..|s| - 1] == NatText(n / 10);
    }
  }

  lemma ParseIntText(n: int)
    ensures ParseInt(IntText(n)) == Some(n)
  {
    if n < 0 {
      ParseNatText(-n);
      assert IntText(n)[1..] == NatText(-n);
    } else {
      ParseNatText(n);
    }
  }

  /** The id can be read back from the item path built for it. */
  lemma IdOfItemPath(base: string, id: int)
    ensures IdOf(base, ItemPath(base, id)) == Some(id)
  {
    var p := ItemPath(base, id);
    assert p[..|base| + 1] == base + "/";
    assert p[|base| + 1..] == IntText(id);
    ParseIntText(id);
  }

  /** Different ids address different paths. */
  lemma ItemPathInjective(base: string, a: int, b: int)
    ensures ItemPath(base, a) == ItemPath(base, b) <==> a == b
  {
    if ItemPath(base, a) == ItemPath(base, b) {
      IdOfItemPath(base, a);
      IdOfItemPath(base, b);
    }
  }
}
