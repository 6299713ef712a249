/** FileType: the three export categories, each bound to the literal
    prefix its files' names start with. */
module FileTypes {

  datatype FileType = REDEMPTION | OUTPAY | OWN_AND_BEN
  {
    /** Enum.name() */
    function Name(): string
    {
      match this
      case REDEMPTION => "REDEMPTION"
      case OUTPAY => "OUTPAY"
      case OWN_AND_BEN => "OWN_AND_BEN"
    }

    /** getPrefixPattern() */
    function PrefixPattern(): string
    {
      match this
      case REDEMPTION => "redemption"
      case OUTPAY => "outpay"
      case OWN_AND_BEN => "own_and_ben"
    }
  }

  /** Two prefixes of one name are prefixes of each other. */
  lemma {:induction false} PrefixesOfOneName(p: string, q: string, name: string)
    requires p <= name && q <= name && |p| <= |q|
    ensures p <= q
  {
  }

  /** No category's prefix starts with another category's prefix. */
  lemma {:induction false} PrefixesIncomparable(a: FileType, b: FileType)
    requires a != b
    ensures !(a.PrefixPattern() <= b.PrefixPattern())
  {
    var p, q := a.PrefixPattern(), b.PrefixPattern();
    if |p| <= |q| {
      assert p[0] != q[0] || p[1] != q[1];
    }
  }

  /** No file name starts with the prefixes of two different categories,
      so a run for one category never picks up another category's files. */
  lemma {:induction false} CategoriesSelectDisjointNames(a: FileType, b: FileType, name: string)
    requires a != b
    ensures !(a.PrefixPattern() <= name && b.PrefixPattern() <= name)
  {
    PrefixesIncomparable(a, b);
    PrefixesIncomparable(b, a);
    if a.PrefixPattern() <= name && b.PrefixPattern() <= name {
      if |a.PrefixPattern()| <= |b.PrefixPattern()| {
        PrefixesOfOneName(a.PrefixPattern(), b.PrefixPattern(), name);
      } else {
        PrefixesOfOneName(b.PrefixPattern(), a.PrefixPattern(), name);
      }
      assert false;
    }
  }

  /** The category names are distinct from each other. */
  lemma NamesIdentifyCategories(a: FileType, b: FileType)
    ensures a.Name() == b.Name() ==> a == b
  {
  }
}
