/**
 * The records and the enumeration shared by the payday estimator and the
 * subscriber store (types.ts).
 */
module Types {
  import opened Wrappers

  /** The grant categories; each carries the display label that is also its stored value. */
  datatype GrantType = OldAge | Disability | ChildSupport | Srd | FosterChild

  /** The string value of each enumeration member. */
  function Label(g: GrantType): string
  {
    match g
    case OldAge => "Old Age Grant"
    case Disability => "Disability Grant"
    case ChildSupport => "Child Support Grant"
    case Srd => "Social Relief of Distress (SRD)"
    case FosterChild => "Foster Child Grant"
  }

  /** Recovers a category from its stored string value, if it is one. */
  function FromLabel(s: string): (g: Option<GrantType>)
    ensures g.Some? ==> Label(g.value) == s
    ensures g.None? ==> forall h: GrantType :: Label(h) != s
  {
    if s == Label(OldAge) then Some(OldAge)
    else if s == Label(Disability) then Some(Disability)
    else if s == Label(ChildSupport) then Some(ChildSupport)
    else if s == Label(Srd) then Some(Srd)
    else if s == Label(FosterChild) then Some(FosterChild)
    else None
  }

  /** Distinct categories have distinct string values, so a stored value names one category. */
  lemma LabelRoundTrip(g: GrantType)
    ensures FromLabel(Label(g)) == Some(g)
  {
    match g
    case OldAge =>
    case Disability =>
      assert Label(Disability) != Label(OldAge);
    case ChildSupport =>
      assert Label(ChildSupport)[0] != Label(OldAge)[0];
      assert Label(ChildSupport)[0] != Label(Disability)[0];
    case Srd =>
      assert Label(Srd)[0] != Label(OldAge)[0];
      assert Label(Srd)[0] != Label(Disability)[0];
      assert Label(Srd)[0] != Label(ChildSupport)[0];
    case FosterChild =>
      assert Label(FosterChild)[0] != Label(OldAge)[0];
      assert Label(FosterChild)[0] != Label(Disability)[0];
      assert Label(FosterChild)[0] != Label(ChildSupport)[0];
      assert Label(FosterChild)[0] != Label(Srd)[0];
  }

  /** One signup: an opaque id, the contact details, the category and the signup time. */
  datatype UserSubscription = UserSubscription(
    id: string,
    name: string,
    phone: string,
    grantType: GrantType,
    subscribedAt: string)

  /** One payday estimate: the category, a display date and whether it is only estimated. */
  datatype PaydayDate = PaydayDate(grantType: GrantType, date: string, estimated: bool)
}
