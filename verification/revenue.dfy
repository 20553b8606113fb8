/** The reception's upgrade revenue and the projection shown to the director. */
module Revenue {
  import opened Basics

  /** Amount added by one "Confirm Upgrade". */
  const UpgradePrice: int := 50

  /** Days per year used to project one day's upsell revenue. */
  const AnnualMultiplier: int := 180

  /** The revenue and the upgrade count move together from 0/0. */
  predicate Consistent(revenue: int, count: int)
  {
    count >= 0 && revenue == UpgradePrice * count
  }

  /** The projection box: present only when some revenue was made, and then
      the revenue scaled by the multiplier. */
  function AnnualImpact(revenue: int): (r: Option<int>)
    ensures r.Some? <==> revenue > 0
    ensures r.Some? ==> r.value == revenue * AnnualMultiplier
  {
    if revenue > 0 then Some(revenue * AnnualMultiplier) else None
  }

  /** One confirmation keeps revenue and count consistent. */
  lemma ConfirmKeepsConsistent(revenue: int, count: int)
    requires Consistent(revenue, count)
    ensures Consistent(revenue + UpgradePrice, count + 1)
  {
  }

  /** With consistent totals the projection is 9000 per confirmed upgrade,
      and there is none before the first upgrade. */
  lemma ImpactPerUpgrade(revenue: int, count: int)
    requires Consistent(revenue, count)
    ensures count == 0 ==> AnnualImpact(revenue) == None
    ensures count > 0 ==> AnnualImpact(revenue) == Some(UpgradePrice * AnnualMultiplier * count)
  {
  }
}
