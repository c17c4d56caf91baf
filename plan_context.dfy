/** The plan provider (src/contexts/PlanContext.tsx): the user's plan, the
    plan catalogue, plan changes and the membership test behind every
    feature gate. */
module PlanContext {
  import opened Seqs
  import opened Plans

  /** `UserPlan`. */
  datatype UserPlan = UserPlan(currentPlan: PlanType, startedAt: string, expiresAt: Option<string>, autoRenew: bool)

  /** `PlanInfo`: a catalogue entry (its feature blurbs are display text and left out). */
  datatype PlanInfo = PlanInfo(planType: PlanType, name: string, price: nat)

  /** `PLAN_INFO`. */
  function PlanInfoOf(p: PlanType): (info: PlanInfo)
    ensures info.planType == p
  {
    match p
    case Free => PlanInfo(Free, "무료", 0)
    case Basic => PlanInfo(Basic, "베이직", 19000)
    case Pro => PlanInfo(Pro, "프로", 39000)
  }

  /** Prices are 0, 19000 and 39000 and rise strictly with the plan level. */
  lemma PricesRise(p: PlanType, q: PlanType)
    ensures PlanInfoOf(Free).price == 0 && PlanInfoOf(Basic).price == 19000 && PlanInfoOf(Pro).price == 39000
    ensures PlanLevel(p) < PlanLevel(q) <==> PlanInfoOf(p).price < PlanInfoOf(q).price
  {
  }

  class PlanProvider {
    var userPlan: UserPlan

    /** The initial plan: the saved one when there is one (already parsed),
        otherwise FREE from `now` without auto-renewal. */
    constructor (saved: Option<UserPlan>, now: string)
      ensures saved.Some? ==> userPlan == saved.value
      ensures saved.None? ==> userPlan == UserPlan(Free, now, None, false)
    {
      if saved.Some? {
        userPlan := saved.value;
      } else {
        userPlan := UserPlan(Free, now, None, false);
      }
    }

    /** `planInfo`. */
    function CurrentPlanInfo(): (info: PlanInfo)
      reads this
      ensures info.planType == userPlan.currentPlan
    {
      PlanInfoOf(userPlan.currentPlan)
    }

    /** `changePlan`: the new plan, restarted `now`, with auto-renewal and no expiry. */
    method ChangePlan(newPlan: PlanType, now: string)
      modifies this
      ensures userPlan == UserPlan(newPlan, now, None, true)
    {
      userPlan := UserPlan(newPlan, now, None, true);
    }

    /** `hasFeature(list)`: the current plan is in the list. */
    function HasFeature(allowed: seq<PlanType>): bool
      reads this
    {
      userPlan.currentPlan in allowed
    }
  }
}
