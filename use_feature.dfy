/** The feature gate (src/hooks/useFeature.ts): whether the current plan
    grants a feature, and which plan to ask the user for when it does not. */
module UseFeature {
  import opened Plans
  import opened PlanContext

  /** `useFeature(k)`: `hasFeature(PLAN_FEATURES[k])` on the provider's plan. */
  function UseFeature(ctx: PlanProvider, k: FeatureKey): bool
    reads ctx
  {
    ctx.HasFeature(PlanFeatures(k))
  }

  /** `useRequireFeature(k)`'s `requiredPlan`: the table's first plan for `k`. */
  function RequiredPlan(k: FeatureKey): PlanType
  {
    PlanFeatures(k)[0]
  }

  /** Access is granted exactly to the plans the table lists for the key. */
  lemma UseFeatureSpec(ctx: PlanProvider, k: FeatureKey)
    ensures UseFeature(ctx, k) <==> ctx.userPlan.currentPlan in PlanFeatures(k)
  {
  }

  /** The required plan is the lowest plan granting the key. */
  lemma RequiredPlanIsLowest(k: FeatureKey)
    ensures RequiredPlan(k) in PlanFeatures(k)
    ensures forall p :: p in PlanFeatures(k) ==> PlanLevel(RequiredPlan(k)) <= PlanLevel(p)
  {
    PlanFeaturesOrdered(k);
  }

  /** Refused access means the current plan is below the required one, for
      every key but BOOKING_LIMITED; there a BASIC or PRO user is refused and
      told FREE is required. */
  lemma RefusalMeansUpgrade(plan: PlanType, k: FeatureKey)
    ensures k != BookingLimited && plan !in PlanFeatures(k) ==> PlanLevel(plan) < PlanLevel(RequiredPlan(k))
    ensures k == BookingLimited && plan != Free ==> plan !in PlanFeatures(k) && RequiredPlan(k) == Free
  {
  }

  /** A PRO user has every feature except BOOKING_LIMITED; a FREE user has
      exactly the six FREE-listed ones. */
  lemma ProAndFreeAccess(ctx: PlanProvider, k: FeatureKey)
    ensures ctx.userPlan.currentPlan == Pro ==> (UseFeature(ctx, k) <==> k != BookingLimited)
    ensures ctx.userPlan.currentPlan == Free ==> (UseFeature(ctx, k) <==> k in FreeFeatures)
  {
  }
}
