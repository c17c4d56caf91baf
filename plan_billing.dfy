/** The plan and billing page (pages/settings/PlanBilling.tsx): choosing a
    plan, the upgrade/downgrade prompt and the change itself. */
module PlanBilling {
  import opened Seqs
  import opened Plans
  import opened PlanContext

  datatype Prompt = Upgrade | Downgrade

  /** The prompt under the plan cards: none when the selected plan is the
      current one, otherwise upgrade when it is a higher level, else downgrade. */
  function ChangePrompt(current: PlanType, selected: PlanType): Option<Prompt>
  {
    if selected == current then None
    else if PlanLevel(selected) > PlanLevel(current) then Some(Upgrade)
    else Some(Downgrade)
  }

  /** A prompt shows exactly when the plans differ; it says upgrade exactly
      when the selected plan is above the current one, and moving there and
      back gives the opposite prompts. */
  lemma ChangePromptSpec(current: PlanType, selected: PlanType)
    ensures ChangePrompt(current, selected).Some? <==> selected != current
    ensures ChangePrompt(current, selected) == Some(Upgrade) <==> PlanLevel(selected) > PlanLevel(current)
    ensures ChangePrompt(current, selected) == Some(Downgrade) <==> PlanLevel(selected) < PlanLevel(current)
    ensures ChangePrompt(current, selected) == Some(Upgrade) <==> ChangePrompt(selected, current) == Some(Downgrade)
  {
    PlanLevelOrder(current, selected);
  }

  class PlanBillingPage {
    var selectedPlan: PlanType

    /** The selection starts at the current plan. */
    constructor (ctx: PlanProvider)
      ensures selectedPlan == ctx.userPlan.currentPlan
    {
      selectedPlan := ctx.userPlan.currentPlan;
    }

    /** Clicking a plan card selects it. */
    method SelectPlan(p: PlanType)
      modifies this
      ensures selectedPlan == p
    {
      selectedPlan := p;
    }

    /** `handleChangePlan`: change the plan only when the selection differs
        from the current plan; otherwise nothing happens. */
    method HandleChangePlan(ctx: PlanProvider, now: string)
      modifies ctx
      ensures old(ctx.userPlan.currentPlan) != selectedPlan ==> ctx.userPlan == UserPlan(selectedPlan, now, None, true)
      ensures old(ctx.userPlan.currentPlan) == selectedPlan ==> ctx.userPlan == old(ctx.userPlan)
      ensures ctx.userPlan.currentPlan == selectedPlan
    {
      if selectedPlan != ctx.userPlan.currentPlan {
        ctx.ChangePlan(selectedPlan, now);
      }
    }
  }
}
