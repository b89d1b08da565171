/** The plans the storefront's checkout form offers, and the request body the
    form posts for one of them. The table is data: it drives the lemmas that
    relate the storefront to the endpoint's configuration. */
module SitePlans {
  import opened Php
  import opened Checkout

  /** A row of the storefront's plan table (features and display strings left aside). */
  datatype Plan = Plan(key: string, name: string, priceAmount: nat, priceId: string, mode: string)

  const Plans: seq<Plan> := [
    Plan("retainer", "Monthly Retainer", 2000, "price_retainer", "subscription"),
    Plan("starter", "Starter Package", 750, "price_starter", "payment"),
    Plan("workshop", "AI Workshop", 500, "price_workshop", "payment")
  ]

  /** The JSON object the form sends for `plan`, given the form's email, name
      and company and the page's origin. */
  function ClientBody(plan: Plan, email: string, name: string, company: string, origin: string): (b: RequestBody)
    ensures Has(b, "priceId") && b.value["priceId"].s == plan.priceId
    ensures Has(b, "mode") && b.value["mode"].s == plan.mode
    ensures Has(b, "successUrl") && Has(b, "cancelUrl") && Has(b, "customerEmail")
  {
    Some(map[
      "priceId" := Str(plan.priceId),
      "mode" := Str(plan.mode),
      "customerEmail" := Str(email),
      "customerName" := Str(name),
      "company" := Str(company),
      "successUrl" := Str(origin + "/success.html"),
      "cancelUrl" := Str(origin + "/checkout.html?plan=" + plan.key)])
  }

  /** Every price id the storefront sends is an alias of the endpoint's table. */
  lemma EveryPlanIsAnAlias(plan: Plan)
    requires plan in Plans
    ensures plan.priceId in Shipped.priceMapping
  {
  }

  /** With the configuration as shipped, no purchase from the storefront
      reaches the provider: each one is answered with the price-configuration
      error. */
  lemma ShippedRefusesEverySitePlan(plan: Plan, email: string, name: string, company: string,
                                                        origin: string, provider: ProviderCall -> ProviderReply)
    requires plan in Plans
    ensures Run("POST", ClientBody(plan, email, name, company, origin), Shipped, provider)
         == Exchange(InvalidPriceConfiguration, [])
  {
  }

  /** Once the table maps a plan's alias to a usable price id, the storefront's
      request for that plan produces exactly one provider call, carrying that
      price, the plan's mode, the form's contact data, and the storefront's
      redirect pages. */
  lemma ConfiguredSitePlanIsForwarded(plan: Plan, cfg: Config, email: string, name: string,
                                                          company: string, origin: string,
                                                          provider: ProviderCall -> ProviderReply)
    requires plan in Plans
    requires plan.priceId in cfg.priceMapping && IsUsablePriceId(cfg.priceMapping[plan.priceId])
    ensures var x := Run("POST", ClientBody(plan, email, name, company, origin), cfg, provider);
      && |x.sent| == 1
      && x.sent[0].session.lineItems == [LineItem(cfg.priceMapping[plan.priceId], 1)]
      && (x.sent[0].session.mode == Subscription <==> plan.key == "retainer")
      && ModeName(x.sent[0].session.mode) == plan.mode
      && x.sent[0].session.successUrl == origin + "/success.html" + SessionIdTemplate
      && x.sent[0].session.cancelUrl == origin + "/checkout.html?plan=" + plan.key
      && x.sent[0].session.customerEmail == (if Truthy(email) then Some(email) else None)
      && x.sent[0].session.metadata == Metadata(name, company)
      && x.response == MapOutcome(provider(x.sent[0]))
  {
  }
}
