/** Concrete admission scenarios under the built-in manager and default limits. */
module Scenarios {
  import opened Wrappers
  import opened Decimal
  import opened Quota
  import opened Buildin

  /** Collaborators reporting `n` rules and `k` schemas for every service. */
  function Listings(n: nat, k: nat): (src: Sources)
    ensures forall id :: src.getRules(id).Success? && |src.getRules(id).value| == n
    ensures forall id :: src.getAllSchemas(id).Success? && |src.getAllSchemas(id).value| == k
  {
    Sources(
      "default/default",
      _ => 0,
      _ => 0,
      _ => Success(seq(n, i => ServiceRule("rule"))),
      _ => Success(seq(k, i => SchemaEntry("schema"))),
      Success(0),
      Success(0))
  }

  /** Each named type renders as its uppercase name, in `iota` order. */
  lemma CanonicalNames()
    ensures String(0) == "RULE" && String(1) == "SCHEMA" && String(2) == "TAG"
    ensures String(3) == "SERVICE" && String(4) == "INSTANCE"
    ensures String(5) == "ACCOUNT" && String(6) == "ROLE"
    ensures String(7) == "RESOURCE7" && String(-1) == "RESOURCE-1"
  {
    assert Itoa(7) == "7";
    assert Itoa(-1) == "-1";
  }

  /** The decimal figures that appear in the rule-limit scenario. */
  lemma SmallDecimals()
    ensures Itoa(100) == "100" && Itoa(1) == "1"
  {
    assert Digits(10) == "10";
    assert Digits(100) == Digits(10) + "0";
  }

  /** The refusal message of the rule-limit scenario, spelled out. */
  lemma RuleRefusalMessage()
    ensures NoQuotaMessage(0, 100, 100, 1)
      == "no quota to create " + "RULE" + ", max num is " + "100" + ", curNum is " + "100" + ", apply num is " + "1"
  {
    SmallDecimals();
    assert String(0) == "RULE";
  }

  /** With a rule limit of 100 and 99 rules present, one more rule is admitted. */
  lemma RuleBelowLimitAdmitted(hook: Option<RemandHook>)
    ensures Apply(New(DefaultLimits, hook), Listings(99, 0), Some(ApplyQuotaResource(0, "default/default", "svc", 1))).None?
  {
  }

  /** With a rule limit of 100 and 100 rules present, one more rule is refused, naming all four figures. */
  lemma RuleAtLimitRefused(hook: Option<RemandHook>)
    ensures Apply(New(DefaultLimits, hook), Listings(100, 0), Some(ApplyQuotaResource(0, "default/default", "svc", 1)))
      == Some(QuotaError(ErrNotEnoughQuota,
        "no quota to create " + "RULE" + ", max num is " + "100" + ", curNum is " + "100" + ", apply num is " + "1"))
  {
    RuleRefusalMessage();
  }

  /** The schema count is the length of the schema listing. */
  lemma SchemaUsageIsListingLength()
    ensures GetResourceUsage(Listings(0, 3), ApplyQuotaResource(1, "default/default", "svc", 1)) == Usage(3, None)
  {
  }
}
