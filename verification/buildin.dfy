/**
  The built-in quota manager: limits come from the process-wide limit table,
  and remand calls the optional "RemandQuotas" extension if one is registered.
 */
module Buildin {
  import opened Wrappers
  import opened Quota

  /**
    `Quota.GetQuota`: the configured limit for INSTANCE, SERVICE, RULE, SCHEMA
    and TAG; 0 for every other type, ACCOUNT and ROLE included.
   */
  function GetQuota(limits: Limits, t: ResourceType): (limit: int)
    ensures KindOf(t) == Some(Instance) ==> limit == limits.instance
    ensures KindOf(t) == Some(Service) ==> limit == limits.service
    ensures KindOf(t) == Some(Rule) ==> limit == limits.rule
    ensures KindOf(t) == Some(Schema) ==> limit == limits.schema
    ensures KindOf(t) == Some(Tag) ==> limit == limits.tag
    ensures KindOf(t) !in {Some(Instance), Some(Service), Some(Rule), Some(Schema), Some(Tag)} ==> limit == 0
  {
    match KindOf(t)
    case Some(Instance) => limits.instance
    case Some(Service) => limits.service
    case Some(Rule) => limits.rule
    case Some(Schema) => limits.schema
    case Some(Tag) => limits.tag
    case _ => 0
  }

  /**
    `Quota.RemandQuotas`: with a registered extension, one call of it with the
    same type; without one, nothing happens.
   */
  function RemandQuotas(hook: Option<RemandHook>, t: ResourceType): (calls: seq<HookCall>)
    ensures hook.None? ==> calls == []
    ensures hook.Some? ==> |calls| == 1
    ensures forall c | c in calls :: c.quotaType == t && Some(c.hook) == hook
  {
    match hook
    case None => []
    case Some(h) => [HookCall(h, t)]
  }

  /** `New`: the built-in manager over a limit table and an optional remand extension. */
  function New(limits: Limits, hook: Option<RemandHook>): (m: Manager)
    ensures forall t :: KindOf(t) == Some(Instance) ==> m.getQuota(t) == limits.instance
    ensures forall t :: KindOf(t) == Some(Service) ==> m.getQuota(t) == limits.service
    ensures forall t :: KindOf(t) == Some(Rule) ==> m.getQuota(t) == limits.rule
    ensures forall t :: KindOf(t) == Some(Schema) ==> m.getQuota(t) == limits.schema
    ensures forall t :: KindOf(t) == Some(Tag) ==> m.getQuota(t) == limits.tag
    ensures forall t :: KindOf(t) in {Some(Account), Some(Role), None} ==> m.getQuota(t) == 0
    ensures hook.None? ==> forall t :: m.remandQuotas(t) == []
    ensures hook.Some? ==> forall t :: m.remandQuotas(t) == [HookCall(hook.value, t)]
  {
    Manager(t => GetQuota(limits, t), t => RemandQuotas(hook, t))
  }

  /** The limit of a type depends on nothing but the type and the limit table. */
  lemma GetQuotaDependsOnlyOnTable(l1: Limits, l2: Limits, h1: Option<RemandHook>, h2: Option<RemandHook>, t: ResourceType)
    requires KindOf(t) == Some(Instance) ==> l1.instance == l2.instance
    requires KindOf(t) == Some(Service) ==> l1.service == l2.service
    requires KindOf(t) == Some(Rule) ==> l1.rule == l2.rule
    requires KindOf(t) == Some(Schema) ==> l1.schema == l2.schema
    requires KindOf(t) == Some(Tag) ==> l1.tag == l2.tag
    ensures New(l1, h1).getQuota(t) == New(l2, h2).getQuota(t)
  {
  }

  /** The account and role limits of the table are never consulted. */
  lemma GetQuotaIgnoresAccountAndRoleLimits(limits: Limits, account: int, role: int, t: ResourceType)
    ensures GetQuota(limits.(account := account, role := role), t) == GetQuota(limits, t)
    ensures KindOf(t) in {Some(Account), Some(Role)} ==> GetQuota(limits, t) == 0
  {
  }

  /** The limits the built-in manager reports before any configuration is read. */
  lemma DefaultQuotas()
    ensures GetQuota(DefaultLimits, Value(Instance)) == 150000
    ensures GetQuota(DefaultLimits, Value(Service)) == 50000
    ensures GetQuota(DefaultLimits, Value(Rule)) == 100
    ensures GetQuota(DefaultLimits, Value(Schema)) == 100
    ensures GetQuota(DefaultLimits, Value(Tag)) == 100
    ensures GetQuota(DefaultLimits, Value(Account)) == 0
    ensures GetQuota(DefaultLimits, Value(Role)) == 0
  {
  }

  /**
    Under the built-in manager an ACCOUNT or ROLE request for at least one
    unit is refused for lack of quota whenever usage is read and non-negative,
    whatever limits are configured for those types.
   */
  lemma BuildinRefusesAccountsAndRoles(
    limits: Limits, hook: Option<RemandHook>, src: Sources, res: ApplyQuotaResource)
    requires KindOf(res.quotaType) in {Some(Account), Some(Role)}
    requires res.quotaSize >= 1
    requires GetResourceUsage(src, res).err.None? && GetResourceUsage(src, res).count >= 0
    ensures Apply(New(limits, hook), src, Some(res)).Some?
    ensures Apply(New(limits, hook), src, Some(res)).value.code == ErrNotEnoughQuota
  {
  }

  /** Under the built-in manager a TAG request is admitted exactly when its size fits the tag limit. */
  lemma BuildinTagAdmission(limits: Limits, hook: Option<RemandHook>, src: Sources, res: ApplyQuotaResource)
    requires KindOf(res.quotaType) == Some(Tag)
    ensures Apply(New(limits, hook), src, Some(res)).None? <==> res.quotaSize <= limits.tag
  {
    ApplyTag(New(limits, hook), src, res);
  }

  /**
    `Remand` through the built-in manager makes exactly one extension call,
    with the released type, when an extension is registered, and none otherwise.
   */
  lemma BuildinRemand(limits: Limits, hook: Option<RemandHook>, t: ResourceType)
    ensures Remand(New(limits, hook), t) == if hook.Some? then [HookCall(hook.value, t)] else []
  {
  }

  /** Remand never changes what `Apply` decides afterwards: admission reads no remand state. */
  lemma RemandDoesNotAffectAdmission(limits: Limits, h1: Option<RemandHook>, h2: Option<RemandHook>,
                                     src: Sources, res: Option<ApplyQuotaResource>)
    ensures Apply(New(limits, h1), src, res) == Apply(New(limits, h2), src, res)
  {
  }
}
