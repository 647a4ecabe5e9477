# Quota admission in the service center

This project models the quota admission core of the service center in Dafny.
Before a governed resource is created, `Apply` decides whether to admit or reject the request.
Governed resources are rules, schemas, tags, services, instances, accounts and roles.
`Apply` asks the registered quota manager for the limit of the resource type.
It reads current usage from the collaborator that owns that type.
It rejects the request when usage plus the requested size exceeds the limit.
`Remand` tells the manager that a resource was released.

Modules:

- `Wrappers`: `Option` (Go's nil) and `Result` (a collaborator's value or error).
- `Decimal`: Go's `strconv.Itoa`, with an independent parser `Atoi` proving it loses nothing.
- `Quota` (`server/plugin/quota/quota.go`): the resource types and their names, the default limits, the request record, usage dispatch `GetResourceUsage`, `Apply` and `Remand`.
- `Buildin` (`server/plugin/quota/buildin/buildin.go`): the built-in manager's `GetQuota` table and `RemandQuotas` hook dispatch, plus properties of `Apply` under that manager.
- `Scenarios`: concrete admissions with the default limits.

Modelling choices:

- `ResourceType` is an unbounded `int`; `Kind` names the seven `iota` values 0..6, and `KindOf` maps a number back to its kind.
- The collaborators become one `Sources` value. Service and instance totals are functions of the context's domain. Rule and schema listings are functions of the service id, each a success or an error. Role and account counts are a success or an error.
- The registered manager is a `Manager` value holding its limit lookup and its remand effect. The built-in one is `Buildin.New(limits, hook)`.
- The dynamically looked-up "RemandQuotas" function is an `Option<RemandHook>`. Its effect is observed as the sequence of `HookCall`s it makes.
- `GetResourceUsage` returns Go's `(count, error)` pair as `Usage(count, err)`, with count 0 whenever an error is returned.
- `Apply` returns `None` for admission, or an error code and message. The messages follow the source's format strings.
- The request pointer is an `Option<ApplyQuotaResource>`. Go's `NewApplyQuotaResource` always returns a non-nil pointer, so it corresponds to `Some(ApplyQuotaResource(...))`.
- The source evaluates `GetQuota` before reading usage. Both are pure here, so the order has no observable effect.
- The built-in manager returns 0 for ACCOUNT and ROLE even though limits for them are configured. The model keeps this: `BuildinRefusesAccountsAndRoles` proves every such request of size at least 1 is refused.

## Model

| member | source | states |
|---|---|---|
| Quota.KindOf | server/plugin/quota/quota.go:49-57 | a value is a named type exactly when it is in 0..6, and then it is that type's `iota` value |
| Quota.KindOfValue | server/plugin/quota/quota.go:49-57 | each named type's value maps back to that type |
| Quota.ValueInjective | server/plugin/quota/quota.go:49-57 | distinct named types have distinct values |
| Quota.Name | server/plugin/quota/quota.go:102-117 | every canonical name is 3 to 8 upper-case letters |
| Quota.String | server/plugin/quota/quota.go:102-120 | a named type renders as its canonical name; any other value renders as "RESOURCE" followed by the value's canonical decimal (`Itoa`), which parses back to the value |
| Quota.ParseNameOfString | server/plugin/quota/quota.go:102-120 | every display name reads back, by an independent parser, as the value it was rendered from |
| Quota.StringInjective | server/plugin/quota/quota.go:102-120 | no two resource types share a display name |
| Quota.UnknownLabelIsNotCanonical | server/plugin/quota/quota.go:118-119 | a value outside 0..6 never renders as any canonical name |
| Scenarios.CanonicalNames | server/plugin/quota/quota.go:102-119 | values 0..6 render as RULE, SCHEMA, TAG, SERVICE, INSTANCE, ACCOUNT, ROLE; 7 and -1 render as RESOURCE7 and RESOURCE-1 |
| Decimal.Digits | server/plugin/quota/quota.go:119 | the decimal digits of a natural number are non-empty, all digits, with no leading zero |
| Decimal.Itoa | server/plugin/quota/quota.go:119 | the rendering of an integer is non-empty, starts with '-' exactly for negatives, is digits after the first character, and has no leading zero in its digits |
| Decimal.AtoiOfItoa | server/plugin/quota/quota.go:119 | parsing the decimal rendering of any integer gives back that integer |
| Decimal.ItoaInjective | server/plugin/quota/quota.go:119 | distinct integers render differently |
| Quota.GetResourceUsage | server/plugin/quota/quota.go:149-200 | SERVICE and INSTANCE read the domain's metrics and never fail; RULE and SCHEMA count the service's listing; TAG is 0; ACCOUNT and ROLE give the collaborator's count; collaborator errors pass through unchanged with count 0; any other type fails with an error naming it |
| Quota.UsageErrorOrigin | server/plugin/quota/quota.go:149-200 | usage reading fails exactly when the type is undefined or the collaborator it consults fails |
| Quota.UsageIgnoresSize | server/plugin/quota/quota.go:149-200 | usage does not depend on the requested size |
| Scenarios.SchemaUsageIsListingLength | server/plugin/quota/quota.go:167-177 | a schema listing of 3 entries gives a SCHEMA usage of 3 with no error |
| Quota.Apply | server/plugin/quota/quota.go:124-144 | a nil request is an internal "invalid parameters" error; a usage error becomes an internal error carrying its message; otherwise the request is admitted exactly when usage plus size is within the manager's limit, and rejected as not-enough-quota with the type, limit, usage and size in the message |
| Quota.ApplyFailsClosed | server/plugin/quota/quota.go:124-143 | admission happens exactly when a request is present, its usage was read, and usage plus size is within the limit |
| Quota.ApplyNilIgnoresCollaborators | server/plugin/quota/quota.go:125-129 | a nil request gets the same internal error whatever the manager and collaborators |
| Quota.ApplyUsageErrorIgnoresLimitAndSize | server/plugin/quota/quota.go:131-136 | when usage cannot be read, the internal error is the same for every manager and every requested size |
| Quota.ApplyMonotoneInSize | server/plugin/quota/quota.go:137-143 | if a size is admitted, every smaller size is admitted for the same usage and limit |
| Quota.ApplyTag | server/plugin/quota/quota.go:178-180 | a TAG request is admitted exactly when its size is within the limit, and is otherwise rejected as not-enough-quota |
| Buildin.GetQuota | server/plugin/quota/buildin/buildin.go:42-57 | INSTANCE, SERVICE, RULE, SCHEMA and TAG get their configured limit; ACCOUNT, ROLE and every unknown type get 0 |
| Buildin.GetQuotaDependsOnlyOnTable | server/plugin/quota/buildin/buildin.go:42-57 | the limit of a type is fixed by the type and its table entry alone, not by the remand hook or other entries |
| Buildin.GetQuotaIgnoresAccountAndRoleLimits | server/plugin/quota/buildin/buildin.go:54-55 | the configured ACCOUNT and ROLE limits never affect the result, which is 0 for those types |
| Buildin.DefaultQuotas | server/plugin/quota/quota.go:39-67 | with the initial defaults, INSTANCE=150000, SERVICE=50000, RULE=SCHEMA=TAG=100, and ACCOUNT=ROLE=0 |
| Buildin.New | server/plugin/quota/buildin/buildin.go:31-37 | the built-in manager reports the configured limit for INSTANCE, SERVICE, RULE, SCHEMA and TAG and 0 for ACCOUNT, ROLE and every unknown type; its remand makes no call without a hook and exactly one call carrying the released type with one |
| Buildin.RemandQuotas | server/plugin/quota/buildin/buildin.go:60-66 | without a hook nothing is called; with one, it is called exactly once, with the same type |
| Quota.Remand | server/plugin/quota/quota.go:146-148 | the release of a type is forwarded to the registered manager's remand, and being total it never fails |
| Buildin.BuildinRemand | server/plugin/quota/quota.go:146-148 | `Remand` through the built-in manager makes one hook call with the released type if a hook is registered, and none otherwise |
| Buildin.RemandDoesNotAffectAdmission | server/plugin/quota/quota.go:124-148 | which remand hook is registered never changes an admission decision |
| Buildin.BuildinRefusesAccountsAndRoles | server/plugin/quota/buildin/buildin.go:54-55 | under the built-in manager, an ACCOUNT or ROLE request of size at least 1 with non-negative usage is always refused as not-enough-quota |
| Buildin.BuildinTagAdmission | server/plugin/quota/quota.go:178-180 | under the built-in manager, a TAG request is admitted exactly when its size is within the tag limit |
| Scenarios.RuleBelowLimitAdmitted | server/plugin/quota/quota.go:137-143 | with the default rule limit of 100 and 99 rules present, one more rule is admitted |
| Scenarios.RuleAtLimitRefused | server/plugin/quota/quota.go:137-142 | with 100 rules present, one more is refused with "no quota to create RULE, max num is 100, curNum is 100, apply num is 1" |

## Left out

- `Init`, which reads each limit from configuration with an environment override (server/plugin/quota/quota.go:69-77). The configuration library is not part of this model, so the limit table is a parameter (`Limits`).
- The plugin registry and the lookup of the active manager and of the "RemandQuotas" extension by name. These become an explicit `Manager` value and an `Option<RemandHook>`.
- The metrics, metadata, role and account collaborators, `util.ParseDomain` and `context`. Their answers are inputs (`Sources`).
- Logging, including `New`'s start-up log line.
- The extension hook's own behaviour beyond being called once with the released type.
- Concurrency. Every call is stateless and sequential here, so the race window between admission and creation is not modelled.
- Quota.Apply: does not model int64 overflow of `curNum + QuotaSize`. Integers are unbounded, so the comparison is exact. This matches the source whenever the sum stays within int64.
- Quota.ResourceType and the limit table use unbounded integers. Go's `int` is 32 or 64 bits wide depending on the platform; `int64(...)` in `GetQuota` only widens it, so the value is kept either way.
- The HTTP rule controller, which only forwards requests to the service layer.
