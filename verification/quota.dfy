/**
  The quota admission core of the service center: the closed set of governed
  resource types, the built-in default limits, the usage dispatcher and the
  admit/reject decision `Apply` with its release path `Remand`.

  The collaborators the source reaches through globals (metrics, the metadata,
  role and account managers, the context's domain) are gathered into one
  `Sources` value, and the registered quota manager is an explicit `Manager`
  value, so every operation here is a pure function of its arguments.
 */
module Quota {
  import opened Wrappers
  import opened Decimal

  /** Go's `ResourceType int`: any integer, of which seven are named. */
  type ResourceType = int

  /** The seven named resource types, in the order of their `iota` constants. */
  datatype Kind = Rule | Schema | Tag | Service | Instance | Account | Role

  /** The numeric value `iota` gives each named type. */
  function Value(k: Kind): (v: ResourceType)
    ensures 0 <= v < 7
  {
    match k
    case Rule => 0
    case Schema => 1
    case Tag => 2
    case Service => 3
    case Instance => 4
    case Account => 5
    case Role => 6
  }

  /** Which named type, if any, a numeric resource type is. */
  function KindOf(r: ResourceType): (k: Option<Kind>)
    ensures k.Some? <==> 0 <= r < 7
    ensures k.Some? ==> Value(k.value) == r
  {
    if r == 0 then Some(Rule)
    else if r == 1 then Some(Schema)
    else if r == 2 then Some(Tag)
    else if r == 3 then Some(Service)
    else if r == 4 then Some(Instance)
    else if r == 5 then Some(Account)
    else if r == 6 then Some(Role)
    else None
  }

  /** `KindOf` and `Value` are inverse on the named types. */
  lemma KindOfValue(k: Kind)
    ensures KindOf(Value(k)) == Some(k)
  {
  }

  /** Distinct named types have distinct numeric values. */
  lemma ValueInjective(a: Kind, b: Kind)
    ensures Value(a) == Value(b) ==> a == b
  {
    KindOfValue(a);
    KindOfValue(b);
  }

  predicate IsUpper(c: char) {
    'A' <= c <= 'Z'
  }

  /** The canonical display name of a named type. */
  function Name(k: Kind): (s: string)
    ensures 3 <= |s| <= 8
    ensures forall i :: 0 <= i < |s| ==> IsUpper(s[i])
  {
    match k
    case Rule => "RULE"
    case Schema => "SCHEMA"
    case Tag => "TAG"
    case Service => "SERVICE"
    case Instance => "INSTANCE"
    case Account => "ACCOUNT"
    case Role => "ROLE"
  }

  /** The prefix of the synthetic label given to values outside the enumeration. */
  const UnknownPrefix: string := "RESOURCE"

  /** `ResourceType.String`: the canonical name, or "RESOURCE" and the decimal value. */
  function String(r: ResourceType): (s: string)
    ensures KindOf(r).Some? ==> s == Name(KindOf(r).value)
    ensures KindOf(r).None? ==> |s| > |UnknownPrefix| && s[..|UnknownPrefix|] == UnknownPrefix
    ensures KindOf(r).None? ==> Atoi(s[|UnknownPrefix|..]) == Some(r)
    ensures KindOf(r).None? ==> s == UnknownPrefix + Itoa(r)
  {
    match KindOf(r)
    case Some(k) => Name(k)
    case None =>
      var digits := Itoa(r);
      AtoiOfItoa(r);
      assert (UnknownPrefix + digits)[|UnknownPrefix|..] == digits;
      UnknownPrefix + digits
  }

  /**
    Reads a display name back: one of the seven canonical names, or the
    synthetic "RESOURCE<n>" label. This is the reference inverse of `String`.
   */
  function ParseName(s: string): (r: Option<ResourceType>)
  {
    if s == "RULE" then Some(0)
    else if s == "SCHEMA" then Some(1)
    else if s == "TAG" then Some(2)
    else if s == "SERVICE" then Some(3)
    else if s == "INSTANCE" then Some(4)
    else if s == "ACCOUNT" then Some(5)
    else if s == "ROLE" then Some(6)
    else if |s| > |UnknownPrefix| && s[..|UnknownPrefix|] == UnknownPrefix then Atoi(s[|UnknownPrefix|..])
    else None
  }

  /** Every display name reads back as the value it was rendered from. */
  lemma ParseNameOfString(r: ResourceType)
    ensures ParseName(String(r)) == Some(r)
  {
    if KindOf(r).None? {
      var s := String(r);
      assert s[..|UnknownPrefix|] == UnknownPrefix;
      assert |s| > 8;
    }
  }

  /** No two resource types share a display name. */
  lemma StringInjective(a: ResourceType, b: ResourceType)
    ensures String(a) == String(b) ==> a == b
  {
    ParseNameOfString(a);
    ParseNameOfString(b);
  }

  /** A value outside 0..6 never renders as any of the seven canonical names. */
  lemma UnknownLabelIsNotCanonical(r: ResourceType, k: Kind)
    requires r < 0 || r > 6
    ensures String(r) != Name(k)
  {
  }

  /** The built-in default limits, before configuration overrides them. */
  const DefaultServiceLimit: int := 50000
  const DefaultInstanceLimit: int := 150000
  const DefaultSchemaLimit: int := 100
  const DefaultRuleLimit: int := 100
  const DefaultTagLimit: int := 100
  const DefaultAccountLimit: int := 1000
  const DefaultRoleLimit: int := 100

  /** The process-wide limit table (`DefaultServiceQuota` ... `DefaultRoleQuota`). */
  datatype Limits = Limits(
    service: int,
    instance: int,
    schema: int,
    tag: int,
    rule: int,
    account: int,
    role: int)

  /** The limit table as it stands before `Init` reads the configuration. */
  const DefaultLimits: Limits := Limits(
    DefaultServiceLimit, DefaultInstanceLimit, DefaultSchemaLimit, DefaultTagLimit,
    DefaultRuleLimit, DefaultAccountLimit, DefaultRoleLimit)

  /** A request to admit `quotaSize` more units of `quotaType`. */
  datatype ApplyQuotaResource = ApplyQuotaResource(
    quotaType: ResourceType,
    domainProject: string,
    serviceId: string,
    quotaSize: int)

  /** A Go `error`; collaborators' errors are carried through as they are. */
  datatype Error = Error(message: string)

  /** The message of the error returned for a type with no usage branch. */
  function UndefinedTypeMessage(r: ResourceType): string {
    "not define quota type '" + String(r) + "'"
  }

  /** An element of a rule listing; only the listing's length matters here. */
  datatype ServiceRule = ServiceRule(ruleId: string)

  /** An element of a schema listing, fetched without schema bodies. */
  datatype SchemaEntry = SchemaEntry(schemaId: string)

  /**
    What the collaborators answer in the context of one call: the domain
    parsed from the context, the metrics totals per domain, the rule and
    schema listings per service id, and the role and account counts.
   */
  datatype Sources = Sources(
    domain: string,
    totalService: string -> int,
    totalInstance: string -> int,
    getRules: string -> Result<seq<ServiceRule>, Error>,
    getAllSchemas: string -> Result<seq<SchemaEntry>, Error>,
    listRole: Result<int, Error>,
    listAccount: Result<int, Error>)

  /** Go's `(int64, error)` pair returned by `GetResourceUsage`. */
  datatype Usage = Usage(count: int, err: Option<Error>)

  /** Current usage of the request's resource type, read from the matching collaborator. */
  function GetResourceUsage(src: Sources, res: ApplyQuotaResource): (u: Usage)
    // a failed read reports a count of 0
    ensures u.err.Some? ==> u.count == 0
    // SERVICE and INSTANCE are read from the metrics of the context's domain and never fail
    ensures KindOf(res.quotaType) == Some(Service) ==> u == Usage(src.totalService(src.domain), None)
    ensures KindOf(res.quotaType) == Some(Instance) ==> u == Usage(src.totalInstance(src.domain), None)
    // RULE and SCHEMA count the listing of the request's service, or pass its error through
    ensures KindOf(res.quotaType) == Some(Rule) ==>
      match src.getRules(res.serviceId)
      case Success(rules) => u == Usage(|rules|, None)
      case Failure(e) => u.err == Some(e)
    ensures KindOf(res.quotaType) == Some(Schema) ==>
      match src.getAllSchemas(res.serviceId)
      case Success(schemas) => u == Usage(|schemas|, None)
      case Failure(e) => u.err == Some(e)
    // TAG is never constrained by the tags already present
    ensures KindOf(res.quotaType) == Some(Tag) ==> u == Usage(0, None)
    // ACCOUNT and ROLE report the collaborator's count, or pass its error through
    ensures KindOf(res.quotaType) == Some(Role) ==>
      match src.listRole
      case Success(n) => u == Usage(n, None)
      case Failure(e) => u.err == Some(e)
    ensures KindOf(res.quotaType) == Some(Account) ==>
      match src.listAccount
      case Success(n) => u == Usage(n, None)
      case Failure(e) => u.err == Some(e)
    // a type outside the enumeration is an error naming that type
    ensures KindOf(res.quotaType).None? ==> u.err == Some(Error(UndefinedTypeMessage(res.quotaType)))
  {
    match KindOf(res.quotaType)
    case Some(Service) => Usage(src.totalService(src.domain), None)
    case Some(Instance) => Usage(src.totalInstance(src.domain), None)
    case Some(Rule) =>
      (match src.getRules(res.serviceId)
       case Failure(e) => Usage(0, Some(e))
       case Success(rules) => Usage(|rules|, None))
    case Some(Schema) =>
      (match src.getAllSchemas(res.serviceId)
       case Failure(e) => Usage(0, Some(e))
       case Success(schemas) => Usage(|schemas|, None))
    case Some(Tag) => Usage(0, None)
    case Some(Role) =>
      (match src.listRole
       case Failure(e) => Usage(0, Some(e))
       case Success(n) => Usage(n, None))
    case Some(Account) =>
      (match src.listAccount
       case Failure(e) => Usage(0, Some(e))
       case Success(n) => Usage(n, None))
    case None => Usage(0, Some(Error(UndefinedTypeMessage(res.quotaType))))
  }

  /**
    The only errors usage accounting produces are a collaborator's own error,
    unchanged, or the undefined-type error for a value outside the enumeration.
   */
  lemma UsageErrorOrigin(src: Sources, res: ApplyQuotaResource)
    ensures GetResourceUsage(src, res).err.Some? <==>
      match KindOf(res.quotaType)
      case None => true
      case Some(Rule) => src.getRules(res.serviceId).Failure?
      case Some(Schema) => src.getAllSchemas(res.serviceId).Failure?
      case Some(Role) => src.listRole.Failure?
      case Some(Account) => src.listAccount.Failure?
      case Some(_) => false
  {
  }

  /** Usage does not depend on how many units are requested. */
  lemma UsageIgnoresSize(src: Sources, res: ApplyQuotaResource, size: int)
    ensures GetResourceUsage(src, res.(quotaSize := size)) == GetResourceUsage(src, res)
  {
  }

  /** One recorded invocation of a remand extension, with the type it was given. */
  datatype HookCall = HookCall(hook: RemandHook, quotaType: ResourceType)

  /** A registered "RemandQuotas" extension function, identified by its name. */
  datatype RemandHook = RemandHook(name: string)

  /**
    The registered quota manager: its limit lookup and its remand side
    effect, the latter observed as the sequence of extension calls it makes.
   */
  datatype Manager = Manager(
    getQuota: ResourceType -> int,
    remandQuotas: ResourceType -> seq<HookCall>)

  /** The error kinds `Apply` reports. */
  datatype ErrorCode = ErrInternal | ErrNotEnoughQuota

  /** An `errsvc.Error`: a code and its message. */
  datatype QuotaError = QuotaError(code: ErrorCode, message: string)

  const InvalidParameters: string := "invalid parameters"

  /** The message of a rejection for lack of quota. */
  function NoQuotaMessage(r: ResourceType, limit: int, current: int, size: int): string {
    "no quota to create " + String(r) + ", max num is " + Itoa(limit)
      + ", curNum is " + Itoa(current) + ", apply num is " + Itoa(size)
  }

  /**
    `Apply`: admit (`None`) or reject a request. A missing request and a
    failed usage read are internal errors; otherwise the request is rejected
    exactly when current usage plus the requested size exceeds the manager's
    limit for its type.
   */
  function Apply(m: Manager, src: Sources, res: Option<ApplyQuotaResource>): (r: Option<QuotaError>)
    ensures res.None? ==> r == Some(QuotaError(ErrInternal, InvalidParameters))
    ensures res.Some? && GetResourceUsage(src, res.value).err.Some? ==>
      r == Some(QuotaError(ErrInternal, GetResourceUsage(src, res.value).err.value.message))
    ensures res.Some? && GetResourceUsage(src, res.value).err.None? ==>
      var usage := GetResourceUsage(src, res.value).count;
      var limit := m.getQuota(res.value.quotaType);
      && (r.None? <==> usage + res.value.quotaSize <= limit)
      && (r.Some? ==> r.value.code == ErrNotEnoughQuota)
      && (r.Some? ==> r.value.message == NoQuotaMessage(res.value.quotaType, limit, usage, res.value.quotaSize))
  {
    match res
    case None => Some(QuotaError(ErrInternal, InvalidParameters))
    case Some(req) =>
      var limit := m.getQuota(req.quotaType);
      var usage := GetResourceUsage(src, req);
      if usage.err.Some? then
        Some(QuotaError(ErrInternal, usage.err.value.message))
      else if usage.count + req.quotaSize > limit then
        Some(QuotaError(ErrNotEnoughQuota, NoQuotaMessage(req.quotaType, limit, usage.count, req.quotaSize)))
      else
        None
  }

  /** A request is admitted only when usage was read and leaves room for it. */
  lemma ApplyFailsClosed(m: Manager, src: Sources, res: Option<ApplyQuotaResource>)
    ensures Apply(m, src, res).None? <==>
      && res.Some?
      && GetResourceUsage(src, res.value).err.None?
      && GetResourceUsage(src, res.value).count + res.value.quotaSize <= m.getQuota(res.value.quotaType)
  {
  }

  /** A missing request is refused without consulting the manager or the usage sources. */
  lemma ApplyNilIgnoresCollaborators(m1: Manager, m2: Manager, src1: Sources, src2: Sources)
    ensures Apply(m1, src1, None) == Apply(m2, src2, None)
    ensures Apply(m1, src1, None).value.code == ErrInternal
  {
  }

  /** A failed usage read is an internal error whatever the limit or the requested size. */
  lemma ApplyUsageErrorIgnoresLimitAndSize(
    m1: Manager, m2: Manager, src: Sources, res: ApplyQuotaResource, size: int)
    requires GetResourceUsage(src, res).err.Some?
    ensures Apply(m1, src, Some(res)) == Apply(m2, src, Some(res.(quotaSize := size)))
    ensures Apply(m1, src, Some(res)).Some? && Apply(m1, src, Some(res)).value.code == ErrInternal
  {
    UsageIgnoresSize(src, res, size);
  }

  /** If a size is admitted, every smaller size is admitted too. */
  lemma ApplyMonotoneInSize(m: Manager, src: Sources, res: ApplyQuotaResource, smaller: int)
    requires smaller <= res.quotaSize
    requires Apply(m, src, Some(res)).None?
    ensures Apply(m, src, Some(res.(quotaSize := smaller))).None?
  {
    UsageIgnoresSize(src, res, smaller);
  }

  /** A TAG request is admitted exactly when its size alone fits under the limit. */
  lemma ApplyTag(m: Manager, src: Sources, res: ApplyQuotaResource)
    requires KindOf(res.quotaType) == Some(Tag)
    ensures Apply(m, src, Some(res)).None? <==> res.quotaSize <= m.getQuota(res.quotaType)
    ensures Apply(m, src, Some(res)).Some? ==> Apply(m, src, Some(res)).value.code == ErrNotEnoughQuota
  {
  }

  /** `Remand`: forwards the release of a resource type to the registered manager. */
  function Remand(m: Manager, quotaType: ResourceType): (calls: seq<HookCall>)
  {
    m.remandQuotas(quotaType)
  }
}
