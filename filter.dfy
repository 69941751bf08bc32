/**
 * `RateLimitProcessingFilter`: the servlet filter that admits or rejects each
 * authenticated request according to the tenant's and the customer's rate
 * limits, caching one limiter per tenant and one per customer.
 *
 * `Filter` is the specification of one request, on values; the class
 * `RateLimitProcessingFilter` holds the two registries as maps of limiter
 * objects and its `DoFilter` is proved to behave as `Filter` says. `Run`
 * strings requests together, for the properties that span many requests.
 */
module RateLimitFilter {
  import opened Wrappers
  import opened RateLimits

  datatype TenantId = TenantId(id: string)
  datatype CustomerId = CustomerId(id: string)

  /** The authenticated caller, as the security context provides it. */
  datatype SecurityUser = SecurityUser(isSystemAdmin: bool, tenantId: TenantId, customerId: CustomerId)

  /** The rate-limit part of a tenant's default profile configuration; each
      rule string may be null. */
  datatype TenantProfileConfiguration = TenantProfileConfiguration(
    rateLimitsTenantConfiguration: Option<string>,
    rateLimitsCustomerConfiguration: Option<string>)

  /** The entity type a rejection is scoped to. */
  datatype Scope = TENANT | CUSTOMER

  /** Either the request goes down the filter chain, or an error response
      scoped to the tenant or the customer is written instead. */
  datatype Decision = Forward | Reject(scope: Scope)

  /** What the tenant's and the customer's limiters answer if asked during
      this request: the token bucket's verdict, left unconstrained. */
  datatype Verdicts = Verdicts(tenant: bool, customer: bool)

  /** The contents of `perTenantLimits` and `perCustomerLimits`. */
  datatype Registries = Registries(tenants: map<TenantId, Limits>, customers: map<CustomerId, Limits>)

  /** The effect of one request: the decision, the new registries, and which
      limiters were asked, in the order they were asked. */
  datatype Outcome = Outcome(decision: Decision, registries: Registries, consulted: seq<Scope>)

  /** `StringUtils.isNotEmpty`: neither null nor the empty string. */
  predicate IsNotEmpty(s: Option<string>) {
    s.Some? && |s.value| > 0
  }

  /** The request is subject to limiting at all: an authenticated caller who
      is not a system administrator, whose tenant has a profile configuration. */
  predicate Limited(user: Option<SecurityUser>, profile: Option<TenantProfileConfiguration>) {
    user.Some? && !user.value.isSystemAdmin && profile.Some?
  }

  /** The tenant registry visit the request makes, if any. */
  function TenantConsult(user: Option<SecurityUser>, profile: Option<TenantProfileConfiguration>, v: Verdicts)
    : Option<Consult<TenantId>>
  {
    if Limited(user, profile) && IsNotEmpty(profile.value.rateLimitsTenantConfiguration)
    then Some(Consult(user.value.tenantId, profile.value.rateLimitsTenantConfiguration.value, v.tenant))
    else None
  }

  /** The tenant's limiter was asked and said no. */
  predicate TenantRejects(user: Option<SecurityUser>, profile: Option<TenantProfileConfiguration>, v: Verdicts) {
    TenantConsult(user, profile, v).Some? && !v.tenant
  }

  /** The customer registry visit the request makes, if any: only when the
      tenant check, if it ran, let the request through. */
  function CustomerConsult(user: Option<SecurityUser>, profile: Option<TenantProfileConfiguration>, v: Verdicts)
    : Option<Consult<CustomerId>>
  {
    if Limited(user, profile) && IsNotEmpty(profile.value.rateLimitsCustomerConfiguration)
       && !TenantRejects(user, profile, v)
    then Some(Consult(user.value.customerId, profile.value.rateLimitsCustomerConfiguration.value, v.customer))
    else None
  }

  /** The customer's limiter was asked and said no. */
  predicate CustomerRejects(user: Option<SecurityUser>, profile: Option<TenantProfileConfiguration>, v: Verdicts) {
    CustomerConsult(user, profile, v).Some? && !v.customer
  }

  /** A registry after the visit `c`, if there is one. */
  function Visit<K>(registry: map<K, Limits>, c: Option<Consult<K>>): map<K, Limits> {
    if c.Some? then ComputeIfAbsentAndConsume(registry, c.value) else registry
  }

  /** One request through `doFilter`, on values. The tenant check and the
      customer check run one after the other: the customer check is not an
      alternative to the tenant check, so a request that passes the tenant
      limiter is still put to the customer limiter. */
  function Filter(reg: Registries, user: Option<SecurityUser>, profile: Option<TenantProfileConfiguration>, v: Verdicts)
    : (o: Outcome)
    // no user, or a system administrator: forwarded, nothing touched
    ensures user.None? || user.value.isSystemAdmin ==> o == Outcome(Forward, reg, [])
    // no profile configuration: forwarded, nothing touched
    ensures profile.None? ==> o == Outcome(Forward, reg, [])
    // the tenant registry is visited exactly when a tenant rule is configured
    ensures TenantConsult(user, profile, v).None? ==> o.registries.tenants == reg.tenants
    ensures TenantConsult(user, profile, v).Some? ==>
      o.registries.tenants == ComputeIfAbsentAndConsume(reg.tenants, TenantConsult(user, profile, v).value)
    // the customer registry is visited exactly when a customer rule is
    // configured and the tenant limiter did not reject
    ensures CustomerConsult(user, profile, v).None? ==> o.registries.customers == reg.customers
    ensures CustomerConsult(user, profile, v).Some? ==>
      o.registries.customers == ComputeIfAbsentAndConsume(reg.customers, CustomerConsult(user, profile, v).value)
    // the tenant limiter, when asked, is asked first
    ensures o.consulted == (if TenantConsult(user, profile, v).Some? then [TENANT] else [])
                         + (if CustomerConsult(user, profile, v).Some? then [CUSTOMER] else [])
    // the decision
    ensures o.decision == Reject(TENANT) <==> TenantRejects(user, profile, v)
    ensures o.decision == Reject(CUSTOMER) <==> CustomerRejects(user, profile, v)
    ensures o.decision == Forward <==> !TenantRejects(user, profile, v) && !CustomerRejects(user, profile, v)
    // a tenant rejection leaves the customer side alone
    ensures o.decision == Reject(TENANT) ==> o.registries.customers == reg.customers && o.consulted == [TENANT]
  {
    if user.None? || user.value.isSystemAdmin || profile.None? then
      Outcome(Forward, reg, [])
    else
      var u, p := user.value, profile.value;
      var tenantChecked := IsNotEmpty(p.rateLimitsTenantConfiguration);
      var tenants :=
        if tenantChecked
        then ComputeIfAbsentAndConsume(reg.tenants, Consult(u.tenantId, p.rateLimitsTenantConfiguration.value, v.tenant))
        else reg.tenants;
      var trace := if tenantChecked then [TENANT] else [];
      if tenantChecked && !v.tenant then
        Outcome(Reject(TENANT), Registries(tenants, reg.customers), trace)
      else
        var customerChecked := IsNotEmpty(p.rateLimitsCustomerConfiguration);
        var customers :=
          if customerChecked
          then ComputeIfAbsentAndConsume(reg.customers, Consult(u.customerId, p.rateLimitsCustomerConfiguration.value, v.customer))
          else reg.customers;
        var trace' := trace + if customerChecked then [CUSTOMER] else [];
        if customerChecked && !v.customer then
          Outcome(Reject(CUSTOMER), Registries(tenants, customers), trace')
        else
          Outcome(Forward, Registries(tenants, customers), trace')
  }

  /** The filter bean: its two registries map ids to limiter objects. */
  class RateLimitProcessingFilter {
    var perTenantLimits: map<TenantId, TbRateLimits>
    var perCustomerLimits: map<CustomerId, TbRateLimits>

    /** Every cached limiter is its own object: the filter never stores one
        limiter under two keys or in both registries. */
    ghost predicate Valid()
      reads this
    {
      && Distinct(perTenantLimits)
      && Distinct(perCustomerLimits)
      && Disjoint(perTenantLimits, perCustomerLimits)
    }

    /** The registries' contents as values. */
    ghost function Cached(): Registries
      reads this, perTenantLimits.Values, perCustomerLimits.Values
    {
      Registries(States(perTenantLimits), States(perCustomerLimits))
    }

    constructor ()
      ensures Valid()
      ensures perTenantLimits == map[] && perCustomerLimits == map[]
    {
      perTenantLimits := map[];
      perCustomerLimits := map[];
    }

    /** Lines 64-67 of `doFilter`: get or create the tenant's limiter and ask it. */
    method ConsumeTenant(tenantId: TenantId, configuration: string, granted: bool) returns (ok: bool)
      requires Valid()
      modifies this, perTenantLimits.Values
      ensures Valid()
      ensures ok == granted
      ensures Cached() == old(Cached()).(tenants :=
        ComputeIfAbsentAndConsume(old(Cached()).tenants, Consult(tenantId, configuration, granted)))
      ensures perCustomerLimits == old(perCustomerLimits)
      ensures forall t :: t in old(perTenantLimits) ==> t in perTenantLimits && perTenantLimits[t] == old(perTenantLimits)[t]
      ensures forall t :: t in perTenantLimits && t !in old(perTenantLimits) ==> fresh(perTenantLimits[t])
    {
      perTenantLimits, ok := ComputeIfAbsentAndTryConsume(perTenantLimits, tenantId, configuration, perCustomerLimits, granted);
    }

    /** Lines 74-77 of `doFilter`: get or create the customer's limiter and ask it. */
    method ConsumeCustomer(customerId: CustomerId, configuration: string, granted: bool) returns (ok: bool)
      requires Valid()
      modifies this, perCustomerLimits.Values
      ensures Valid()
      ensures ok == granted
      ensures Cached() == old(Cached()).(customers :=
        ComputeIfAbsentAndConsume(old(Cached()).customers, Consult(customerId, configuration, granted)))
      ensures perTenantLimits == old(perTenantLimits)
      ensures forall c :: c in old(perCustomerLimits) ==> c in perCustomerLimits && perCustomerLimits[c] == old(perCustomerLimits)[c]
      ensures forall c :: c in perCustomerLimits && c !in old(perCustomerLimits) ==> fresh(perCustomerLimits[c])
    {
      perCustomerLimits, ok := ComputeIfAbsentAndTryConsume(perCustomerLimits, customerId, configuration, perTenantLimits, granted);
    }

    /** `doFilter`: `user` is what the security context holds, `profile` the
        default profile configuration of the user's tenant, `verdicts` what
        the limiters answer. Returns whether the request goes on down the
        chain or which error response is written instead; `consulted` lists
        the limiters asked, in the order the calls were made. */
    method DoFilter(user: Option<SecurityUser>, profile: Option<TenantProfileConfiguration>, verdicts: Verdicts)
      returns (d: Decision, ghost consulted: seq<Scope>)
      requires Valid()
      modifies this, perTenantLimits.Values, perCustomerLimits.Values
      ensures Valid()
      ensures var o := Filter(old(Cached()), user, profile, verdicts);
        d == o.decision && Cached() == o.registries && consulted == o.consulted
      // cached limiters stay where they are, the same objects
      ensures forall t :: t in old(perTenantLimits) ==> t in perTenantLimits && perTenantLimits[t] == old(perTenantLimits)[t]
      ensures forall c :: c in old(perCustomerLimits) ==> c in perCustomerLimits && perCustomerLimits[c] == old(perCustomerLimits)[c]
      // and the only objects added are new ones
      ensures forall t :: t in perTenantLimits && t !in old(perTenantLimits) ==> fresh(perTenantLimits[t])
      ensures forall c :: c in perCustomerLimits && c !in old(perCustomerLimits) ==> fresh(perCustomerLimits[c])
    {
      consulted := [];
      if user.Some? && !user.value.isSystemAdmin {
        if profile.Some? {
          var u, p := user.value, profile.value;
          if IsNotEmpty(p.rateLimitsTenantConfiguration) {
            var ok := ConsumeTenant(u.tenantId, p.rateLimitsTenantConfiguration.value, verdicts.tenant);
            consulted := consulted + [TENANT];
            if !ok {
              return Reject(TENANT), consulted;
            }
          }
          if IsNotEmpty(p.rateLimitsCustomerConfiguration) {
            var ok := ConsumeCustomer(u.customerId, p.rateLimitsCustomerConfiguration.value, verdicts.customer);
            consulted := consulted + [CUSTOMER];
            if !ok {
              return Reject(CUSTOMER), consulted;
            }
          }
        }
      }
      return Forward, consulted;
    }
  }

  /** One request as the filter sees it. */
  datatype Request = Request(user: Option<SecurityUser>, profile: Option<TenantProfileConfiguration>, verdicts: Verdicts)

  /** The registries after a sequence of requests, oldest first. */
  function Run(reg: Registries, requests: seq<Request>): Registries
    decreases |requests|
  {
    if requests == [] then reg
    else
      var r := requests[0];
      Run(Filter(reg, r.user, r.profile, r.verdicts).registries, requests[1..])
  }

  /** An optional value as a sequence of zero or one elements. */
  function AsSeq<T>(o: Option<T>): seq<T> {
    if o.Some? then [o.value] else []
  }

  /** The tenant registry visits a sequence of requests makes, in order. */
  function TenantConsults(requests: seq<Request>): (cs: seq<Consult<TenantId>>)
    ensures |cs| <= |requests|
    decreases |requests|
  {
    if requests == [] then []
    else
      var r := requests[0];
      AsSeq(TenantConsult(r.user, r.profile, r.verdicts)) + TenantConsults(requests[1..])
  }

  /** The customer registry visits a sequence of requests makes, in order. */
  function CustomerConsults(requests: seq<Request>): (cs: seq<Consult<CustomerId>>)
    ensures |cs| <= |requests|
    decreases |requests|
  {
    if requests == [] then []
    else
      var r := requests[0];
      AsSeq(CustomerConsult(r.user, r.profile, r.verdicts)) + CustomerConsults(requests[1..])
  }

  /** A registry replays a single optional visit followed by others. */
  lemma ReplayAfterVisit<K>(registry: map<K, Limits>, c: Option<Consult<K>>, cs: seq<Consult<K>>)
    ensures Replay(registry, AsSeq(c) + cs) == Replay(Visit(registry, c), cs)
  {
    if c.Some? {
      assert (AsSeq(c) + cs)[0] == c.value && (AsSeq(c) + cs)[1..] == cs;
    } else {
      assert AsSeq(c) + cs == cs;
    }
  }

  /** Over any sequence of requests, each registry evolves exactly by the
      visits the requests make to it, one after the other: the tenant and the
      customer registries are independent of each other. */
  lemma {:induction false} RunReplaysConsults(reg: Registries, requests: seq<Request>)
    ensures Run(reg, requests).tenants == Replay(reg.tenants, TenantConsults(requests))
    ensures Run(reg, requests).customers == Replay(reg.customers, CustomerConsults(requests))
    decreases |requests|
  {
    if requests != [] {
      var r := requests[0];
      var next := Filter(reg, r.user, r.profile, r.verdicts).registries;
      RunReplaysConsults(next, requests[1..]);
      ReplayAfterVisit(reg.tenants, TenantConsult(r.user, r.profile, r.verdicts), TenantConsults(requests[1..]));
      ReplayAfterVisit(reg.customers, CustomerConsult(r.user, r.profile, r.verdicts), CustomerConsults(requests[1..]));
    }
  }

  /** Registries only grow: no entry is ever removed, and each request adds
      at most one tenant and at most one customer. */
  lemma RunOnlyGrows(reg: Registries, requests: seq<Request>)
    ensures reg.tenants.Keys <= Run(reg, requests).tenants.Keys
    ensures reg.customers.Keys <= Run(reg, requests).customers.Keys
    ensures |Run(reg, requests).tenants.Keys| <= |reg.tenants.Keys| + |requests|
    ensures |Run(reg, requests).customers.Keys| <= |reg.customers.Keys| + |requests|
  {
    RunReplaysConsults(reg, requests);
    ReplayOnlyGrows(reg.tenants, TenantConsults(requests));
    ReplayOnlyGrows(reg.customers, CustomerConsults(requests));
  }

  /** A cached limiter is never rebuilt, whatever rule strings later requests
      carry: it keeps the configuration it was first built from, and it has
      been asked exactly by the requests of its own tenant (or customer) that
      reached it, in order. */
  lemma RunKeepsCachedLimiters(reg: Registries, requests: seq<Request>, t: TenantId, c: CustomerId)
    ensures t in reg.tenants ==>
      && t in Run(reg, requests).tenants
      && Run(reg, requests).tenants[t]
         == Limits(reg.tenants[t].configuration, reg.tenants[t].answers + Answers(TenantConsults(requests), t))
    ensures c in reg.customers ==>
      && c in Run(reg, requests).customers
      && Run(reg, requests).customers[c]
         == Limits(reg.customers[c].configuration, reg.customers[c].answers + Answers(CustomerConsults(requests), c))
  {
    RunReplaysConsults(reg, requests);
    if t in reg.tenants {
      ReplayKeepsCached(reg.tenants, TenantConsults(requests), t);
    }
    if c in reg.customers {
      ReplayKeepsCached(reg.customers, CustomerConsults(requests), c);
    }
  }

  /** A tenant (or customer) without a cached limiter gets one exactly when
      some request reaches its registry visit, and that limiter is built
      from the rule string of the first such request. */
  lemma RunCreatesOnFirstRequest(reg: Registries, requests: seq<Request>, t: TenantId, c: CustomerId)
    ensures t !in reg.tenants ==>
      && (t in Run(reg, requests).tenants <==> FirstConfiguration(TenantConsults(requests), t).Some?)
      && (t in Run(reg, requests).tenants ==>
            Run(reg, requests).tenants[t]
            == Limits(FirstConfiguration(TenantConsults(requests), t).value, Answers(TenantConsults(requests), t)))
    ensures c !in reg.customers ==>
      && (c in Run(reg, requests).customers <==> FirstConfiguration(CustomerConsults(requests), c).Some?)
      && (c in Run(reg, requests).customers ==>
            Run(reg, requests).customers[c]
            == Limits(FirstConfiguration(CustomerConsults(requests), c).value, Answers(CustomerConsults(requests), c)))
  {
    RunReplaysConsults(reg, requests);
    if t !in reg.tenants {
      ReplayCreatesOnFirstConsult(reg.tenants, TenantConsults(requests), t);
    }
    if c !in reg.customers {
      ReplayCreatesOnFirstConsult(reg.customers, CustomerConsults(requests), c);
    }
  }
}
