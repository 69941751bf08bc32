# Rate-limit admission filter

A Dafny model of ThingsBoard's `RateLimitProcessingFilter`. This servlet filter sits in front of the REST API.

For every request from an authenticated user who is not a system administrator, it reads the default profile configuration of the user's tenant. That configuration may hold two rule strings: one for the whole tenant and one per customer. For each rule string that is set, the filter:

- fetches the caller's limiter from a cache, creating it from the rule string the first time (`computeIfAbsent`);
- asks the limiter for a permit (`tryConsume`);
- on a refusal, writes a TENANT- or CUSTOMER-scoped "too many requests" error and stops.

A request that is not refused goes on down the filter chain.

The model has three files:

- `wrappers.dfy`: `Option`, standing for Java's nullable references.
- `rate_limits.dfy` (module `RateLimits`): the limiter and its registries.
  - The limiter is abstract. `TbRateLimits` is the mutable object and `Limits` its value. A limiter records the rule string it was built from and the answers its `tryConsume` has given. The answers themselves are inputs.
  - `ComputeIfAbsentAndConsume` is one get-or-create-and-ask step, on values.
  - `Replay` applies a sequence of such steps.
  - `ComputeIfAbsent` and `ComputeIfAbsentAndTryConsume` do the same on maps of limiter objects.
- `filter.dfy` (module `RateLimitFilter`): the filter itself.
  - The caller, profile, decision and registry datatypes.
  - `Filter`, the value-level specification of one `doFilter` call.
  - The class `RateLimitProcessingFilter`. It has the two registry fields `perTenantLimits` and `perCustomerLimits`, maps from ids to limiter objects. Its `DoFilter` is imperative, with the source's early returns, and is proved to do what `Filter` says.
  - `Run`, which chains requests, with lemmas about what registries look like after any sequence of requests.

Inputs standing for collaborators:

- The user that `getCurrentUser` would return is the `user` parameter. `None` means no authenticated `SecurityUser`.
- The result of `tenantProfileCache.get(tenantId).getDefaultTenantProfileConfiguration()` is the `profile` parameter.
- What the tenant's and the customer's limiters would answer at this moment is the `verdicts` parameter. The model never constrains it.
- The servlet chain and the error handler are replaced by the returned `Decision`: `Forward`, `Reject(TENANT)` or `Reject(CUSTOMER)`.

The customer check is easily read as an alternative to the tenant check ("else if"), but the model follows the code, where the two checks run one after the other. When a tenant rule is set and its limiter grants a permit, the customer limiter is still asked. A customer rejection therefore comes after the tenant limiter has already used up a permit. `Filter` records this in `consulted`, which is `[TENANT, CUSTOMER]` in that case.

## Model

| member | source | states |
|---|---|---|
| `RateLimitFilter.Filter` | application/src/main/java/org/thingsboard/server/config/RateLimitProcessingFilter.java:55-85 | With no user, or a system administrator, or no profile configuration: forward, touch no registry, ask no limiter. The tenant registry is visited (get-or-create, then ask) exactly when the tenant rule string is neither null nor empty; otherwise it is unchanged. The customer registry is visited exactly when the customer rule string is set and the tenant limiter did not refuse; otherwise it is unchanged. Limiters are asked tenant first. The result is `Reject(TENANT)` iff the tenant limiter refused, and then the customer registry is untouched. It is `Reject(CUSTOMER)` iff the customer limiter was asked and refused. It is `Forward` iff neither check refused. |
| `RateLimitFilter.RateLimitProcessingFilter.DoFilter` | application/src/main/java/org/thingsboard/server/config/RateLimitProcessingFilter.java:55-85 | The imperative `doFilter` on the two map fields returns the decision `Filter` gives. Afterwards the registries hold the limiter states `Filter` gives. Every limiter object already cached stays under its key, as the same object. Every added entry is a new object. No two entries share a limiter. Its ghost `consulted` output, extended at each limiter call, equals `Filter`'s: the tenant limiter, when asked, is asked before the customer limiter. |
| `RateLimitFilter.RateLimitProcessingFilter.ConsumeTenant` | application/src/main/java/org/thingsboard/server/config/RateLimitProcessingFilter.java:64-67 | Get-or-create of the tenant's limiter followed by `tryConsume`. The tenant registry changes as `ComputeIfAbsentAndConsume` says. The customer registry and its limiters are unchanged. The answer is the limiter's. |
| `RateLimitFilter.RateLimitProcessingFilter.ConsumeCustomer` | application/src/main/java/org/thingsboard/server/config/RateLimitProcessingFilter.java:74-77 | The same for the customer registry, keyed by the user's customer id. The tenant registry and its limiters are unchanged. |
| `RateLimitFilter.RateLimitProcessingFilter.constructor` | application/src/main/java/org/thingsboard/server/config/RateLimitProcessingFilter.java:51-52 | Both registries start empty. |
| `RateLimits.ComputeIfAbsentAndConsume` | application/src/main/java/org/thingsboard/server/config/RateLimitProcessingFilter.java:64-67 | `computeIfAbsent(key, k -> new TbRateLimits(config)).tryConsume()` on values. It has no contract of its own; `GetOrCreate` states what it does. |
| `RateLimitFilter.IsNotEmpty` | application/src/main/java/org/thingsboard/server/config/RateLimitProcessingFilter.java:62 | `StringUtils.isNotEmpty` on a nullable rule string, as used at lines 62 and 72: neither null nor empty. It has no contract of its own; `Filter` states that a registry is visited exactly when it holds. |
| `RateLimitFilter.Limited` | application/src/main/java/org/thingsboard/server/config/RateLimitProcessingFilter.java:57-61 | The guards of lines 57 and 61: an authenticated user who is not a system administrator, and a non-null profile configuration. It has no contract of its own; `Filter`'s first two ensures state that without it the request is forwarded and nothing is touched. |
| `RateLimitFilter.TenantConsult` | application/src/main/java/org/thingsboard/server/config/RateLimitProcessingFilter.java:62-66 | The tenant visit a request makes: keyed by the user's tenant id, with the tenant rule string, only for a limited request whose tenant rule is not empty. It has no contract of its own; `Filter` states the tenant registry in its terms. |
| `RateLimitFilter.CustomerConsult` | application/src/main/java/org/thingsboard/server/config/RateLimitProcessingFilter.java:67-76 | The customer visit a request makes: keyed by the user's customer id, with the customer rule string, only when the customer rule is not empty and the tenant check did not return early at lines 67-70. It has no contract of its own; `Filter` states the customer registry in its terms. |
| `RateLimitFilter.TenantRejects` | application/src/main/java/org/thingsboard/server/config/RateLimitProcessingFilter.java:67 | The tenant limiter was asked and refused. It has no contract of its own; `Filter`'s ensures state that the decision is `Reject(TENANT)` exactly when it holds, and that the customer registry is then untouched. |
| `RateLimitFilter.CustomerRejects` | application/src/main/java/org/thingsboard/server/config/RateLimitProcessingFilter.java:77 | The customer limiter was asked and refused. It has no contract of its own; `Filter`'s ensures state that the decision is `Reject(CUSTOMER)` exactly when it holds, and `Forward` exactly when neither rejection holds. |
| `RateLimitFilter.Visit` | application/src/main/java/org/thingsboard/server/config/RateLimitProcessingFilter.java:64-67 | A registry after a request's optional visit. It has no contract of its own; `ReplayAfterVisit` and `RunReplaysConsults` state it in terms of `Replay`. |
| `RateLimitFilter.Run` | application/src/main/java/org/thingsboard/server/config/RateLimitProcessingFilter.java:55-85 | Successive `doFilter` calls on one filter bean, oldest first. It has no contract of its own; `RunReplaysConsults`, `RunOnlyGrows`, `RunKeepsCachedLimiters` and `RunCreatesOnFirstRequest` state what it does. |
| `RateLimits.GetOrCreate` | application/src/main/java/org/thingsboard/server/config/RateLimitProcessingFilter.java:64-66 | After get-or-create-and-ask, the key set is the old one plus the key, so it grows by at most one. An existing entry keeps its configuration even when the current rule string differs, and only records the answer. A missing entry is built from the current rule string. Every other entry is unchanged. |
| `RateLimits.ComputeIfAbsent` | application/src/main/java/org/thingsboard/server/config/RateLimitProcessingFilter.java:64-66 | `computeIfAbsent` on limiter objects. A present key returns its cached limiter and leaves the map as it is. An absent key stores and returns a new limiter built from the configuration, not yet asked. |
| `RateLimits.ComputeIfAbsentAndTryConsume` | application/src/main/java/org/thingsboard/server/config/RateLimitProcessingFilter.java:64-67 | `computeIfAbsent(...).tryConsume()` on limiter objects. The registry's states change exactly as `ComputeIfAbsentAndConsume` says, cached objects stay under their keys, and no limiter of the other registry changes. |
| `RateLimits.TryConsumeCached` | application/src/main/java/org/thingsboard/server/config/RateLimitProcessingFilter.java:67 | Asking the limiter cached under a key changes that limiter's state only. |
| `RateLimits.TbRateLimits.TryConsume` | application/src/main/java/org/thingsboard/server/config/RateLimitProcessingFilter.java:67 | `tryConsume` returns the token bucket's answer and records it. The configuration never changes. |
| `RateLimits.TbRateLimits.constructor` | application/src/main/java/org/thingsboard/server/config/RateLimitProcessingFilter.java:65 | `new TbRateLimits(config)` records the rule string it was built from and has not been asked yet. |
| `RateLimits.Replay` | application/src/main/java/org/thingsboard/server/config/RateLimitProcessingFilter.java:64-67 | One registry under successive get-or-create-and-ask visits, oldest first. It has no contract of its own; `ReplayOnlyGrows`, `ReplayKeepsCached` and `ReplayCreatesOnFirstConsult` state what it does. |
| `RateLimits.Answers` | application/src/main/java/org/thingsboard/server/config/RateLimitProcessingFilter.java:67 | The answers addressed to one key by a sequence of visits, in order: the reference against which `ReplayKeepsCached` states a cached limiter's history. |
| `RateLimits.FirstConfiguration` | application/src/main/java/org/thingsboard/server/config/RateLimitProcessingFilter.java:65 | The rule string of the first visit of a key: the reference against which `ReplayCreatesOnFirstConsult` states a new limiter's configuration. |
| `RateLimits.ReplayOnlyGrows` | application/src/main/java/org/thingsboard/server/config/RateLimitProcessingFilter.java:64-66 | Over any sequence of get-or-create steps no key is removed, and the key count grows by at most one per step. |
| `RateLimits.ReplayKeepsCached` | application/src/main/java/org/thingsboard/server/config/RateLimitProcessingFilter.java:64-67 | A cached limiter is never replaced. It keeps its configuration whatever later steps carry, and its history grows by exactly the answers addressed to its key, in order. |
| `RateLimits.ReplayCreatesOnFirstConsult` | application/src/main/java/org/thingsboard/server/config/RateLimitProcessingFilter.java:64-67 | An uncached key is present afterwards iff some step addressed it. Its limiter is then built from the configuration of the first such step. |
| `RateLimitFilter.TenantConsults` | application/src/main/java/org/thingsboard/server/config/RateLimitProcessingFilter.java:62-70 | A sequence of requests makes at most one tenant-registry visit per request. |
| `RateLimitFilter.CustomerConsults` | application/src/main/java/org/thingsboard/server/config/RateLimitProcessingFilter.java:72-80 | A sequence of requests makes at most one customer-registry visit per request. |
| `RateLimitFilter.ReplayAfterVisit` | application/src/main/java/org/thingsboard/server/config/RateLimitProcessingFilter.java:62-81 | One request's optional visit followed by later visits replays as the visit and then the later ones. |
| `RateLimitFilter.RunReplaysConsults` | application/src/main/java/org/thingsboard/server/config/RateLimitProcessingFilter.java:62-81 | After any sequence of requests, each registry is exactly the replay of the visits the requests made to it. The two registries evolve independently. |
| `RateLimitFilter.RunOnlyGrows` | application/src/main/java/org/thingsboard/server/config/RateLimitProcessingFilter.java:51-85 | Over any sequence of requests both key sets only grow, each by at most one key per request. |
| `RateLimitFilter.RunKeepsCachedLimiters` | application/src/main/java/org/thingsboard/server/config/RateLimitProcessingFilter.java:64-76 | A tenant's or customer's cached limiter is never rebuilt, whatever rule strings later profiles carry. It has been asked exactly by the later requests that reached it, in order. |
| `RateLimitFilter.RunCreatesOnFirstRequest` | application/src/main/java/org/thingsboard/server/config/RateLimitProcessingFilter.java:64-76 | A tenant or customer with no cached limiter gets one iff some request reaches its registry visit. That limiter is built from the rule string of the first such request. |

## Left out

- `TbRateLimits` internals are not part of this model: the token-bucket arithmetic, the parsing of rule strings such as `"10:1,600:60"`, and construction failing on a malformed string. The class is not among the modelled sources. A limiter is abstract and its answers are inputs.
- `RateLimits.TbRateLimits.TryConsume`: its answer is the `granted` input, not derived from any bucket state. The model says nothing about how many permits a rule string allows.
- Concurrency is not modelled. `ConcurrentHashMap.computeIfAbsent` (lines 51-52, 64, 74) runs at most one construction under racing callers, a guarantee of the Java library. The maps are modelled sequentially.
- Spring wiring and the security context are replaced by inputs: the `@Autowired` fields (lines 45-49) and `getCurrentUser` (lines 87-94). The user is an input.
- `tenantProfileCache.get` (line 59) is an external cache, so the profile configuration is an input. If the cache itself returned null, the Java code would throw a NullPointerException. The model does not cover that case.
- The servlet plumbing is replaced by the returned `Decision`: `chain.doFilter` (line 84), and `errorResponseHandler.handle` writing the error response (lines 68, 78).
- Null tenant or customer ids are not covered: the model assumes both ids are non-null. In Java, `ConcurrentHashMap.computeIfAbsent` would throw a NullPointerException on a null key (lines 64 and 74).
- Tenant and customer ids are opaque values. The model does not say which customer id a `SecurityUser` that belongs to no customer carries.
