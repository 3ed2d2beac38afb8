/**
 * The data hooks: the query keys they build, the `enabled` guards, the
 * options each hook passes, and which cached queries a successful
 * mutation invalidates (every query whose key starts with the invalidated
 * key).
 */
module ApiHooks {
  import opened Wrappers
  import QueryProvider

  /** One element of a query key: a string, a number or `undefined`. */
  datatype KeyPart = KStr(s: string) | KNum(n: int) | KUndefined

  type QueryKey = seq<KeyPart>

  const FormsKey: QueryKey := [KStr("forms")]
  const SubmissionsKey: QueryKey := [KStr("submissions")]

  /** `queryKeys.form(id)`. */
  function FormKey(id: string): (k: QueryKey)
    ensures |k| == 2 && k[..1] == FormsKey && k[1] == KStr(id)
  {
    [KStr("forms"), KStr(id)]
  }

  /** `queryKeys.states(country)`. */
  function StatesKey(country: string): (k: QueryKey)
    ensures |k| == 2 && k[0] == KStr("states") && k[1] == KStr(country)
  {
    [KStr("states"), KStr(country)]
  }

  /** An optional argument as a key element. */
  function ArgPart(x: Option<int>): KeyPart {
    if x.Some? then KNum(x.value) else KUndefined
  }

  /** `[...queryKeys.submissions, page, limit]`. */
  function SubmissionsPageKey(page: Option<int>, limit: Option<int>): (k: QueryKey)
    ensures |k| == 3 && k[..1] == SubmissionsKey && k[1..] == [ArgPart(page), ArgPart(limit)]
  {
    SubmissionsKey + [ArgPart(page), ArgPart(limit)]
  }

  /** Distinct arguments give distinct keys. */
  lemma KeysInjective(a: string, b: string, p1: Option<int>, l1: Option<int>, p2: Option<int>, l2: Option<int>)
    ensures FormKey(a) == FormKey(b) ==> a == b
    ensures StatesKey(a) == StatesKey(b) ==> a == b
    ensures SubmissionsPageKey(p1, l1) == SubmissionsPageKey(p2, l2) ==> p1 == p2 && l1 == l2
  {
    if SubmissionsPageKey(p1, l1) == SubmissionsPageKey(p2, l2) {
      assert ArgPart(p1) == SubmissionsPageKey(p1, l1)[1] && ArgPart(l1) == SubmissionsPageKey(p1, l1)[2];
    }
    if FormKey(a) == FormKey(b) { assert FormKey(a)[1] == FormKey(b)[1]; }
    if StatesKey(a) == StatesKey(b) { assert StatesKey(a)[1] == StatesKey(b)[1]; }
  }

  /** The key families never collide. */
  lemma KeyFamiliesDisjoint(a: string, b: string, p: Option<int>, l: Option<int>)
    ensures FormKey(a) != StatesKey(b) && FormKey(a) != SubmissionsPageKey(p, l)
    ensures StatesKey(b) != SubmissionsPageKey(p, l) && FormKey(a) != FormsKey
  {
    assert FormKey(a)[0] != StatesKey(b)[0];
    assert FormKey(a)[0] != SubmissionsPageKey(p, l)[0];
    assert StatesKey(b)[0] != SubmissionsPageKey(p, l)[0];
  }

  /** Invalidating `prefix` marks every cached query whose key starts with it. */
  predicate Invalidates(prefix: QueryKey, key: QueryKey) {
    |prefix| <= |key| && key[..|prefix|] == prefix
  }

  /** The key every mutation's success handler invalidates. */
  const InvalidatedOnSuccess: QueryKey := SubmissionsKey

  /** A successful mutation refreshes every page of submissions and no form or states query. */
  lemma MutationRefreshesSubmissions(page: Option<int>, limit: Option<int>, id: string, country: string)
    ensures Invalidates(InvalidatedOnSuccess, SubmissionsPageKey(page, limit))
    ensures !Invalidates(InvalidatedOnSuccess, FormsKey)
    ensures !Invalidates(InvalidatedOnSuccess, FormKey(id))
    ensures !Invalidates(InvalidatedOnSuccess, StatesKey(country))
  {
    assert FormsKey[0] != SubmissionsKey[0];
    assert FormKey(id)[..1] == FormsKey;
    assert StatesKey(country)[..1] == [KStr("states")];
  }

  /** `enabled: !!country`. */
  predicate StatesEnabled(country: string) {
    country != ""
  }

  /** `enabled: !!formId`. */
  predicate FormEnabled(formId: string) {
    formId != ""
  }

  /** What a hook asks the server for. */
  datatype Fetch = GetForms | GetFormById(formId: string) | GetSubmissions(page: Option<int>, limit: Option<int>)
                 | GetStates(country: string)

  /** The options a query hook passes; `retry` and `delay` are None where the client defaults apply. */
  datatype QueryOptions = QueryOptions(key: QueryKey, fetch: Fetch, enabled: bool, staleMillis: nat, cacheMillis: nat,
                                       retry: Option<QueryProvider.RetryPolicy>, delay: Option<QueryProvider.DelayPolicy>)

  /** `useForms`: three retries whatever the status, with the capped back-off. */
  function UseForms(): (q: QueryOptions)
    ensures q.key == FormsKey && q.fetch == GetForms && q.enabled
  {
    QueryOptions(FormsKey, GetForms, true, 5 * 60 * 1000, 10 * 60 * 1000,
                 Some(QueryProvider.Count(3)), Some(QueryProvider.Backoff))
  }

  function UseForm(formId: string): (q: QueryOptions)
    ensures q.key == FormKey(formId) && q.fetch == GetFormById(formId)
    ensures q.enabled <==> FormEnabled(formId)
  {
    QueryOptions(FormKey(formId), GetFormById(formId), FormEnabled(formId), 5 * 60 * 1000, 10 * 60 * 1000, None, None)
  }

  function UseSubmissions(page: Option<int>, limit: Option<int>): (q: QueryOptions)
    ensures q.key == SubmissionsPageKey(page, limit) && q.fetch == GetSubmissions(page, limit) && q.enabled
    ensures Invalidates(InvalidatedOnSuccess, q.key)
  {
    QueryOptions(SubmissionsPageKey(page, limit), GetSubmissions(page, limit), true, 2 * 60 * 1000, 5 * 60 * 1000,
                 None, None)
  }

  function UseStates(country: string): (q: QueryOptions)
    ensures q.key == StatesKey(country) && q.fetch == GetStates(country)
    ensures q.enabled <==> StatesEnabled(country)
  {
    QueryOptions(StatesKey(country), GetStates(country), StatesEnabled(country), 10 * 60 * 1000, 30 * 60 * 1000,
                 None, None)
  }

  /** The states request asks for the very country that keys its cache entry. */
  lemma StatesFetchMatchesKey(country: string)
    ensures UseStates(country).fetch.GetStates?
    ensures UseStates(country).key[1] == KStr(UseStates(country).fetch.country)
  {
  }

  /** The retry policy in force: the hook's own, or the client default. */
  function EffectiveRetry(q: QueryOptions): QueryProvider.RetryPolicy {
    if q.retry.Some? then q.retry.value else QueryProvider.QueryDefaults.retry
  }

  function EffectiveDelay(q: QueryOptions): QueryProvider.DelayPolicy {
    if q.delay.Some? then q.delay.value else QueryProvider.QueryDefaults.delay
  }

  /** `retry: 3` on the forms query replaces the status-aware default, so a
      404 for the form list is retried three times, where the states query gives up at once. */
  lemma FormsRetryIgnoresStatus(country: string)
    ensures QueryProvider.Waits(EffectiveRetry(UseForms()), EffectiveDelay(UseForms()), Some(404), 0)
            == [1000, 2000, 4000]
    ensures QueryProvider.Waits(EffectiveRetry(UseStates(country)), EffectiveDelay(UseStates(country)), Some(404), 0)
            == []
  {
    assert QueryProvider.Waits(QueryProvider.Count(3), QueryProvider.Backoff, Some(404), 3) == [];
    assert QueryProvider.Pow2(2) == 4;
  }
}
