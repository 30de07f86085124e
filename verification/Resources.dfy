/** Resource lists (Go's v1.ResourceList): quantities by resource name, as integers. */
module Resources {

  type ResourceList = map<string, int>

  function Amount(list: ResourceList, r: string): int {
    if r in list then list[r] else 0
  }

  predicate NonNegative(list: ResourceList) {
    forall r :: r in list ==> 0 <= list[r]
  }

  /** What `addResourcesToRQ` leaves in a hard map: the same keys, shared ones raised. */
  function Plus(hard: ResourceList, add: ResourceList): ResourceList {
    map r | r in hard :: hard[r] + Amount(add, r)
  }

  /** Raising again what raising by `add` left as it was leaves it again. */
  lemma PlusTwice(hard: ResourceList, add: ResourceList)
    ensures Plus(hard, add) == hard ==> Plus(Plus(hard, add), add) == Plus(hard, add)
  {
  }

  // ---------------------------------------------------------------- the quota check

  /** Whether a quota's scopes select the pod, and whether the check can evaluate it at all. */
  datatype Scope = Applies | DoesNotApply | Fails

  datatype Verdict = Admitted | Exceeded | OtherError

  /** Kubernetes' admission check of one pod against one quota, three-way. */
  function Check(scope: Scope, hard: ResourceList, used: ResourceList, request: ResourceList): Verdict {
    if scope == Fails || !NonNegative(request) then OtherError
    else if scope == DoesNotApply then Admitted
    else if exists r | r in request :: Overruns(hard, used, request, r) then Exceeded
    else Admitted
  }

  predicate Overruns(hard: ResourceList, used: ResourceList, request: ResourceList, r: string)
    requires r in request
  {
    request[r] != 0 && r in hard && hard[r] < Amount(used, r) + request[r]
  }
}
