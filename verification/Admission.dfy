/** The namespace lock: which requests the locking webhook intercepts
    (pkg/validating-webhook-lock) and how the lock server answers them
    (pkg/mtq-lock-server/validation). */
module Admission {

  datatype Operation = Create | Update | Delete

  /** One API request. `labels` is None when the pod object does not parse. */
  datatype Request = Request(operation: Operation, resource: string, kind: string, user: string, labels: Labels)
  datatype Labels = Unreadable | Labels(keys: set<string>)

  datatype Rule = Rule(operations: set<Operation>, resources: set<string>)

  /** The rule table of `getLockingValidatingWebhook`. */
  const RULES: seq<Rule> := [
    Rule({Update}, {"resourcequotas"}),
    Rule({Delete, Create}, {"virtualmachinemigrationresourcequotas"}),
    Rule({Create}, {"pods"})
  ]

  predicate Intercepted(request: Request) {
    exists i | 0 <= i < |RULES| :: request.operation in RULES[i].operations && request.resource in RULES[i].resources
  }

  datatype Answer = Review(allowed: bool, code: int) | NoAnswer

  const ACCEPTED := 202
  const FORBIDDEN := 403

  const VIRT_CONTROLLER := "kubevirt-controller"
  const MTQ_CONTROLLER := "mtq-controller"
  const MIGRATION_JOB_LABEL := "kubevirt.io/migrationJobUID"

  function ServiceAccount(namespace: string, name: string): string {
    "system:serviceaccount:" + namespace + ":" + name
  }

  function Validate(request: Request, kubevirtNs: string, mtqNs: string): Answer {
    if request.kind == "VirtualMachineMigrationResourceQuota" then ValidateRQCtlModification(request, mtqNs)
    else if request.kind == "ResourceQuota" then ValidateRQCtlModification(request, mtqNs)
    else if request.kind == "Pod" then ValidateTargetVirtLauncherPod(request, kubevirtNs)
    else NoAnswer
  }

  function ValidateRQCtlModification(request: Request, mtqNs: string): Answer {
    if request.user == ServiceAccount(mtqNs, MTQ_CONTROLLER) then Review(true, ACCEPTED)
    else Review(false, FORBIDDEN)
  }

  function ValidateTargetVirtLauncherPod(request: Request, kubevirtNs: string): Answer {
    if request.user != ServiceAccount(kubevirtNs, VIRT_CONTROLLER) then Review(false, FORBIDDEN)
    else if request.labels.Unreadable? then NoAnswer
    else if MIGRATION_JOB_LABEL !in request.labels.keys then Review(false, FORBIDDEN)
    else Review(true, ACCEPTED)
  }

  /** Does the API server let the request through? The webhook's failure policy is Fail,
      so an intercepted request needs an answer, and the answer must allow it. */
  predicate Passes(locked: bool, request: Request, kubevirtNs: string, mtqNs: string) {
    locked && Intercepted(request) ==>
      var answer := Validate(request, kubevirtNs, mtqNs);
      answer.Review? && answer.allowed
  }

  // ---------------------------------------------------------------- the requests that matter

  function QuotaRequest(operation: Operation, user: string): Request {
    Request(operation, "resourcequotas", "ResourceQuota", user, Labels({}))
  }

  function VmmrqRequest(operation: Operation, user: string): Request {
    Request(operation, "virtualmachinemigrationresourcequotas", "VirtualMachineMigrationResourceQuota", user, Labels({}))
  }

  function PodRequest(user: string, labels: Labels): Request {
    Request(Create, "pods", "Pod", user, labels)
  }

  /** A pod created by virt-controller for a migration. */
  predicate MigrationTarget(user: string, labels: Labels, kubevirtNs: string) {
    user == ServiceAccount(kubevirtNs, VIRT_CONTROLLER) && labels.Labels? && MIGRATION_JOB_LABEL in labels.keys
  }

  /** The user is the service account of that name in the namespace, letter by letter: `suffix` is a
      colon and the name. */
  predicate Spells(user: string, namespace: string, suffix: string) {
    && |user| == 22 + |namespace| + |suffix|
    && user[..22] == "system:serviceaccount:"
    && user[22..22 + |namespace|] == namespace
    && user[22 + |namespace|..] == suffix
  }

  lemma AccountSpelled(user: string, namespace: string, name: string)
    ensures user == ServiceAccount(namespace, name) <==> Spells(user, namespace, ":" + name)
  {
    assert |"system:serviceaccount:"| == 22;
    var account := ServiceAccount(namespace, name);
    assert account == "system:serviceaccount:" + namespace + (":" + name);
    if Spells(user, namespace, ":" + name) {
      assert user == user[..22] + user[22..22 + |namespace|] + user[22 + |namespace|..];
    }
  }

  /** Exactly what the lock does to the three kinds of object it is there to protect: nobody but the
      account mtq-controller of its own namespace updates a quota or creates or deletes a VMMRQ, and the
      only pods that start carry the migration label and come from the account kubevirt-controller of
      KubeVirt's namespace. Creating and deleting quotas, and updating a VMMRQ, stay open to everyone. */
  lemma LockGuards(user: string, labels: Labels, operation: Operation, kubevirtNs: string, mtqNs: string)
    ensures Passes(true, PodRequest(user, labels), kubevirtNs, mtqNs) <==> MigrationTarget(user, labels, kubevirtNs)
    ensures MigrationTarget(user, labels, kubevirtNs) <==>
            Spells(user, kubevirtNs, ":kubevirt-controller") && labels.Labels? && "kubevirt.io/migrationJobUID" in labels.keys
    ensures Passes(true, QuotaRequest(operation, user), kubevirtNs, mtqNs)
       <==> operation != Update || Spells(user, mtqNs, ":mtq-controller")
    ensures Passes(true, VmmrqRequest(operation, user), kubevirtNs, mtqNs)
       <==> operation == Update || Spells(user, mtqNs, ":mtq-controller")
    ensures Spells(user, mtqNs, ":mtq-controller") <==> user == ServiceAccount(mtqNs, MTQ_CONTROLLER)
  {
    assert RULES[0] == Rule({Update}, {"resourcequotas"});
    assert RULES[1] == Rule({Delete, Create}, {"virtualmachinemigrationresourcequotas"});
    assert RULES[2] == Rule({Create}, {"pods"});
    assert Intercepted(PodRequest(user, labels));
    DistinctResources();
    AccountSpelled(user, mtqNs, MTQ_CONTROLLER);
    AccountSpelled(user, kubevirtNs, VIRT_CONTROLLER);
    assert ":" + MTQ_CONTROLLER == ":mtq-controller" && ":" + VIRT_CONTROLLER == ":kubevirt-controller";
  }

  /** What the lock server answers, in every case. */
  lemma ValidateExactly(request: Request, kubevirtNs: string, mtqNs: string)
    ensures request.kind == "ResourceQuota" || request.kind == "VirtualMachineMigrationResourceQuota" ==>
      Validate(request, kubevirtNs, mtqNs) == if Spells(request.user, mtqNs, ":mtq-controller") then Review(true, 202) else Review(false, 403)
    ensures request.kind == "Pod" ==>
      Validate(request, kubevirtNs, mtqNs) ==
        if !Spells(request.user, kubevirtNs, ":kubevirt-controller") then Review(false, 403)
        else if request.labels.Unreadable? then NoAnswer
        else if "kubevirt.io/migrationJobUID" in request.labels.keys then Review(true, 202)
        else Review(false, 403)
    ensures request.kind != "ResourceQuota" && request.kind != "VirtualMachineMigrationResourceQuota" && request.kind != "Pod" ==>
      Validate(request, kubevirtNs, mtqNs) == NoAnswer
  {
    AccountSpelled(request.user, mtqNs, MTQ_CONTROLLER);
    AccountSpelled(request.user, kubevirtNs, VIRT_CONTROLLER);
    assert ":" + MTQ_CONTROLLER == ":mtq-controller" && ":" + VIRT_CONTROLLER == ":kubevirt-controller";
    DistinctResources();
  }

  /** Accounts of these names in any other namespace are refused. */
  lemma OtherNamespacesRefused(other: string, labels: Labels, kubevirtNs: string, mtqNs: string)
    ensures other != mtqNs ==>
      !Passes(true, QuotaRequest(Update, "system:serviceaccount:" + other + ":mtq-controller"), kubevirtNs, mtqNs)
    ensures other != kubevirtNs ==>
      !Passes(true, PodRequest("system:serviceaccount:" + other + ":kubevirt-controller", labels), kubevirtNs, mtqNs)
  {
    var mtq := "system:serviceaccount:" + other + ":mtq-controller";
    var virt := "system:serviceaccount:" + other + ":kubevirt-controller";
    LockGuards(mtq, labels, Update, kubevirtNs, mtqNs);
    LockGuards(virt, labels, Create, kubevirtNs, mtqNs);
    assert |"system:serviceaccount:"| == 22;
    assert mtq[22..22 + |other|] == other && virt[22..22 + |other|] == other;
  }

  /** And in their own they are let through. */
  lemma OwnAccountsPass(keys: set<string>, kubevirtNs: string, mtqNs: string)
    requires "kubevirt.io/migrationJobUID" in keys
    ensures Passes(true, QuotaRequest(Update, "system:serviceaccount:" + mtqNs + ":mtq-controller"), kubevirtNs, mtqNs)
    ensures Passes(true, PodRequest("system:serviceaccount:" + kubevirtNs + ":kubevirt-controller", Labels(keys)), kubevirtNs, mtqNs)
  {
    var mtq := "system:serviceaccount:" + mtqNs + ":mtq-controller";
    var virt := "system:serviceaccount:" + kubevirtNs + ":kubevirt-controller";
    assert |"system:serviceaccount:"| == 22;
    assert Spells(mtq, mtqNs, ":mtq-controller") && Spells(virt, kubevirtNs, ":kubevirt-controller");
    LockGuards(mtq, Labels(keys), Update, kubevirtNs, mtqNs);
    LockGuards(virt, Labels(keys), Create, kubevirtNs, mtqNs);
  }

  lemma DistinctResources()
    ensures "pods" != "resourcequotas" && "pods" != "virtualmachinemigrationresourcequotas"
    ensures "resourcequotas" != "virtualmachinemigrationresourcequotas"
    ensures "Pod" != "ResourceQuota" && "Pod" != "VirtualMachineMigrationResourceQuota"
  {
    assert |"pods"| == 4 && |"resourcequotas"| == 14 && |"virtualmachinemigrationresourcequotas"| == 37;
    assert |"Pod"| == 3 && |"ResourceQuota"| == 13 && |"VirtualMachineMigrationResourceQuota"| == 36;
  }
}
