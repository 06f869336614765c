/**
 * Create-or-update of Kubernetes objects (k8s/roles.go, k8s/serviceaccount.go) against the API
 * server's store. The store keeps cluster role bindings by name and service accounts by namespace
 * and name; creating an object that exists is refused as AlreadyExists, updating one that does not
 * is refused as NotFound, and any request may also be refused for a reason outside this model
 * (authorisation, transport), which the `refusal` oracle decides. Decoding the YAML document is not
 * modelled: the decoded object, or the decode error, is a parameter.
 */
module K8s {
  import opened Wrappers

  /** metav1.NamespaceSystem */
  const NamespaceSystem := "kube-system"

  datatype Subject = Subject(kind: string, name: string, apiGroup: string)
  datatype ClusterRoleBinding = ClusterRoleBinding(name: string, roleRef: string, subjects: seq<Subject>)
  datatype ServiceAccount = ServiceAccount(name: string, secrets: seq<string>)

  /** The requests the upserts send. */
  datatype ApiCall =
    | CreateBinding(binding: ClusterRoleBinding)
    | UpdateBinding(binding: ClusterRoleBinding)
    | CreateAccount(namespace: string, account: ServiceAccount)
    | UpdateAccount(namespace: string, account: ServiceAccount)

  /** The errors the upserts return. */
  datatype ApiError =
    | DecodeError(message: string)
    | AlreadyExists(name: string)
    | NotFound(name: string)
    | Other(message: string)

  /** Whether the API server refuses a request for a reason of its own, given the requests before it. */
  type Refusal = (seq<ApiCall>, ApiCall) -> Option<string>

  /** The binding ApplySystemNodeClusterRoleBinding installs: the "system:node" role for the "system:nodes" group. */
  const SystemNodeBinding := ClusterRoleBinding(
    "system:node", "system:node", [Subject("Group", "system:nodes", "rbac.authorization.k8s.io")])

  /** The API server's store of the two kinds of object, and the requests it has received. */
  class ApiServer {
    var bindings: map<string, ClusterRoleBinding>
    var accounts: map<(string, string), ServiceAccount>
    var requests: seq<ApiCall>
    const refusal: Refusal

    constructor (refusal: Refusal)
      ensures bindings == map[] && accounts == map[] && requests == []
      ensures this.refusal == refusal
    {
      this.refusal := refusal;
      bindings := map[];
      accounts := map[];
      requests := [];
    }

    /** Create a binding: refused, AlreadyExists when its name is taken, otherwise stored. */
    method CreateBinding(b: ClusterRoleBinding) returns (err: Option<ApiError>)
      modifies this
      ensures requests == old(requests) + [ApiCall.CreateBinding(b)] && accounts == old(accounts)
      ensures old(refusal(requests, ApiCall.CreateBinding(b))).Some? ==>
        err == Some(Other(old(refusal(requests, ApiCall.CreateBinding(b))).value)) && bindings == old(bindings)
      ensures old(refusal(requests, ApiCall.CreateBinding(b))).None? && b.name in old(bindings) ==>
        err == Some(AlreadyExists(b.name)) && bindings == old(bindings)
      ensures old(refusal(requests, ApiCall.CreateBinding(b))).None? && b.name !in old(bindings) ==>
        err == None && bindings == old(bindings)[b.name := b]
    {
      var refused := refusal(requests, ApiCall.CreateBinding(b));
      requests := requests + [ApiCall.CreateBinding(b)];
      if refused.Some? {
        err := Some(Other(refused.value));
      } else if b.name in bindings {
        err := Some(AlreadyExists(b.name));
      } else {
        bindings := bindings[b.name := b];
        err := None;
      }
    }

    /** Update a binding: refused, NotFound when its name is free, otherwise replaced. */
    method UpdateBinding(b: ClusterRoleBinding) returns (err: Option<ApiError>)
      modifies this
      ensures requests == old(requests) + [ApiCall.UpdateBinding(b)] && accounts == old(accounts)
      ensures old(refusal(requests, ApiCall.UpdateBinding(b))).Some? ==>
        err == Some(Other(old(refusal(requests, ApiCall.UpdateBinding(b))).value)) && bindings == old(bindings)
      ensures old(refusal(requests, ApiCall.UpdateBinding(b))).None? && b.name !in old(bindings) ==>
        err == Some(NotFound(b.name)) && bindings == old(bindings)
      ensures old(refusal(requests, ApiCall.UpdateBinding(b))).None? && b.name in old(bindings) ==>
        err == None && bindings == old(bindings)[b.name := b]
    {
      var refused := refusal(requests, ApiCall.UpdateBinding(b));
      requests := requests + [ApiCall.UpdateBinding(b)];
      if refused.Some? {
        err := Some(Other(refused.value));
      } else if b.name !in bindings {
        err := Some(NotFound(b.name));
      } else {
        bindings := bindings[b.name := b];
        err := None;
      }
    }

    /** Create a service account in a namespace: refused, AlreadyExists when taken, otherwise stored. */
    method CreateAccount(namespace: string, a: ServiceAccount) returns (err: Option<ApiError>)
      modifies this
      ensures requests == old(requests) + [ApiCall.CreateAccount(namespace, a)] && bindings == old(bindings)
      ensures old(refusal(requests, ApiCall.CreateAccount(namespace, a))).Some? ==>
        err == Some(Other(old(refusal(requests, ApiCall.CreateAccount(namespace, a))).value)) && accounts == old(accounts)
      ensures old(refusal(requests, ApiCall.CreateAccount(namespace, a))).None? && (namespace, a.name) in old(accounts) ==>
        err == Some(AlreadyExists(a.name)) && accounts == old(accounts)
      ensures old(refusal(requests, ApiCall.CreateAccount(namespace, a))).None? && (namespace, a.name) !in old(accounts) ==>
        err == None && accounts == old(accounts)[(namespace, a.name) := a]
    {
      var refused := refusal(requests, ApiCall.CreateAccount(namespace, a));
      requests := requests + [ApiCall.CreateAccount(namespace, a)];
      if refused.Some? {
        err := Some(Other(refused.value));
      } else if (namespace, a.name) in accounts {
        err := Some(AlreadyExists(a.name));
      } else {
        accounts := accounts[(namespace, a.name) := a];
        err := None;
      }
    }

    /** Update a service account in a namespace: refused, NotFound when free, otherwise replaced. */
    method UpdateAccount(namespace: string, a: ServiceAccount) returns (err: Option<ApiError>)
      modifies this
      ensures requests == old(requests) + [ApiCall.UpdateAccount(namespace, a)] && bindings == old(bindings)
      ensures old(refusal(requests, ApiCall.UpdateAccount(namespace, a))).Some? ==>
        err == Some(Other(old(refusal(requests, ApiCall.UpdateAccount(namespace, a))).value)) && accounts == old(accounts)
      ensures old(refusal(requests, ApiCall.UpdateAccount(namespace, a))).None? && (namespace, a.name) !in old(accounts) ==>
        err == Some(NotFound(a.name)) && accounts == old(accounts)
      ensures old(refusal(requests, ApiCall.UpdateAccount(namespace, a))).None? && (namespace, a.name) in old(accounts) ==>
        err == None && accounts == old(accounts)[(namespace, a.name) := a]
    {
      var refused := refusal(requests, ApiCall.UpdateAccount(namespace, a));
      requests := requests + [ApiCall.UpdateAccount(namespace, a)];
      if refused.Some? {
        err := Some(Other(refused.value));
      } else if (namespace, a.name) !in accounts {
        err := Some(NotFound(a.name));
      } else {
        accounts := accounts[(namespace, a.name) := a];
        err := None;
      }
    }
  }

  /**
   * UpdateClusterRoleBinding: a decode error is returned before any request. Otherwise the binding
   * is created; when it already exists it is updated exactly once and that update's error is
   * returned; any other create error is returned with no update. On success the store holds the
   * binding under its name, whatever it held before, and no other binding changed.
   */
  method UpdateClusterRoleBinding(server: ApiServer, decoded: Result<ClusterRoleBinding>) returns (err: Option<ApiError>)
    modifies server
    ensures server.accounts == old(server.accounts)
    ensures decoded.Err? ==> err == Some(DecodeError(decoded.error)) && unchanged(server)
    ensures decoded.Ok? ==>
      var b := decoded.value;
      && |server.requests| - |old(server.requests)| in {1, 2}
      && server.requests[..|old(server.requests)| + 1] == old(server.requests) + [ApiCall.CreateBinding(b)]
      && (|server.requests| == |old(server.requests)| + 2 <==>
            old(server.refusal(server.requests, ApiCall.CreateBinding(b))).None? && b.name in old(server.bindings))
      && (|server.requests| == |old(server.requests)| + 2 ==> server.requests[|server.requests| - 1] == ApiCall.UpdateBinding(b))
    ensures decoded.Ok? && err.None? ==> server.bindings == old(server.bindings)[decoded.value.name := decoded.value]
    ensures decoded.Ok? && err.Some? ==> server.bindings == old(server.bindings)
    ensures decoded.Ok? && err.Some? ==> !err.value.AlreadyExists?
    ensures decoded.Ok? ==>
      var b := decoded.value;
      var created := old(server.refusal(server.requests, ApiCall.CreateBinding(b)));
      var updated := server.refusal(old(server.requests) + [ApiCall.CreateBinding(b)], ApiCall.UpdateBinding(b));
      && (created.Some? ==> err == Some(Other(created.value)))
      && (created.None? && b.name !in old(server.bindings) ==> err == None)
      && (created.None? && b.name in old(server.bindings) ==>
            err == if updated.Some? then Some(Other(updated.value)) else None)
  {
    if decoded.Err? {
      return Some(DecodeError(decoded.error));
    }
    var clusterRoleBinding := decoded.value;
    err := server.CreateBinding(clusterRoleBinding);
    if err.Some? {
      if err.value.AlreadyExists? {
        err := server.UpdateBinding(clusterRoleBinding);
      }
    }
  }

  /**
   * UpdateServiceAccount: the same create-or-update for a service account, always in the
   * kube-system namespace.
   */
  method UpdateServiceAccount(server: ApiServer, decoded: Result<ServiceAccount>) returns (err: Option<ApiError>)
    modifies server
    ensures server.bindings == old(server.bindings)
    ensures decoded.Err? ==> err == Some(DecodeError(decoded.error)) && unchanged(server)
    ensures decoded.Ok? ==>
      var a := decoded.value;
      && |server.requests| - |old(server.requests)| in {1, 2}
      && server.requests[..|old(server.requests)| + 1] == old(server.requests) + [ApiCall.CreateAccount(NamespaceSystem, a)]
      && (|server.requests| == |old(server.requests)| + 2 <==>
            old(server.refusal(server.requests, ApiCall.CreateAccount(NamespaceSystem, a))).None?
            && (NamespaceSystem, a.name) in old(server.accounts))
      && (|server.requests| == |old(server.requests)| + 2 ==>
            server.requests[|server.requests| - 1] == ApiCall.UpdateAccount(NamespaceSystem, a))
    ensures decoded.Ok? && err.None? ==>
      server.accounts == old(server.accounts)[(NamespaceSystem, decoded.value.name) := decoded.value]
    ensures decoded.Ok? && err.Some? ==> server.accounts == old(server.accounts)
    ensures decoded.Ok? && err.Some? ==> !err.value.AlreadyExists?
    ensures decoded.Ok? ==>
      var a := decoded.value;
      var created := old(server.refusal(server.requests, ApiCall.CreateAccount(NamespaceSystem, a)));
      var updated := server.refusal(old(server.requests) + [ApiCall.CreateAccount(NamespaceSystem, a)],
                                    ApiCall.UpdateAccount(NamespaceSystem, a));
      && (created.Some? ==> err == Some(Other(created.value)))
      && (created.None? && (NamespaceSystem, a.name) !in old(server.accounts) ==> err == None)
      && (created.None? && (NamespaceSystem, a.name) in old(server.accounts) ==>
            err == if updated.Some? then Some(Other(updated.value)) else None)
  {
    if decoded.Err? {
      return Some(DecodeError(decoded.error));
    }
    var serviceAccount := decoded.value;
    err := server.CreateAccount(NamespaceSystem, serviceAccount);
    if err.Some? {
      if err.value.AlreadyExists? {
        err := server.UpdateAccount(NamespaceSystem, serviceAccount);
      }
    }
  }

  /**
   * ApplySystemNodeClusterRoleBinding over the outcome of creating the API client: a client error is
   * returned before any request; otherwise the "system:node" binding for the "system:nodes" group
   * is upserted.
   */
  method ApplySystemNodeClusterRoleBinding(server: ApiServer, client: Outcome) returns (err: Option<ApiError>)
    modifies server
    ensures client.Fail? ==> err == Some(Other(client.error)) && unchanged(server)
    ensures client.Pass? ==>
      && |server.requests| > |old(server.requests)|
      && server.requests[|old(server.requests)|] == ApiCall.CreateBinding(SystemNodeBinding)
    ensures client.Pass? && err.None? ==> server.bindings == old(server.bindings)["system:node" := SystemNodeBinding]
  {
    if client.Fail? {
      return Some(Other(client.error));
    }
    err := UpdateClusterRoleBinding(server, Ok(SystemNodeBinding));
  }
}
