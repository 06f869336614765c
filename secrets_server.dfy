/**
 * The outside world secrets encryption talks to: the provider document deployed on the control
 * plane, the document kube-apiserver has loaded, the document committed to the cluster state
 * file, and the stored secrets. Remote answers come from an oracle; the effect of a call that
 * succeeds is fixed by `Apply`.
 */
module SecretsServer {
  import opened Wrappers
  import opened Steps
  import opened EncryptionConfig

  /** A secret, by namespace and name. */
  datatype SecretRef = SecretRef(namespace: string, name: string)

  /** The remote calls the encryption code makes. */
  datatype Call =
    | DeployProviderFile(file: ProviderFile)  // deployFile on the control-plane hosts
    | CommitState(file: ProviderFile)         // UpdateClusterCurrentState
    | RestartKubeAPI                          // RestartKubeAPIWithHealthcheck
    | NewKubeClient                           // k8s.NewClient
    | ListSecrets                             // k8s.GetSecretsList
    | UpdateSecret(secret: SecretRef)         // k8s.UpdateSecret
    | GetSecret(secret: SecretRef)            // k8s.GetSecret

  /** The calls that change or read provider documents, as opposed to the per-secret API calls. */
  predicate IsDocumentCall(c: Call)
  {
    c.DeployProviderFile? || c.CommitState? || c.RestartKubeAPI?
  }

  /** The documents in force and the stored secrets. */
  datatype ServerState = ServerState(
    deployed: ProviderFile,
    loaded: ProviderFile,
    committed: ProviderFile,
    secrets: map<SecretRef, Seal>)

  /** The effect of call `c` answered by `o`: a failed call changes nothing. */
  function Apply(s: ServerState, c: Call, o: Outcome): (t: ServerState)
    ensures t.secrets.Keys == s.secrets.Keys
  {
    if o.Fail? then s
    else match c
      case DeployProviderFile(f) => s.(deployed := f)
      case CommitState(f) => s.(committed := f)
      case RestartKubeAPI => s.(loaded := s.deployed)
      case UpdateSecret(r) =>
        if r in s.secrets then s.(secrets := s.secrets[r := WriteSeal(s.loaded)]) else s
      case _ => s
  }

  /**
   * Every stored secret can be read under every document in force: the loaded one now, the
   * deployed one after the next restart, the committed one after the next deployment.
   */
  ghost predicate Readable(s: ServerState)
  {
    forall r <- s.secrets ::
      CanRead(s.secrets[r], s.deployed) && CanRead(s.secrets[r], s.loaded) && CanRead(s.secrets[r], s.committed)
  }

  /** A seal that only uses keys in `keys`. */
  predicate SealIn(s: Seal, keys: set<Key>)
  {
    s.Plain? || s.key in keys
  }

  /** Every secret is sealed with a key of `keys`, and every document in force can read all of `keys`. */
  ghost predicate Guarded(s: ServerState, keys: set<Key>)
  {
    && (forall r <- s.secrets :: SealIn(s.secrets[r], keys))
    && keys <= ReadKeys(s.deployed) && keys <= ReadKeys(s.loaded) && keys <= ReadKeys(s.committed)
  }

  lemma GuardedIsReadable(s: ServerState, keys: set<Key>)
    requires Guarded(s, keys)
    ensures Readable(s)
  {
  }

  /** Call `c` keeps secrets within `keys` readable: documents it installs read all of `keys`, secrets it writes use them. */
  ghost predicate Keeps(s: ServerState, c: Call, keys: set<Key>)
  {
    match c
    case DeployProviderFile(f) => keys <= ReadKeys(f)
    case CommitState(f) => keys <= ReadKeys(f)
    case UpdateSecret(_) => SealIn(WriteSeal(s.loaded), keys)
    case _ => true
  }

  /** A call that keeps `keys` preserves the guard, whatever its answer. */
  lemma ApplyKeepsGuard(s: ServerState, c: Call, o: Outcome, keys: set<Key>)
    requires Guarded(s, keys) && Keeps(s, c, keys)
    ensures Guarded(Apply(s, c, o), keys)
  {
  }

  /**
   * `t` differs from `s` only in secrets re-written under `s`'s loaded document: documents and
   * the set of secrets are the same, and every secret keeps its seal or carries the write seal.
   */
  ghost predicate Resealed(s: ServerState, t: ServerState)
  {
    && t.deployed == s.deployed && t.loaded == s.loaded && t.committed == s.committed
    && t.secrets.Keys == s.secrets.Keys
    && forall r <- t.secrets :: t.secrets[r] == s.secrets[r] || t.secrets[r] == WriteSeal(s.loaded)
  }

  lemma ResealedTransitive(s: ServerState, t: ServerState, u: ServerState)
    requires Resealed(s, t) && Resealed(t, u)
    ensures Resealed(s, u)
  {
  }

  /** Re-sealing with a write seal inside `keys` keeps the guard. */
  lemma ResealedKeepsGuard(s: ServerState, t: ServerState, keys: set<Key>)
    requires Guarded(s, keys) && SealIn(WriteSeal(s.loaded), keys) && Resealed(s, t)
    ensures Guarded(t, keys)
  {
  }

  /** The outside world with its state, the calls issued so far and, as ghost state, every state it went through. */
  class Remote {
    /** The answer to each call, given the calls issued before it. */
    const answer: World<Call>
    /** apierrors.IsConflict: whether an error is a version conflict. */
    const isConflict: string -> bool
    /** The secrets a successful listing returns, in order. */
    const listing: seq<SecretRef>

    var issued: seq<Call>
    var deployed: ProviderFile
    var loaded: ProviderFile
    var committed: ProviderFile
    var secrets: map<SecretRef, Seal>
    ghost var history: seq<ServerState>

    function State(): ServerState
      reads this
    {
      ServerState(deployed, loaded, committed, secrets)
    }

    /** The listing names exactly the stored secrets, and the history ends in the present state. */
    ghost predicate Valid()
      reads this
    {
      && (forall r :: r in secrets <==> r in listing)
      && |history| >= 1 && history[|history| - 1] == State()
    }

    constructor (answer: World<Call>, isConflict: string -> bool, listing: seq<SecretRef>,
                 start: ServerState)
      requires forall r :: r in start.secrets <==> r in listing
      ensures Valid()
      ensures this.answer == answer && this.isConflict == isConflict && this.listing == listing
      ensures issued == [] && State() == start && history == [start]
    {
      this.answer := answer;
      this.isConflict := isConflict;
      this.listing := listing;
      issued := [];
      deployed := start.deployed;
      loaded := start.loaded;
      committed := start.committed;
      secrets := start.secrets;
      history := [start];
    }

    /** Issue one call: the oracle answers it and, when it succeeds, its effect takes place. */
    method Invoke(c: Call) returns (o: Outcome)
      requires Valid()
      modifies this
      ensures Valid()
      ensures o == answer(old(issued), c)
      ensures issued == old(issued) + [c]
      ensures State() == Apply(old(State()), c, o)
      ensures history == old(history) + [State()]
    {
      o := answer(issued, c);
      issued := issued + [c];
      if o.Pass? {
        match c {
          case DeployProviderFile(f) => deployed := f;
          case CommitState(f) => committed := f;
          case RestartKubeAPI => loaded := deployed;
          case UpdateSecret(r) =>
            if r in secrets {
              secrets := secrets[r := WriteSeal(loaded)];
            }
          case _ =>
        }
      }
      history := history + [State()];
    }
  }
}
