/**
 * Secrets encryption (cluster/encryption.go): deciding what to do when the encryption settings
 * change, disabling encryption, rotating the key, and rewriting every secret so that it is
 * stored under the document kube-apiserver has loaded.
 */
module Encryption {
  import opened Wrappers
  import opened Steps
  import opened Hosts
  import opened Rewrite
  import opened EncryptionConfig
  import opened SecretsServer

  /** The part of the current cluster (from the state file) that reconciling reads; nil is None. */
  datatype CurrentCluster = CurrentCluster(secretsEncryption: Option<SecretsEncryptionConfig>, providerFile: ProviderFile)

  function CurrentConfig(current: Option<CurrentCluster>): Option<SecretsEncryptionConfig>
  {
    if current.None? then None else current.value.secretsEncryption
  }

  // ----- the fixed step sequences -----

  /** Deploy a document and restart kube-apiserver: how a disable installs the identity-first document. */
  function InstallPlan(f: ProviderFile): seq<Call>
  {
    [DeployProviderFile(f), RestartKubeAPI]
  }

  /** Deploy a document, commit it to the cluster state and restart kube-apiserver: how a rotation installs a document. */
  function CommitPlan(f: ProviderFile): seq<Call>
  {
    [DeployProviderFile(f), CommitState(f), RestartKubeAPI]
  }

  /** Deploy `f` and restart kube-apiserver, stopping at the first error: Run of InstallPlan(f), by InstallIsRun. */
  function Install(answer: World<Call>, done: seq<Call>, f: ProviderFile): Exec<Call>
  {
    var deploy := answer(done, DeployProviderFile(f));
    if deploy.Fail? then Exec([DeployProviderFile(f)], deploy)
    else Exec(InstallPlan(f), answer(done + [DeployProviderFile(f)], RestartKubeAPI))
  }

  /**
   * Deploy `f`, commit it to the cluster state and restart kube-apiserver, stopping at the first
   * error: Run of CommitPlan(f), by CommitIsRun.
   */
  function Commit(answer: World<Call>, done: seq<Call>, f: ProviderFile): Exec<Call>
  {
    var deploy := answer(done, DeployProviderFile(f));
    if deploy.Fail? then Exec([DeployProviderFile(f)], deploy)
    else
      var commit := answer(done + [DeployProviderFile(f)], CommitState(f));
      if commit.Fail? then Exec([DeployProviderFile(f), CommitState(f)], commit)
      else Exec(CommitPlan(f), answer(done + [DeployProviderFile(f), CommitState(f)], RestartKubeAPI))
  }

  lemma InstallIsRun(answer: World<Call>, done: seq<Call>, f: ProviderFile)
    ensures Install(answer, done, f) == Run(answer, done, InstallPlan(f))
  {
    RunTwo(answer, done, DeployProviderFile(f), RestartKubeAPI);
  }

  lemma CommitIsRun(answer: World<Call>, done: seq<Call>, f: ProviderFile)
    ensures Commit(answer, done, f) == Run(answer, done, CommitPlan(f))
  {
    RunThree(answer, done, DeployProviderFile(f), CommitState(f), RestartKubeAPI);
  }

  /**
   * The calls and error of the document steps that ran first (`first`) followed, when they all
   * succeeded, by the rewrite of every secret: the first half of both a disable and a rotation.
   */
  function RewriteAfter(rewrite: SecretsRewrite, done: seq<Call>, first: Exec<Call>): Exec<Call>
  {
    if first.outcome.Fail? then first
    else
      var rw := rewrite(done + first.issued);
      Exec(first.issued + rw.issued, rw.outcome)
  }

  /**
   * The calls and error of DisableSecretsEncryption once the active key `k` of the current
   * document is known: deploy the identity-first document, restart, rewrite the secrets, deploy
   * the empty document.
   */
  function DisableSteps(answer: World<Call>, rewrite: SecretsRewrite, done: seq<Call>,
                        k: Key): Exec<Call>
  {
    var pre := RewriteAfter(rewrite, done, Install(answer, done, Disabled(k)));
    if pre.outcome.Fail? then pre
    else Exec(pre.issued + [DeployProviderFile(Empty)], answer(done + pre.issued, DeployProviderFile(Empty)))
  }

  /**
   * The calls and error of RotateEncryptionKey with the new key `n` and the old active key `o`:
   * deploy [n, o], commit, restart, rewrite the secrets, deploy [n], commit, restart.
   */
  function RotateSteps(answer: World<Call>, rewrite: SecretsRewrite, done: seq<Call>,
                       n: Key, o: Key): Exec<Call>
  {
    var pre := RewriteAfter(rewrite, done, Commit(answer, done, KeyList([n, o])));
    if pre.outcome.Fail? then pre
    else
      var last := Commit(answer, done + pre.issued, KeyList([n]));
      Exec(pre.issued + last.issued, last.outcome)
  }

  /** The document calls of a trace, in order: what changes which document is in force. */
  function DocumentCalls(calls: seq<Call>): seq<Call>
    decreases |calls|
  {
    if calls == [] then []
    else (if IsDocumentCall(calls[0]) then [calls[0]] else []) + DocumentCalls(calls[1..])
  }

  lemma {:induction false} DocumentCallsAppend(a: seq<Call>, b: seq<Call>)
    ensures DocumentCalls(a + b) == DocumentCalls(a) + DocumentCalls(b)
    decreases |a|
  {
    if a == [] {
      assert a + b == b;
    } else {
      assert (a + b)[0] == a[0];
      assert (a + b)[1..] == a[1..] + b;
      DocumentCallsAppend(a[1..], b);
    }
  }

  lemma {:induction false} NoDocumentCalls(calls: seq<Call>)
    requires forall c <- calls :: !IsDocumentCall(c)
    ensures DocumentCalls(calls) == []
    decreases |calls|
  {
    if calls != [] {
      assert calls[0] in calls;
      NoDocumentCalls(calls[1..]);
    }
  }

  /** DocumentCalls drops no document call. */
  lemma {:induction false} DocumentCallsKeep(calls: seq<Call>, c: Call)
    requires c in calls && IsDocumentCall(c)
    ensures c in DocumentCalls(calls)
    decreases |calls|
  {
    if calls[0] != c {
      assert c in calls[1..];
      DocumentCallsKeep(calls[1..], c);
    }
  }

  /** A prefix of a plan of document calls is kept whole by DocumentCalls. */
  lemma {:induction false} DocumentsOfPrefix(plan: seq<Call>, m: nat)
    requires m <= |plan|
    requires forall c <- plan :: IsDocumentCall(c)
    ensures DocumentCalls(plan[..m]) == plan[..m]
    decreases m
  {
    if m > 0 {
      DocumentsOfPrefix(plan, m - 1);
      assert plan[..m] == plan[..m - 1] + [plan[m - 1]];
      DocumentCallsAppend(plan[..m - 1], [plan[m - 1]]);
      assert DocumentCalls([plan[m - 1]]) == [plan[m - 1]];
    }
  }

  /** A run of document calls issues a prefix of its plan, all of it kept by DocumentCalls. */
  lemma DocumentsOfRun(world: World<Call>, done: seq<Call>, plan: seq<Call>)
    requires forall c <- plan :: IsDocumentCall(c)
    ensures var e := Run(world, done, plan);
      DocumentCalls(e.issued) == e.issued && e.issued <= plan && (e.outcome.Pass? ==> e.issued == plan)
  {
    var e := Run(world, done, plan);
    RunShape(world, done, plan);
    DocumentsOfPrefix(plan, |e.issued|);
  }

  lemma PrefixTransitive<T>(a: seq<T>, b: seq<T>, c: seq<T>)
    requires a <= b && b <= c
    ensures a <= c
  {
    assert a == b[..|a|] && b == c[..|b|];
    assert c[..|b|][..|a|] == c[..|a|];
  }

  /**
   * The document calls of document steps followed by a rewrite are a prefix of the steps, and
   * all of them when the rewrite ran; the rewrite runs only after every step succeeded.
   */
  lemma RewriteAfterDocuments(answer: World<Call>, rewrite: SecretsRewrite, done: seq<Call>,
                              plan: seq<Call>)
    requires forall c <- plan :: IsDocumentCall(c)
    requires TouchesNoDocument(rewrite)
    ensures var e := RewriteAfter(rewrite, done, Run(answer, done, plan));
      && DocumentCalls(e.issued) <= plan
      && (e.outcome.Pass? ==> DocumentCalls(e.issued) == plan && Run(answer, done, plan) == Exec(plan, Pass))
  {
    var first := Run(answer, done, plan);
    DocumentsOfRun(answer, done, plan);
    if first.outcome.Pass? {
      var rw := rewrite(done + plan);
      NoDocumentCalls(rw.issued);
      DocumentCallsAppend(plan, rw.issued);
    }
  }

  /**
   * A disable's document calls are a prefix of deploy the identity-first document, restart,
   * deploy the empty document, and all three when it returns nil; the empty document is deployed
   * if and only if the first two steps and the rewrite of every secret succeeded.
   */
  lemma DisableOrder(answer: World<Call>, rewrite: SecretsRewrite, done: seq<Call>, k: Key)
    requires TouchesNoDocument(rewrite)
    ensures var e := DisableSteps(answer, rewrite, done, k);
      && DocumentCalls(e.issued) <= [DeployProviderFile(Disabled(k)), RestartKubeAPI, DeployProviderFile(Empty)]
      && (e.outcome.Pass? ==>
            DocumentCalls(e.issued) == [DeployProviderFile(Disabled(k)), RestartKubeAPI, DeployProviderFile(Empty)])
      && (DeployProviderFile(Empty) in e.issued <==>
            RewriteAfter(rewrite, done, Install(answer, done, Disabled(k))).outcome.Pass?)
  {
    var p1 := InstallPlan(Disabled(k));
    var last := [DeployProviderFile(Empty)];
    var plan := p1 + last;
    assert plan == [DeployProviderFile(Disabled(k)), RestartKubeAPI, DeployProviderFile(Empty)];
    var e := DisableSteps(answer, rewrite, done, k);
    var pre := RewriteAfter(rewrite, done, Install(answer, done, Disabled(k)));
    InstallIsRun(answer, done, Disabled(k));
    RewriteAfterDocuments(answer, rewrite, done, p1);
    if pre.outcome.Pass? {
      assert e.issued == pre.issued + last;
      DocumentCallsAppend(pre.issued, last);
      assert DocumentCalls(last) == last;
    } else {
      assert e == pre;
      PrefixTransitive(DocumentCalls(e.issued), p1, plan);
      if DeployProviderFile(Empty) in e.issued {
        DocumentCallsKeep(e.issued, DeployProviderFile(Empty));
      }
    }
  }

  /** The rotation plan's document calls. */
  function RotationPlan(n: Key, o: Key): seq<Call>
  {
    CommitPlan(KeyList([n, o])) + CommitPlan(KeyList([n]))
  }

  /**
   * A rotation's document calls are a prefix of deploy [n, o], commit, restart, deploy [n],
   * commit, restart, and all of them when it returns nil; the one-key document is deployed if
   * and only if the first three steps and the rewrite of every secret succeeded.
   */
  lemma RotateOrder(answer: World<Call>, rewrite: SecretsRewrite, done: seq<Call>, n: Key, o: Key)
    requires TouchesNoDocument(rewrite)
    ensures var e := RotateSteps(answer, rewrite, done, n, o);
      && DocumentCalls(e.issued) <= RotationPlan(n, o)
      && (e.outcome.Pass? ==> DocumentCalls(e.issued) == RotationPlan(n, o))
      && (DeployProviderFile(KeyList([n])) in e.issued <==>
            RewriteAfter(rewrite, done, Commit(answer, done, KeyList([n, o]))).outcome.Pass?)
  {
    var p1 := CommitPlan(KeyList([n, o]));
    var p2 := CommitPlan(KeyList([n]));
    var plan := RotationPlan(n, o);
    assert plan[..3] == p1;
    var e := RotateSteps(answer, rewrite, done, n, o);
    var pre := RewriteAfter(rewrite, done, Commit(answer, done, KeyList([n, o])));
    CommitIsRun(answer, done, KeyList([n, o]));
    RewriteAfterDocuments(answer, rewrite, done, p1);
    if pre.outcome.Pass? {
      var last := Commit(answer, done + pre.issued, KeyList([n]));
      CommitIsRun(answer, done + pre.issued, KeyList([n]));
      DocumentsOfRun(answer, done + pre.issued, p2);
      RunShape(answer, done + pre.issued, p2);
      assert last.issued[0] == DeployProviderFile(KeyList([n]));
      DocumentCallsAppend(pre.issued, last.issued);
      assert DocumentCalls(e.issued) == p1 + last.issued;
    } else {
      assert e == pre;
      PrefixTransitive(DocumentCalls(e.issued), p1, plan);
      if DeployProviderFile(KeyList([n])) in e.issued {
        DocumentCallsKeep(e.issued, DeployProviderFile(KeyList([n])));
      }
    }
  }

  // ----- the history stays readable -----

  /** Every state from index `from` on is readable. */
  ghost predicate ReadableFrom(h: seq<ServerState>, from: nat)
  {
    forall i | from <= i < |h| :: Readable(h[i])
  }

  /** A call that keeps the guard keeps the history readable. */
  lemma GuardStep(h: seq<ServerState>, from: nat, s: ServerState, c: Call, o: Outcome, keys: set<Key>, guarded: bool)
    requires guarded ==> ReadableFrom(h, from) && Guarded(s, keys) && Keeps(s, c, keys)
    ensures guarded ==> Guarded(Apply(s, c, o), keys) && ReadableFrom(h + [Apply(s, c, o)], from)
  {
    if guarded {
      ApplyKeepsGuard(s, c, o, keys);
      GuardedIsReadable(Apply(s, c, o), keys);
    }
  }

  /** Re-sealing under a write seal inside the guard keeps the history readable and guarded. */
  lemma GuardThroughRewrite(hb: seq<ServerState>, h: seq<ServerState>, from: nat, s: ServerState, keys: set<Key>,
                            guarded: bool)
    requires guarded ==> ReadableFrom(hb, from) && Guarded(s, keys) && SealIn(WriteSeal(s.loaded), keys)
    requires hb <= h
    requires forall i | |hb| <= i < |h| :: Resealed(s, h[i])
    ensures guarded ==> ReadableFrom(h, from) && forall i | |hb| <= i < |h| :: Guarded(h[i], keys)
  {
    if guarded {
      forall i | |hb| <= i < |h| ensures Guarded(h[i], keys) && Readable(h[i]) {
        ResealedKeepsGuard(s, h[i], keys);
        GuardedIsReadable(h[i], keys);
      }
      forall i | from <= i < |h| ensures Readable(h[i]) {
        if i < |hb| {
          assert h[i] == hb[i];
        }
      }
    }
  }

  /**
   * The document getEncryptionProviderFile returns for the cluster's document `f`: `f` itself
   * when it is not "", otherwise a one-key document with the freshly generated `key`.
   */
  function ProviderFileFor(f: ProviderFile, key: Key): ProviderFile
  {
    if f != Empty then f else KeyList([key])
  }

  /** The document returned is never "", a non-empty one is kept, and asking again returns the same document. */
  lemma ProviderFileForStable(f: ProviderFile, key: Key, again: Key)
    ensures ProviderFileFor(f, key) != Empty
    ensures f != Empty ==> ProviderFileFor(f, key) == f
    ensures f == Empty ==> ExtractActiveKey(ProviderFileFor(f, key)) == Ok(key)
    ensures ProviderFileFor(ProviderFileFor(f, key), again) == ProviderFileFor(f, key)
  {
  }

  /**
   * The calls and error of DisableSecretsEncryption with control-plane hosts, from the current
   * cluster's document `f`: a document without an active key fails before any call.
   */
  function DisableRun(answer: World<Call>, rewrite: SecretsRewrite, done: seq<Call>,
                      f: ProviderFile): Exec<Call>
  {
    match ExtractActiveKey(f)
    case Err(e) => Exec([], Fail(e))
    case Ok(k) => DisableSteps(answer, rewrite, done, k)
  }

  /**
   * The cluster's document after DisableSecretsEncryption from document `f`: "" when the key
   * extraction fails or when every step reached the last deployment, the identity-first
   * document when a step before it failed.
   */
  function DisabledFile(answer: World<Call>, rewrite: SecretsRewrite, done: seq<Call>,
                        f: ProviderFile): ProviderFile
  {
    match ExtractActiveKey(f)
    case Err(_) => Empty
    case Ok(k) =>
      if RewriteAfter(rewrite, done, Install(answer, done, Disabled(k))).outcome.Pass? then Empty
      else Disabled(k)
  }

  /** The cluster being brought up: the fields of Cluster the encryption code reads and writes. */
  class Cluster {
    var controlPlaneHosts: seq<Host>
    /** Services.KubeAPI.SecretsEncryptionConfig. */
    var secretsEncryption: Option<SecretsEncryptionConfig>
    /** EncryptionConfig.EncryptionProviderFile. */
    var providerFile: ProviderFile
    /** EncryptionConfig.RewriteSecrets. */
    var rewriteSecrets: bool

    constructor (controlPlaneHosts: seq<Host>, secretsEncryption: Option<SecretsEncryptionConfig>,
                 providerFile: ProviderFile)
      ensures this.controlPlaneHosts == controlPlaneHosts && this.secretsEncryption == secretsEncryption
      ensures this.providerFile == providerFile && !rewriteSecrets
    {
      this.controlPlaneHosts := controlPlaneHosts;
      this.secretsEncryption := secretsEncryption;
      this.providerFile := providerFile;
      rewriteSecrets := false;
    }

    /**
     * Act on a change of the encryption settings between the current cluster (None when there
     * is none) and this desired cluster, as Decide chooses: nothing, mark the secrets for a
     * rewrite, deploy "" in place of a custom document, or disable a generated document.
     */
    method ReconcileEncryptionProviderConfig(current: Option<CurrentCluster>, remote: Remote, ghost rewrite: SecretsRewrite) returns (err: Outcome)
      requires remote.Valid()
      requires RewritesAs(remote.answer, remote.isConflict, remote.listing, rewrite)
      modifies this, remote
      ensures remote.Valid()
      ensures controlPlaneHosts == old(controlPlaneHosts) && secretsEncryption == old(secretsEncryption)
      ensures var action := Decide(|controlPlaneHosts| > 0, secretsEncryption, CurrentConfig(current));
        && (action == NoAction ==> err == Pass && unchanged(this) && unchanged(remote))
        && (action == MarkRewrite ==>
              err == Pass && rewriteSecrets && providerFile == old(providerFile) && unchanged(remote))
        && (action == DisableCustom ==>
              && providerFile == Empty && rewriteSecrets == old(rewriteSecrets)
              && remote.issued == old(remote.issued) + [DeployProviderFile(Empty)]
              && err == remote.answer(old(remote.issued), DeployProviderFile(Empty)))
        && (action == DisableGenerated ==>
              var spec := DisableRun(remote.answer, rewrite, old(remote.issued),
                                     current.value.providerFile);
              && remote.issued == old(remote.issued) + spec.issued && err == spec.outcome
              && rewriteSecrets == old(rewriteSecrets)
              && providerFile == DisabledFile(remote.answer, rewrite, old(remote.issued),
                                              current.value.providerFile))
    {
      var action := Decide(|controlPlaneHosts| > 0, secretsEncryption, CurrentConfig(current));
      match action {
        case NoAction =>
          return Pass;
        case MarkRewrite =>
          rewriteSecrets := true;
          return Pass;
        case DisableCustom =>
          providerFile := Empty;
          err := DeployEncryptionProviderFile(remote);
        case DisableGenerated =>
          err := DisableSecretsEncryption(current.value, remote, rewrite);
      }
    }

    /** Deploy the current provider document to the control plane. */
    method DeployEncryptionProviderFile(remote: Remote) returns (err: Outcome)
      requires remote.Valid()
      modifies remote
      ensures remote.Valid()
      ensures remote.issued == old(remote.issued) + [DeployProviderFile(providerFile)]
      ensures err == remote.answer(old(remote.issued), DeployProviderFile(providerFile))
      ensures remote.State() == Apply(old(remote.State()), DeployProviderFile(providerFile), err)
      ensures remote.history == old(remote.history) + [remote.State()]
    {
      err := remote.Invoke(DeployProviderFile(providerFile));
    }

    /**
     * The cluster's provider document, generating and storing a one-key document with
     * `freshKey` (generateEncryptionKey's random key) when it is "".
     */
    method GetEncryptionProviderFile(freshKey: Key) returns (f: ProviderFile)
      modifies this
      ensures f == ProviderFileFor(old(providerFile), freshKey) && providerFile == f
      ensures controlPlaneHosts == old(controlPlaneHosts) && secretsEncryption == old(secretsEncryption)
      ensures rewriteSecrets == old(rewriteSecrets)
    {
      if providerFile != Empty {
        return providerFile;
      }
      providerFile := KeyList([freshKey]);
      f := providerFile;
    }

    /**
     * Rewrite every secret through the API so that it is stored under the loaded document. The
     * source spreads the secrets over concurrent workers; here they are rewritten in list order.
     */
    method RewriteSecrets(remote: Remote) returns (err: Outcome)
      requires remote.Valid()
      modifies remote
      ensures remote.Valid()
      ensures remote.issued == old(remote.issued) + RewriteAll(remote.answer, remote.isConflict, remote.listing, old(remote.issued)).issued
      ensures err == RewriteAll(remote.answer, remote.isConflict, remote.listing, old(remote.issued)).outcome
      ensures old(remote.history) <= remote.history
      ensures forall i | |old(remote.history)| <= i < |remote.history| :: Resealed(old(remote.State()), remote.history[i])
      ensures Resealed(old(remote.State()), remote.State())
      ensures err.Pass? ==> forall r <- remote.secrets :: remote.secrets[r] == WriteSeal(remote.loaded)
    {
      ghost var s0 := remote.State();
      ghost var start := remote.issued;
      ghost var h0 := |remote.history|;
      err := remote.Invoke(NewKubeClient);
      if err.Fail? {
        return Fail(ClientFailed + err.error);
      }
      err := remote.Invoke(ListSecrets);
      if err.Fail? {
        return;
      }
      assert remote.issued == start + [NewKubeClient, ListSecrets];
      assert remote.State() == s0 && Resealed(s0, s0);
      assert forall k | h0 <= k < |remote.history| :: remote.history[k] == s0;
      var errList := RewriteListed(remote, s0, h0);
      err := ErrList(errList);
      RewriteAllFromProgress(remote.answer, remote.isConflict, remote.listing, start, s0, h0,
                             remote.issued, remote.State(), remote.history, errList);
    }

    /**
     * Turn encryption off when the current cluster used a generated document: deploy a document
     * that writes plain text but still reads the active key, restart kube-apiserver, rewrite every
     * secret, and deploy the empty document. A failed key extraction leaves the document "".
     */
    method DisableSecretsEncryption(current: CurrentCluster, remote: Remote, ghost rewrite: SecretsRewrite) returns (err: Outcome)
      requires remote.Valid()
      requires RewritesAs(remote.answer, remote.isConflict, remote.listing, rewrite)
      modifies this, remote
      ensures remote.Valid()
      ensures controlPlaneHosts == old(controlPlaneHosts) && secretsEncryption == old(secretsEncryption)
      ensures rewriteSecrets == old(rewriteSecrets)
      ensures |controlPlaneHosts| == 0 ==>
        err == Pass && providerFile == old(providerFile) && unchanged(remote)
      ensures |controlPlaneHosts| > 0 ==>
        var spec := DisableRun(remote.answer, rewrite, old(remote.issued), current.providerFile);
        && remote.issued == old(remote.issued) + spec.issued
        && err == spec.outcome
        && providerFile == DisabledFile(remote.answer, rewrite, old(remote.issued),
                                        current.providerFile)
      ensures |controlPlaneHosts| > 0 && ExtractActiveKey(current.providerFile).Err? ==> unchanged(remote)
      ensures |controlPlaneHosts| > 0 && err.Pass? ==> forall r <- remote.secrets :: remote.secrets[r] == Plain
      ensures ExtractActiveKey(current.providerFile).Ok? &&
              old(Guarded(remote.State(), {ExtractActiveKey(current.providerFile).value})) ==>
        ReadableFrom(remote.history, |old(remote.history)|)
    {
      if |controlPlaneHosts| == 0 {
        return Pass;
      }
      var key := ExtractActiveKey(current.providerFile);
      if key.Err? {
        providerFile := Empty;
        return Fail(key.error);
      }
      var k := key.value;
      ghost var h0 := |remote.history|;
      ghost var guarded := Guarded(remote.State(), {k});
      err := PrepareDisable(this, k, remote, rewrite, guarded, h0);
      if err.Fail? {
        return;
      }
      ghost var before := remote.issued;
      providerFile := Empty;
      GuardStep(remote.history, h0, remote.State(), DeployProviderFile(Empty),
                remote.answer(before, DeployProviderFile(Empty)), {}, guarded);
      err := DeployEncryptionProviderFile(remote);
    }

    /**
     * Rotate the encryption key: make `newKey` the active key in front of the current active key,
     * deploy, commit and restart; rewrite every secret under it; then drop the old key, deploy,
     * commit and restart again. `newKey` stands for generateEncryptionKey's fresh random key.
     */
    method RotateEncryptionKey(newKey: Key, remote: Remote, ghost rewrite: SecretsRewrite) returns (err: Outcome)
      requires remote.Valid()
      requires RewritesAs(remote.answer, remote.isConflict, remote.listing, rewrite)
      modifies this, remote
      ensures remote.Valid()
      ensures controlPlaneHosts == old(controlPlaneHosts) && secretsEncryption == old(secretsEncryption)
      ensures rewriteSecrets == old(rewriteSecrets)
      ensures ExtractActiveKey(old(providerFile)).Err? ==>
        err == Fail(ExtractActiveKey(old(providerFile)).error) && providerFile == old(providerFile) && unchanged(remote)
      ensures ExtractActiveKey(old(providerFile)).Ok? ==>
        var o := ExtractActiveKey(old(providerFile)).value;
        var spec := RotateSteps(remote.answer, rewrite, old(remote.issued), newKey, o);
        && remote.issued == old(remote.issued) + spec.issued
        && err == spec.outcome
        && providerFile ==
             (if RewriteAfter(rewrite, old(remote.issued), Commit(remote.answer, old(remote.issued), KeyList([newKey, o]))).outcome.Pass?
              then KeyList([newKey]) else KeyList([newKey, o]))
      ensures err.Pass? ==>
        && remote.deployed == KeyList([newKey]) && remote.loaded == KeyList([newKey]) && remote.committed == KeyList([newKey])
        && ReadKeys(remote.deployed) == {newKey}
        && forall r <- remote.secrets :: remote.secrets[r] == Sealed(newKey)
      ensures ExtractActiveKey(old(providerFile)).Ok? &&
              old(Guarded(remote.State(), {ExtractActiveKey(providerFile).value})) ==>
        ReadableFrom(remote.history, |old(remote.history)|)
    {
      var key := ExtractActiveKey(providerFile);
      if key.Err? {
        return Fail(key.error);
      }
      var o := key.value;
      ghost var h0 := |remote.history|;
      ghost var guarded := Guarded(remote.State(), {o});
      err := PrepareRotation(this, newKey, o, remote, rewrite, guarded, h0);
      if err.Fail? {
        return;
      }
      ghost var mid := remote.issued;
      providerFile := KeyList([newKey]);
      err := DeployCommitRestart(this, remote, {newKey}, guarded, h0);
      RotateStepsPassed(remote.answer, rewrite, old(remote.issued), newKey, o, mid[|old(remote.issued)|..]);
      SingleKey(newKey);
    }
  }

  /**
   * The first half of a disable: install the identity-first document for key `k`, restart, and
   * rewrite every secret, which leaves every secret in plain text.
   */
  method PrepareDisable(c: Cluster, k: Key, remote: Remote, ghost rewrite: SecretsRewrite, ghost guarded: bool, ghost h0: nat) returns (err: Outcome)
    requires remote.Valid()
    requires RewritesAs(remote.answer, remote.isConflict, remote.listing, rewrite)
    requires guarded ==> Guarded(remote.State(), {k}) && ReadableFrom(remote.history, h0)
    modifies c, remote
    ensures remote.Valid()
    ensures c.controlPlaneHosts == old(c.controlPlaneHosts) && c.secretsEncryption == old(c.secretsEncryption)
    ensures c.rewriteSecrets == old(c.rewriteSecrets) && c.providerFile == Disabled(k)
    ensures var e := RewriteAfter(rewrite, old(remote.issued), Install(remote.answer, old(remote.issued), Disabled(k)));
      remote.issued == old(remote.issued) + e.issued && err == e.outcome
    ensures err.Pass? ==> (forall r <- remote.secrets :: remote.secrets[r] == Plain) && Guarded(remote.State(), {})
    ensures guarded ==> ReadableFrom(remote.history, h0)
  {
    ghost var done := remote.issued;
    c.providerFile := Disabled(k);
    err := DeployAndRestart(c, remote, {k}, guarded, h0);
    if err.Fail? {
      return;
    }
    ghost var s := remote.State();
    ghost var mid := remote.issued;
    err := RewriteGuarded(c, remote, rewrite, {k}, guarded, h0);
    assert remote.issued == done + (InstallPlan(Disabled(k)) + remote.issued[|mid|..]);
    if err.Pass? {
      RewrittenPlain(s, remote.State());
    }
  }

  /**
   * The first half of a rotation: install [n, o], commit, restart, and rewrite every secret,
   * which leaves every secret sealed with `n`.
   */
  method PrepareRotation(c: Cluster, n: Key, o: Key, remote: Remote, ghost rewrite: SecretsRewrite,
                          ghost guarded: bool, ghost h0: nat)
    returns (err: Outcome)
    requires remote.Valid()
    requires RewritesAs(remote.answer, remote.isConflict, remote.listing, rewrite)
    requires guarded ==> Guarded(remote.State(), {o}) && ReadableFrom(remote.history, h0)
    modifies c, remote
    ensures remote.Valid()
    ensures c.controlPlaneHosts == old(c.controlPlaneHosts) && c.secretsEncryption == old(c.secretsEncryption)
    ensures c.rewriteSecrets == old(c.rewriteSecrets) && c.providerFile == KeyList([n, o])
    ensures var e := RewriteAfter(rewrite, old(remote.issued), Commit(remote.answer, old(remote.issued), KeyList([n, o])));
      remote.issued == old(remote.issued) + e.issued && err == e.outcome
    ensures err.Pass? ==> (forall r <- remote.secrets :: remote.secrets[r] == Sealed(n)) && Guarded(remote.State(), {n})
    ensures guarded ==> ReadableFrom(remote.history, h0)
  {
    ghost var done := remote.issued;
    c.providerFile := KeyList([n, o]);
    assert o in [n, o];
    err := DeployCommitRestart(c, remote, {o}, guarded, h0);
    if err.Fail? {
      return;
    }
    ghost var s := remote.State();
    ghost var mid := remote.issued;
    if guarded {
      WidenGuard(s, n, o);
    }
    err := RewriteGuarded(c, remote, rewrite, {n, o}, guarded, h0);
    assert remote.issued == done + (CommitPlan(KeyList([n, o])) + remote.issued[|mid|..]);
    if err.Pass? {
      RewrittenUnder(s, remote.State(), n);
    }
  }

  /** Rewrite every secret with a write seal inside the guard keys, keeping the history readable. */
  method RewriteGuarded(c: Cluster, remote: Remote, ghost rewrite: SecretsRewrite, ghost keys: set<Key>, ghost guarded: bool, ghost h0: nat)
    returns (err: Outcome)
    requires remote.Valid()
    requires RewritesAs(remote.answer, remote.isConflict, remote.listing, rewrite)
    requires guarded ==>
      Guarded(remote.State(), keys) && SealIn(WriteSeal(remote.loaded), keys) && ReadableFrom(remote.history, h0)
    modifies remote
    ensures remote.Valid()
    ensures var e := rewrite(old(remote.issued));
      remote.issued == old(remote.issued) + e.issued && err == e.outcome
    ensures Resealed(old(remote.State()), remote.State())
    ensures err.Pass? ==> forall r <- remote.secrets :: remote.secrets[r] == WriteSeal(remote.loaded)
    ensures guarded ==> ReadableFrom(remote.history, h0)
  {
    ghost var s := remote.State();
    ghost var hb := remote.history;
    err := c.RewriteSecrets(remote);
    GuardThroughRewrite(hb, remote.history, h0, s, keys, guarded);
  }

  /** A rotation whose first half passed with the calls `pre` runs the second half after them. */
  lemma RotateStepsPassed(answer: World<Call>, rewrite: SecretsRewrite, done: seq<Call>, n: Key, o: Key, pre: seq<Call>)
    requires RewriteAfter(rewrite, done, Commit(answer, done, KeyList([n, o]))) == Exec(pre, Pass)
    ensures var last := Commit(answer, done + pre, KeyList([n]));
      RotateSteps(answer, rewrite, done, n, o) == Exec(pre + last.issued, last.outcome)
  {
  }

  /** A one-key document reads exactly its key. */
  lemma SingleKey(k: Key)
    ensures ReadKeys(KeyList([k])) == {k}
  {
    assert k in [k];
  }

  /** With [n, o] deployed, loaded and committed, secrets sealed with `o` are also within {n, o}. */
  lemma WidenGuard(s: ServerState, n: Key, o: Key)
    requires Guarded(s, {o})
    requires s.deployed == KeyList([n, o]) && s.loaded == KeyList([n, o]) && s.committed == KeyList([n, o])
    ensures Guarded(s, {n, o}) && SealIn(WriteSeal(s.loaded), {n, o})
  {
    assert n in [n, o] && o in [n, o];
  }

  /** After a rewrite that succeeded under a document whose active key is `n`, every secret is sealed with `n`. */
  lemma RewrittenUnder(s: ServerState, t: ServerState, n: Key)
    requires Resealed(s, t) && WriteSeal(s.loaded) == Sealed(n)
    requires forall r <- t.secrets :: t.secrets[r] == WriteSeal(t.loaded)
    requires n in ReadKeys(s.deployed) && n in ReadKeys(s.loaded) && n in ReadKeys(s.committed)
    ensures forall r <- t.secrets :: t.secrets[r] == Sealed(n)
    ensures Guarded(t, {n})
  {
  }

  /** After a rewrite that succeeded under a document writing plain text, every secret is plain. */
  lemma RewrittenPlain(s: ServerState, t: ServerState)
    requires Resealed(s, t) && WriteSeal(s.loaded) == Plain
    requires forall r <- t.secrets :: t.secrets[r] == WriteSeal(t.loaded)
    ensures forall r <- t.secrets :: t.secrets[r] == Plain
    ensures Guarded(t, {})
  {
  }

  /**
   * Deploy the cluster's document to the control plane and restart kube-apiserver, stopping at
   * the first error.
   */
  method DeployAndRestart(c: Cluster, remote: Remote, ghost keys: set<Key>, ghost guarded: bool, ghost h0: nat)
    returns (err: Outcome)
    requires remote.Valid()
    requires guarded ==> Guarded(remote.State(), keys) && ReadableFrom(remote.history, h0) && keys <= ReadKeys(c.providerFile)
    modifies remote
    ensures remote.Valid()
    ensures var e := Install(remote.answer, old(remote.issued), c.providerFile);
      remote.issued == old(remote.issued) + e.issued && err == e.outcome
    ensures err.Pass? ==>
      && remote.issued == old(remote.issued) + InstallPlan(c.providerFile)
    ensures remote.secrets == old(remote.secrets)
    ensures err.Pass? ==> remote.deployed == c.providerFile && remote.loaded == c.providerFile
    ensures guarded ==> Guarded(remote.State(), keys) && ReadableFrom(remote.history, h0)
  {
    ghost var done := remote.issued;
    GuardStep(remote.history, h0, remote.State(), DeployProviderFile(c.providerFile),
              remote.answer(done, DeployProviderFile(c.providerFile)), keys, guarded);
    err := c.DeployEncryptionProviderFile(remote);
    if err.Fail? {
      return;
    }
    GuardStep(remote.history, h0, remote.State(), RestartKubeAPI, remote.answer(remote.issued, RestartKubeAPI), keys, guarded);
    err := remote.Invoke(RestartKubeAPI);
  }

  /**
   * Deploy the cluster's document, commit it to the cluster state and restart kube-apiserver,
   * stopping at the first error: the three steps a rotation takes twice.
   */
  method DeployCommitRestart(c: Cluster, remote: Remote, ghost keys: set<Key>, ghost guarded: bool, ghost h0: nat)
    returns (err: Outcome)
    requires remote.Valid()
    requires guarded ==> Guarded(remote.State(), keys) && ReadableFrom(remote.history, h0) && keys <= ReadKeys(c.providerFile)
    modifies remote
    ensures remote.Valid()
    ensures var e := Commit(remote.answer, old(remote.issued), c.providerFile);
      remote.issued == old(remote.issued) + e.issued && err == e.outcome
    ensures err.Pass? ==>
      && remote.issued == old(remote.issued) + CommitPlan(c.providerFile)
    ensures remote.secrets == old(remote.secrets)
    ensures err.Pass? ==> remote.deployed == c.providerFile && remote.committed == c.providerFile && remote.loaded == c.providerFile
    ensures guarded ==> Guarded(remote.State(), keys) && ReadableFrom(remote.history, h0)
  {
    ghost var done := remote.issued;
    var f := c.providerFile;
    GuardStep(remote.history, h0, remote.State(), DeployProviderFile(f), remote.answer(done, DeployProviderFile(f)), keys, guarded);
    err := c.DeployEncryptionProviderFile(remote);
    if err.Fail? {
      return;
    }
    GuardStep(remote.history, h0, remote.State(), CommitState(f), remote.answer(remote.issued, CommitState(f)), keys, guarded);
    err := remote.Invoke(CommitState(f));
    if err.Fail? {
      return;
    }
    assert remote.issued == done + [DeployProviderFile(f), CommitState(f)];
    GuardStep(remote.history, h0, remote.State(), RestartKubeAPI, remote.answer(remote.issued, RestartKubeAPI), keys, guarded);
    err := remote.Invoke(RestartKubeAPI);
  }
}
