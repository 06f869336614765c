/**
 * Rewriting the secrets (rewriteSecret and the worker loop of RewriteSecrets in
 * cluster/encryption.go): every secret is updated through the API so that kube-apiserver stores
 * it again under the document it has loaded.
 */
module Rewrite {
  import opened Wrappers
  import opened Steps
  import opened Strings
  import opened EncryptionConfig
  import opened SecretsServer

  const ClientFailed := "Failed to initialize new kubernetes client: "

  // ----- rewriteSecret -----

  /**
   * The calls and error of rewriteSecret for secret `r`: one update; on a version conflict one
   * fetch and, if that succeeds, one more update whose error is returned.
   */
  function RewriteOne(answer: World<Call>, isConflict: string -> bool, done: seq<Call>, r: SecretRef): Exec<Call>
  {
    var first := answer(done, UpdateSecret(r));
    if first.Pass? || !isConflict(first.error) then Exec([UpdateSecret(r)], first)
    else
      var fetched := answer(done + [UpdateSecret(r)], GetSecret(r));
      if fetched.Fail? then Exec([UpdateSecret(r), GetSecret(r)], fetched)
      else Exec([UpdateSecret(r), GetSecret(r), UpdateSecret(r)],
                answer(done + [UpdateSecret(r), GetSecret(r)], UpdateSecret(r)))
  }

  /**
   * rewriteSecret retries exactly once, and only on a conflict: a first update that succeeds or
   * fails otherwise is the only call; a conflict leads to one fetch and, unless that fails, one
   * more update, whose answer is the result.
   */
  lemma RewriteOneRetriesOnce(answer: World<Call>, isConflict: string -> bool, done: seq<Call>, r: SecretRef)
    ensures var e := RewriteOne(answer, isConflict, done, r);
      var first := answer(done, UpdateSecret(r));
      && 1 <= |e.issued| <= 3 && e.issued[0] == UpdateSecret(r)
      && (first.Pass? ==> e == Exec([UpdateSecret(r)], Pass))
      && (first.Fail? && !isConflict(first.error) ==> e == Exec([UpdateSecret(r)], first))
      && (first.Fail? && isConflict(first.error) ==>
            && e.issued[..2] == [UpdateSecret(r), GetSecret(r)]
            && (|e.issued| == 3 <==> answer(done + [UpdateSecret(r)], GetSecret(r)).Pass?)
            && (|e.issued| == 3 ==>
                  e.issued[2] == UpdateSecret(r) && e.outcome == answer(done + e.issued[..2], UpdateSecret(r))))
      && forall c <- e.issued :: c == UpdateSecret(r) || c == GetSecret(r)
  {
    var e := RewriteOne(answer, isConflict, done, r);
    if |e.issued| == 3 {
      assert e.issued[..2] == [UpdateSecret(r), GetSecret(r)];
    }
  }

  /** Rewrite one secret: update it, and on a version conflict fetch it again and update once more. */
  method RewriteSecret(remote: Remote, r: SecretRef) returns (err: Outcome)
    requires remote.Valid()
    modifies remote
    ensures remote.Valid()
    ensures remote.issued == old(remote.issued) + RewriteOne(remote.answer, remote.isConflict, old(remote.issued), r).issued
    ensures err == RewriteOne(remote.answer, remote.isConflict, old(remote.issued), r).outcome
    ensures old(remote.history) <= remote.history
    ensures forall i | |old(remote.history)| <= i < |remote.history| :: Resealed(old(remote.State()), remote.history[i])
    ensures Resealed(old(remote.State()), remote.State())
    ensures err.Pass? && r in remote.secrets ==> remote.secrets[r] == WriteSeal(remote.loaded)
  {
    ghost var s0 := remote.State();
    ghost var h0 := |remote.history|;
    ghost var done := remote.issued;
    err := remote.Invoke(UpdateSecret(r));
    if err.Pass? || !remote.isConflict(err.error) {
      return;
    }
    err := remote.Invoke(GetSecret(r));
    if err.Fail? {
      return;
    }
    assert remote.issued == done + [UpdateSecret(r), GetSecret(r)];
    err := remote.Invoke(UpdateSecret(r));
  }

  // ----- RewriteSecrets -----

  /** The calls issued and the errors collected by rewriting a list of secrets one after another. */
  datatype Batch = Batch(issued: seq<Call>, errors: seq<string>)

  /** The rewrite of one secret after the calls already issued. */
  type Rewriter = (seq<Call>, SecretRef) -> Exec<Call>

  /** rewriteSecret against a given world. */
  function RewriteStep(answer: World<Call>, isConflict: string -> bool): Rewriter
  {
    (d: seq<Call>, r: SecretRef) => RewriteOne(answer, isConflict, d, r)
  }

  /** Rewrite every secret of `secrets` in order, whatever the earlier ones answered, collecting the errors. */
  function RewriteEach(step: Rewriter, done: seq<Call>, secrets: seq<SecretRef>): Batch
    decreases |secrets|
  {
    if secrets == [] then Batch([], [])
    else
      var one := step(done, secrets[0]);
      var rest := RewriteEach(step, done + one.issued, secrets[1..]);
      Batch(one.issued + rest.issued, ErrorOf(one.outcome) + rest.errors)
  }

  /** The error of an outcome as a list of at most one message. */
  function ErrorOf(o: Outcome): (r: seq<string>)
    ensures |r| <= 1 && (r == [] <==> o.Pass?)
  {
    if o.Fail? then [o.error] else []
  }

  /** util.ErrList: nil for no errors, otherwise one error listing them all. */
  function ErrList(errors: seq<string>): (o: Outcome)
    ensures o.Pass? <==> errors == []
  {
    if errors == [] then Pass else Fail("[" + Join(errors, ' ') + "]")
  }

  /**
   * The calls and error of RewriteSecrets: create a client, list the secrets, then rewrite each
   * listed secret, failing if any rewrite failed.
   */
  function RewriteAll(answer: World<Call>, isConflict: string -> bool, listing: seq<SecretRef>, done: seq<Call>): Exec<Call>
  {
    var client := answer(done, NewKubeClient);
    if client.Fail? then Exec([NewKubeClient], Fail(ClientFailed + client.error))
    else
      var list := answer(done + [NewKubeClient], ListSecrets);
      if list.Fail? then Exec([NewKubeClient, ListSecrets], list)
      else
        var batch := RewriteEach(RewriteStep(answer, isConflict), done + [NewKubeClient, ListSecrets], listing);
        Exec([NewKubeClient, ListSecrets] + batch.issued, ErrList(batch.errors))
  }

  /** Rewriting two lists one after the other is rewriting their concatenation. */
  lemma {:induction false} RewriteEachAppend(step: Rewriter, done: seq<Call>, a: seq<SecretRef>, b: seq<SecretRef>)
    ensures RewriteEach(step, done, a + b) ==
      var first := RewriteEach(step, done, a);
      var second := RewriteEach(step, done + first.issued, b);
      Batch(first.issued + second.issued, first.errors + second.errors)
    decreases |a|
  {
    if a == [] {
      assert a + b == b;
      assert done + [] == done;
    } else {
      var one := step(done, a[0]);
      var d1 := done + one.issued;
      assert (a + b)[0] == a[0];
      assert (a + b)[1..] == a[1..] + b;
      RewriteEachAppend(step, d1, a[1..], b);
      var rest := RewriteEach(step, d1, a[1..]);
      var first := RewriteEach(step, done, a);
      assert first == Batch(one.issued + rest.issued, ErrorOf(one.outcome) + rest.errors);
      assert done + first.issued == d1 + rest.issued;
      var tail := RewriteEach(step, d1, a[1..] + b);
      assert RewriteEach(step, done, a + b) == Batch(one.issued + tail.issued, ErrorOf(one.outcome) + tail.errors);
      var second := RewriteEach(step, d1 + rest.issued, b);
      assert tail == Batch(rest.issued + second.issued, rest.errors + second.errors);
      assert one.issued + tail.issued == first.issued + second.issued;
      assert ErrorOf(one.outcome) + tail.errors == first.errors + second.errors;
    }
  }

  /** One more secret after a list: the shape the rewrite loop keeps. */
  lemma RewriteEachSnoc(step: Rewriter, done: seq<Call>, a: seq<SecretRef>, r: SecretRef)
    ensures RewriteEach(step, done, a + [r]) ==
      var first := RewriteEach(step, done, a);
      var one := step(done + first.issued, r);
      Batch(first.issued + one.issued, first.errors + ErrorOf(one.outcome))
  {
    RewriteEachAppend(step, done, a, [r]);
    var first := RewriteEach(step, done, a);
    var one := step(done + first.issued, r);
    assert [r][1..] == [];
    assert RewriteEach(step, done + first.issued + one.issued, []) == Batch([], []);
    assert one.issued + [] == one.issued;
    assert ErrorOf(one.outcome) + [] == ErrorOf(one.outcome);
  }

  /** Each rewrite of a secret updates it and issues nothing but updates and fetches of secrets. */
  ghost predicate SecretCallsOnly(step: Rewriter)
  {
    forall d, r :: UpdateSecret(r) in step(d, r).issued && forall c <- step(d, r).issued :: c.UpdateSecret? || c.GetSecret?
  }

  lemma RewriteStepSecretCallsOnly(answer: World<Call>, isConflict: string -> bool)
    ensures SecretCallsOnly(RewriteStep(answer, isConflict))
  {
    forall d, r ensures UpdateSecret(r) in RewriteStep(answer, isConflict)(d, r).issued {
      RewriteOneRetriesOnce(answer, isConflict, d, r);
    }
  }

  /** Every secret of the list is attempted, and only per-secret calls are issued. */
  lemma {:induction false} RewriteEachCalls(step: Rewriter, done: seq<Call>, secrets: seq<SecretRef>)
    requires SecretCallsOnly(step)
    ensures var b := RewriteEach(step, done, secrets);
      && (forall r <- secrets :: UpdateSecret(r) in b.issued)
      && (forall c <- b.issued :: c.UpdateSecret? || c.GetSecret?)
    decreases |secrets|
  {
    if secrets != [] {
      var one := step(done, secrets[0]);
      RewriteEachCalls(step, done + one.issued, secrets[1..]);
      var b := RewriteEach(step, done, secrets);
      forall r <- secrets ensures UpdateSecret(r) in b.issued {
        if r != secrets[0] {
          assert r in secrets[1..];
        }
      }
    }
  }

  /** The rewrite of the `k`-th secret, after the secrets before it, succeeds. */
  ghost predicate RewriteSucceeds(step: Rewriter, done: seq<Call>, secrets: seq<SecretRef>, k: nat)
    requires k < |secrets|
  {
    step(done + RewriteEach(step, done, secrets[..k]).issued, secrets[k]).outcome.Pass?
  }

  /** No error is collected over the first `n` secrets exactly when each of their rewrites succeeds. */
  lemma {:induction false} RewriteEachNoErrors(step: Rewriter, done: seq<Call>, secrets: seq<SecretRef>, n: nat)
    requires n <= |secrets|
    ensures RewriteEach(step, done, secrets[..n]).errors == [] <==>
      forall k | 0 <= k < n :: RewriteSucceeds(step, done, secrets, k)
    decreases n
  {
    if n == 0 {
      assert secrets[..0] == [];
    } else {
      RewriteEachNoErrors(step, done, secrets, n - 1);
      var pre := secrets[..n - 1];
      assert secrets[..n] == pre + [secrets[n - 1]];
      RewriteEachSnoc(step, done, pre, secrets[n - 1]);
      var one := step(done + RewriteEach(step, done, pre).issued, secrets[n - 1]);
      assert RewriteSucceeds(step, done, secrets, n - 1) == one.outcome.Pass?;
      var all := forall k | 0 <= k < n :: RewriteSucceeds(step, done, secrets, k);
      var allPre := forall k | 0 <= k < n - 1 :: RewriteSucceeds(step, done, secrets, k);
      assert all <==> allPre && RewriteSucceeds(step, done, secrets, n - 1) by {
        if allPre && RewriteSucceeds(step, done, secrets, n - 1) {
          forall k | 0 <= k < n ensures RewriteSucceeds(step, done, secrets, k) {
            if k < n - 1 {
              assert RewriteSucceeds(step, done, secrets, k);
            }
          }
        }
      }
    }
  }

  /** RewriteSecrets only issues client, listing and per-secret calls: no document is touched. */
  lemma RewriteAllTouchesNoDocument(answer: World<Call>, isConflict: string -> bool, listing: seq<SecretRef>, done: seq<Call>)
    ensures forall c <- RewriteAll(answer, isConflict, listing, done).issued :: !IsDocumentCall(c)
  {
    RewriteStepSecretCallsOnly(answer, isConflict);
    RewriteEachCalls(RewriteStep(answer, isConflict), done + [NewKubeClient, ListSecrets], listing);
  }

  /**
   * Once the client and the listing succeed, every listed secret is attempted, and the result is
   * nil exactly when every secret's rewrite succeeded.
   */
  lemma RewriteAllAttemptsEvery(answer: World<Call>, isConflict: string -> bool, listing: seq<SecretRef>, done: seq<Call>)
    requires answer(done, NewKubeClient).Pass? && answer(done + [NewKubeClient], ListSecrets).Pass?
    ensures var e := RewriteAll(answer, isConflict, listing, done);
      var d := done + [NewKubeClient, ListSecrets];
      && (forall r <- listing :: UpdateSecret(r) in e.issued)
      && (e.outcome.Pass? <==> forall k | 0 <= k < |listing| :: RewriteSucceeds(RewriteStep(answer, isConflict), d, listing, k))
  {
    var d := done + [NewKubeClient, ListSecrets];
    RewriteStepSecretCallsOnly(answer, isConflict);
    RewriteEachCalls(RewriteStep(answer, isConflict), d, listing);
    RewriteEachNoErrors(RewriteStep(answer, isConflict), d, listing, |listing|);
    assert listing[..|listing|] == listing;
  }

  // ----- the rewrite as one step -----

  /** The calls and error of rewriting every secret after the calls already issued, as one step. */
  type SecretsRewrite = seq<Call> -> Exec<Call>

  /** RewriteSecrets against a given world and listing, as one step. */
  function RewriteAllOf(answer: World<Call>, isConflict: string -> bool, listing: seq<SecretRef>): SecretsRewrite
  {
    (done: seq<Call>) => RewriteAll(answer, isConflict, listing, done)
  }

  /**
   * `rewrite` answers as RewriteAll does after any calls. The equation is only brought in where
   * RewriteAll itself is in view, so that callers can treat the rewrite as one step.
   */
  ghost predicate RewritesAs(answer: World<Call>, isConflict: string -> bool, listing: seq<SecretRef>, rewrite: SecretsRewrite)
  {
    forall done {:trigger RewriteAll(answer, isConflict, listing, done)} ::
      rewrite(done) == RewriteAll(answer, isConflict, listing, done)
  }

  /** A rewrite that issues no document call, whatever was issued before it. */
  ghost predicate TouchesNoDocument(rewrite: SecretsRewrite)
  {
    forall done, c | c in rewrite(done).issued :: !IsDocumentCall(c)
  }

  /** RewriteSecrets, as one step, is RewriteAll and touches no document. */
  lemma RewriteAllOfRewrites(answer: World<Call>, isConflict: string -> bool, listing: seq<SecretRef>)
    ensures RewritesAs(answer, isConflict, listing, RewriteAllOf(answer, isConflict, listing))
    ensures TouchesNoDocument(RewriteAllOf(answer, isConflict, listing))
  {
    forall done, c | c in RewriteAllOf(answer, isConflict, listing)(done).issued
      ensures !IsDocumentCall(c)
    {
      RewriteAllTouchesNoDocument(answer, isConflict, listing, done);
    }
  }

  /** Every secret of `rs` that is stored carries `seal`. */
  ghost predicate AllSealed(s: ServerState, rs: seq<SecretRef>, seal: Seal)
  {
    forall r <- rs :: r in s.secrets ==> s.secrets[r] == seal
  }

  /** Re-sealing keeps secrets already re-written, and one more re-written secret joins them. */
  lemma AllSealedSnoc(before: ServerState, after: ServerState, rs: seq<SecretRef>, r: SecretRef)
    requires AllSealed(before, rs, WriteSeal(before.loaded)) && Resealed(before, after)
    requires r in after.secrets ==> after.secrets[r] == WriteSeal(before.loaded)
    ensures AllSealed(after, rs + [r], WriteSeal(before.loaded))
  {
  }

  /**
   * What rewriting the secrets `prefix` one after another has done since the calls `done`: the
   * calls issued and errors collected are the fold's, every state since index `h0` re-seals `s0`,
   * and when no error was collected every secret of `prefix` carries the write seal.
   */
  ghost predicate Progress(step: Rewriter, done: seq<Call>, prefix: seq<SecretRef>, s0: ServerState, h0: nat,
                           issued: seq<Call>, state: ServerState, history: seq<ServerState>, errList: seq<string>)
  {
    && issued == done + RewriteEach(step, done, prefix).issued
    && errList == RewriteEach(step, done, prefix).errors
    && h0 < |history| && history[|history| - 1] == state
    && (forall k | h0 <= k < |history| :: Resealed(s0, history[k]))
    && (errList == [] ==> AllSealed(state, prefix, WriteSeal(s0.loaded)))
  }

  /** One iteration of the worker loop: rewrite secret `r`, and record its error if it fails. */
  method RewriteNext(remote: Remote, ghost done: seq<Call>, ghost prefix: seq<SecretRef>, r: SecretRef,
                     ghost s0: ServerState, ghost h0: nat, errList: seq<string>) returns (errs: seq<string>)
    requires remote.Valid()
    requires Progress(RewriteStep(remote.answer, remote.isConflict), done, prefix, s0, h0,
                      remote.issued, remote.State(), remote.history, errList)
    modifies remote
    ensures remote.Valid()
    ensures old(remote.history) <= remote.history
    ensures Progress(RewriteStep(remote.answer, remote.isConflict), done, prefix + [r], s0, h0,
                     remote.issued, remote.State(), remote.history, errs)
  {
    ghost var before := remote.State();
    ghost var hb := remote.history;
    ghost var ib := remote.issued;
    var e := RewriteSecret(remote, r);
    errs := errList;
    if e.Fail? {
      errs := errs + [e.error];
    }
    assert errs == errList + ErrorOf(e);
    ProgressStep(remote.answer, remote.isConflict, done, prefix, r, s0, h0, ib, before, hb, errList,
                 remote.issued, remote.State(), remote.history, e, errs);
  }

  /** The worker loop keeps Progress: the facts one rewrite establishes extend it by one secret. */
  lemma ProgressStep(answer: World<Call>, isConflict: string -> bool, done: seq<Call>, prefix: seq<SecretRef>,
                     r: SecretRef, s0: ServerState, h0: nat,
                     issued: seq<Call>, state: ServerState, history: seq<ServerState>, errList: seq<string>,
                     issued': seq<Call>, state': ServerState, history': seq<ServerState>, e: Outcome, errs: seq<string>)
    requires Progress(RewriteStep(answer, isConflict), done, prefix, s0, h0, issued, state, history, errList)
    requires issued' == issued + RewriteOne(answer, isConflict, issued, r).issued
    requires e == RewriteOne(answer, isConflict, issued, r).outcome
    requires history <= history' && history'[|history'| - 1] == state'
    requires forall i | |history| <= i < |history'| :: Resealed(state, history'[i])
    requires Resealed(state, state')
    requires e.Pass? && r in state'.secrets ==> state'.secrets[r] == WriteSeal(state'.loaded)
    requires errs == errList + ErrorOf(e)
    ensures Progress(RewriteStep(answer, isConflict), done, prefix + [r], s0, h0, issued', state', history', errs)
  {
    var step := RewriteStep(answer, isConflict);
    assert step(issued, r) == RewriteOne(answer, isConflict, issued, r);
    TraceStep(step, done, prefix, r, issued, errList, issued', errs);
    SealStep(prefix, r, s0, h0, state, history, errList, state', history', e, errs);
  }

  /** The calls and errors of one more rewrite extend the fold's by one secret. */
  lemma TraceStep(step: Rewriter, done: seq<Call>, prefix: seq<SecretRef>, r: SecretRef,
                  issued: seq<Call>, errList: seq<string>, issued': seq<Call>, errs: seq<string>)
    requires issued == done + RewriteEach(step, done, prefix).issued
    requires errList == RewriteEach(step, done, prefix).errors
    requires issued' == issued + step(issued, r).issued
    requires errs == errList + ErrorOf(step(issued, r).outcome)
    ensures issued' == done + RewriteEach(step, done, prefix + [r]).issued
    ensures errs == RewriteEach(step, done, prefix + [r]).errors
  {
    RewriteEachSnoc(step, done, prefix, r);
    assert issued' == done + (RewriteEach(step, done, prefix).issued + step(issued, r).issued);
  }

  /** One more rewrite keeps the history re-sealing `s0`, and one more secret carries the write seal. */
  lemma SealStep(prefix: seq<SecretRef>, r: SecretRef, s0: ServerState, h0: nat,
                 state: ServerState, history: seq<ServerState>, errList: seq<string>,
                 state': ServerState, history': seq<ServerState>, e: Outcome, errs: seq<string>)
    requires h0 < |history| && history[|history| - 1] == state
    requires forall k | h0 <= k < |history| :: Resealed(s0, history[k])
    requires errList == [] ==> AllSealed(state, prefix, WriteSeal(s0.loaded))
    requires history <= history' && history'[|history'| - 1] == state'
    requires forall i | |history| <= i < |history'| :: Resealed(state, history'[i])
    requires Resealed(state, state')
    requires e.Pass? && r in state'.secrets ==> state'.secrets[r] == WriteSeal(state'.loaded)
    requires errs == errList + ErrorOf(e)
    ensures h0 < |history'|
    ensures forall k | h0 <= k < |history'| :: Resealed(s0, history'[k])
    ensures errs == [] ==> AllSealed(state', prefix + [r], WriteSeal(s0.loaded))
  {
    ResealedSuffix(history, history', h0, s0, state);
    if errs == [] {
      AllSealedSnoc(state, state', prefix, r);
    }
  }

  /** What the worker loop establishes, read as RewriteSecrets' result. */
  lemma RewriteAllFromProgress(answer: World<Call>, isConflict: string -> bool, listing: seq<SecretRef>, start: seq<Call>,
                               s0: ServerState, h0: nat,
                               issued: seq<Call>, state: ServerState, history: seq<ServerState>, errList: seq<string>)
    requires answer(start, NewKubeClient).Pass? && answer(start + [NewKubeClient], ListSecrets).Pass?
    requires Progress(RewriteStep(answer, isConflict), start + [NewKubeClient, ListSecrets], listing, s0, h0,
                      issued, state, history, errList)
    requires forall r :: r in state.secrets ==> r in listing
    ensures issued == start + RewriteAll(answer, isConflict, listing, start).issued
    ensures ErrList(errList) == RewriteAll(answer, isConflict, listing, start).outcome
    ensures errList == [] ==> forall r <- state.secrets :: state.secrets[r] == WriteSeal(state.loaded)
  {
    var d := start + [NewKubeClient, ListSecrets];
    var batch := RewriteEach(RewriteStep(answer, isConflict), d, listing);
    assert d + batch.issued == start + ([NewKubeClient, ListSecrets] + batch.issued);
    assert Resealed(s0, history[|history| - 1]);
  }

  /** The worker loop of RewriteSecrets: rewrite each listed secret in turn, collecting the errors. */
  method RewriteListed(remote: Remote, ghost s0: ServerState, ghost h0: nat) returns (errList: seq<string>)
    requires remote.Valid() && h0 < |remote.history|
    requires forall k | h0 <= k < |remote.history| :: Resealed(s0, remote.history[k])
    modifies remote
    ensures remote.Valid()
    ensures old(remote.history) <= remote.history
    ensures Progress(RewriteStep(remote.answer, remote.isConflict), old(remote.issued), remote.listing, s0, h0,
                     remote.issued, remote.State(), remote.history, errList)
  {
    ghost var done := remote.issued;
    var step := RewriteStep(remote.answer, remote.isConflict);
    errList := [];
    assert remote.listing[..0] == [];
    assert done + [] == done;
    for i := 0 to |remote.listing|
      invariant remote.Valid()
      invariant old(remote.history) <= remote.history
      invariant Progress(step, done, remote.listing[..i], s0, h0, remote.issued, remote.State(), remote.history, errList)
    {
      assert remote.listing[..i + 1] == remote.listing[..i] + [remote.listing[i]];
      errList := RewriteNext(remote, done, remote.listing[..i], remote.listing[i], s0, h0, errList);
    }
    assert remote.listing[..|remote.listing|] == remote.listing;
  }

  /** Re-sealing after re-sealing, along a history that only grew. */
  lemma ResealedSuffix(h: seq<ServerState>, h': seq<ServerState>, h0: nat, s0: ServerState, before: ServerState)
    requires h <= h' && h0 <= |h| && |h| >= 1 && h[|h| - 1] == before
    requires forall k | h0 <= k < |h| :: Resealed(s0, h[k])
    requires h0 < |h|
    requires forall k | |h| <= k < |h'| :: Resealed(before, h'[k])
    ensures forall k | h0 <= k < |h'| :: Resealed(s0, h'[k])
  {
    assert Resealed(s0, before);
    forall k | |h| <= k < |h'| ensures Resealed(s0, h'[k]) {
      ResealedTransitive(s0, before, h'[k]);
    }
  }
}
