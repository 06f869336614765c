/**
 * Remote calls as an appended trace. The outside world (SSH, Docker, the Kubernetes API) is an
 * oracle that answers each call given the calls issued before it; a fixed list of calls run
 * "stop at the first error" is the fold `Run`.
 */
module Steps {
  import opened Wrappers

  /** The outside world's answer to call `c` once the calls in the first argument have been issued. */
  type World<!C> = (seq<C>, C) -> Outcome

  /** The calls issued and the error returned by a run. */
  datatype Exec<C> = Exec(issued: seq<C>, outcome: Outcome)

  /** Every call of `plan`, issued in order after `done`, is answered without error. */
  ghost predicate AllPass<C>(world: World<C>, done: seq<C>, plan: seq<C>)
  {
    forall i | 0 <= i < |plan| :: world(done + plan[..i], plan[i]).Pass?
  }

  /**
   * Issue the calls of `plan` in order after `done` and stop at the first one that fails,
   * returning its error; nil when every call succeeds. Its properties are `RunShape`.
   */
  function Run<C>(world: World<C>, done: seq<C>, plan: seq<C>): Exec<C>
    decreases |plan|
  {
    if plan == [] then Exec([], Pass)
    else
      var o := world(done, plan[0]);
      if o.Fail? then Exec([plan[0]], o)
      else
        var rest := Run(world, done + [plan[0]], plan[1..]);
        Exec([plan[0]] + rest.issued, rest.outcome)
  }

  /**
   * A run issues a prefix of its plan; it passes exactly when it issued the whole plan and every
   * call passed; and when it fails, every call but the last passed and the last one's error is
   * returned.
   */
  lemma RunShape<C>(world: World<C>, done: seq<C>, plan: seq<C>)
    ensures var e := Run(world, done, plan);
      && |e.issued| <= |plan| && e.issued == plan[..|e.issued|]
      && (e.outcome.Pass? <==> e.issued == plan && AllPass(world, done, plan))
      && (e.outcome.Fail? ==>
            && |e.issued| >= 1
            && AllPass(world, done, e.issued[..|e.issued| - 1])
            && e.outcome == world(done + e.issued[..|e.issued| - 1], e.issued[|e.issued| - 1]))
  {
    RunIssuesPrefix(world, done, plan);
    RunPassesIff(world, done, plan);
    RunFailsAtLast(world, done, plan);
  }

  /** A run issues a prefix of its plan. */
  lemma {:induction false} RunIssuesPrefix<C>(world: World<C>, done: seq<C>, plan: seq<C>)
    ensures var e := Run(world, done, plan);
      |e.issued| <= |plan| && e.issued == plan[..|e.issued|]
    decreases |plan|
  {
    if plan != [] && world(done, plan[0]).Pass? {
      RunIssuesPrefix(world, done + [plan[0]], plan[1..]);
      var rest := Run(world, done + [plan[0]], plan[1..]);
      assert [plan[0]] + rest.issued == plan[..1 + |rest.issued|];
    }
  }

  /** A run passes exactly when it issued the whole plan and every call passed. */
  lemma {:induction false} RunPassesIff<C>(world: World<C>, done: seq<C>, plan: seq<C>)
    ensures var e := Run(world, done, plan);
      e.outcome.Pass? <==> e.issued == plan && AllPass(world, done, plan)
    decreases |plan|
  {
    if plan != [] {
      if world(done, plan[0]).Fail? {
        assert done + plan[..0] == done;
      } else {
        RunPassesIff(world, done + [plan[0]], plan[1..]);
        ShiftAllPass(world, done, plan[0], plan[1..]);
        assert plan == [plan[0]] + plan[1..];
      }
    }
  }

  /** When a run fails, every call but the last it issued passed, and the last one's error is returned. */
  lemma {:induction false} RunFailsAtLast<C>(world: World<C>, done: seq<C>, plan: seq<C>)
    ensures var e := Run(world, done, plan);
      e.outcome.Fail? ==>
        && |e.issued| >= 1
        && AllPass(world, done, e.issued[..|e.issued| - 1])
        && e.outcome == world(done + e.issued[..|e.issued| - 1], e.issued[|e.issued| - 1])
    decreases |plan|
  {
    if plan != [] {
      var e := Run(world, done, plan);
      if world(done, plan[0]).Fail? {
        assert done + e.issued[..0] == done;
      } else {
        var rest := Run(world, done + [plan[0]], plan[1..]);
        RunFailsAtLast(world, done + [plan[0]], plan[1..]);
        if rest.outcome.Fail? {
          ShiftAllPass(world, done, plan[0], rest.issued[..|rest.issued| - 1]);
          assert e.issued[..|e.issued| - 1] == [plan[0]] + rest.issued[..|rest.issued| - 1];
          assert done + e.issued[..|e.issued| - 1] == done + [plan[0]] + rest.issued[..|rest.issued| - 1];
        }
      }
    }
  }

  /** A plan whose first call passed passes exactly when the rest passes after it. */
  lemma ShiftAllPass<C>(world: World<C>, done: seq<C>, c: C, rest: seq<C>)
    requires world(done, c).Pass?
    ensures AllPass(world, done, [c] + rest) <==> AllPass(world, done + [c], rest)
  {
    var plan := [c] + rest;
    assert done + plan[..0] == done;
    forall i | 0 <= i < |rest|
      ensures done + plan[..i + 1] == (done + [c]) + rest[..i] && plan[i + 1] == rest[i]
    {
      assert plan[..i + 1] == [c] + rest[..i];
    }
    if AllPass(world, done + [c], rest) {
      forall i | 0 <= i < |plan| ensures world(done + plan[..i], plan[i]).Pass? {
        if i > 0 {
          assert world((done + [c]) + rest[..i - 1], rest[i - 1]).Pass?;
        }
      }
    }
  }

  /** Running two plans one after the other is running their concatenation. */
  lemma {:induction false} RunAppend<C>(world: World<C>, done: seq<C>, a: seq<C>, b: seq<C>)
    ensures Run(world, done, a + b) ==
      var first := Run(world, done, a);
      if first.outcome.Fail? then first
      else
        var second := Run(world, done + a, b);
        Exec(a + second.issued, second.outcome)
    decreases |a|
  {
    if a == [] {
      assert a + b == b;
      assert done + a == done;
    } else {
      var ab := a + b;
      assert ab[0] == a[0];
      assert ab[1..] == a[1..] + b;
      if world(done, a[0]).Pass? {
        var done1 := done + [a[0]];
        RunAppend(world, done1, a[1..], b);
        assert done1 + a[1..] == done + a;
        assert [a[0]] + a[1..] == a;
        var inner := Run(world, done1, a[1..]);
        assert Run(world, done, a) == Exec([a[0]] + inner.issued, inner.outcome);
        assert Run(world, done, ab) == Exec([a[0]] + Run(world, done1, a[1..] + b).issued, Run(world, done1, a[1..] + b).outcome);
      } else {
        assert Run(world, done, ab) == Exec([a[0]], world(done, a[0]));
      }
    }
  }

  /** A plan of one call issues it and returns its answer. */
  lemma RunSingle<C>(world: World<C>, done: seq<C>, c: C)
    ensures Run(world, done, [c]) == Exec([c], world(done, c))
  {
    assert [c][1..] == [];
  }

  /** A plan of two calls, unrolled: the second is issued only when the first passed. */
  lemma RunTwo<C>(world: World<C>, done: seq<C>, a: C, b: C)
    ensures Run(world, done, [a, b]) ==
      if world(done, a).Fail? then Exec([a], world(done, a))
      else Exec([a, b], world(done + [a], b))
  {
    assert [a, b][1..] == [b];
    RunSingle(world, done + [a], b);
  }

  /** A plan of three calls, unrolled: each is issued only when the ones before it passed. */
  lemma RunThree<C>(world: World<C>, done: seq<C>, a: C, b: C, c: C)
    ensures Run(world, done, [a, b, c]) ==
      if world(done, a).Fail? then Exec([a], world(done, a))
      else if world(done + [a], b).Fail? then Exec([a, b], world(done + [a], b))
      else Exec([a, b, c], world(done + [a, b], c))
  {
    assert [a, b, c][1..] == [b, c];
    RunTwo(world, done + [a], b, c);
    assert done + [a] + [b] == done + [a, b];
  }

  /** A plan of four calls, unrolled: each is issued only when the ones before it passed. */
  lemma RunFour<C>(world: World<C>, done: seq<C>, a: C, b: C, c: C, d: C)
    ensures Run(world, done, [a, b, c, d]) ==
      if world(done, a).Fail? then Exec([a], world(done, a))
      else if world(done + [a], b).Fail? then Exec([a, b], world(done + [a], b))
      else if world(done + [a, b], c).Fail? then Exec([a, b, c], world(done + [a, b], c))
      else Exec([a, b, c, d], world(done + [a, b, c], d))
  {
    assert [a, b, c, d][1..] == [b, c, d];
    RunThree(world, done + [a], b, c, d);
    assert done + [a] + [b] == done + [a, b];
    assert done + [a] + [b, c] == done + [a, b, c];
  }

  /** The calls `prefix`, already issued, followed by the run `e`. */
  function After<C>(prefix: seq<C>, e: Exec<C>): (r: Exec<C>)
    ensures r.outcome == e.outcome && |r.issued| == |prefix| + |e.issued|
    ensures r.issued[..|prefix|] == prefix && r.issued[|prefix|..] == e.issued
  {
    Exec(prefix + e.issued, e.outcome)
  }

  /** Prefixing twice is prefixing with both. */
  lemma AfterAfter<C>(a: seq<C>, b: seq<C>, e: Exec<C>)
    ensures After(a, After(b, e)) == After(a + b, e)
  {
    assert a + (b + e.issued) == (a + b) + e.issued;
  }

  /** The last call after a prefix is the run's last call, and what comes before it is the prefix and the run's earlier calls. */
  lemma AfterLast<C>(prefix: seq<C>, e: Exec<C>)
    requires |e.issued| >= 1
    ensures var r := After(prefix, e);
      && |r.issued| >= 1 && r.issued[|r.issued| - 1] == e.issued[|e.issued| - 1]
      && r.issued[..|r.issued| - 1] == prefix + e.issued[..|e.issued| - 1]
  {
    var r := After(prefix, e);
    assert r.issued[..|r.issued| - 1] == prefix + e.issued[..|e.issued| - 1];
  }

  /** The run issued at least one call, and its last call failed. */
  ghost predicate LastFailed<C>(world: World<C>, done: seq<C>, e: Exec<C>)
  {
    |e.issued| >= 1 && world(done + e.issued[..|e.issued| - 1], e.issued[|e.issued| - 1]).Fail?
  }

  /** A run whose last call failed still ends on that call behind a prefix. */
  lemma LastFailedAfter<C>(world: World<C>, done: seq<C>, prefix: seq<C>, e: Exec<C>)
    requires LastFailed(world, done + prefix, e)
    ensures LastFailed(world, done, After(prefix, e))
  {
    AfterLast(prefix, e);
    var front := e.issued[..|e.issued| - 1];
    assert done + (prefix + front) == done + prefix + front;
  }

  /** One more call after a plan that passed: the shape every loop over hosts keeps. */
  lemma RunSnoc<C>(world: World<C>, done: seq<C>, plan: seq<C>, c: C)
    requires Run(world, done, plan) == Exec(plan, Pass)
    ensures Run(world, done, plan + [c]) == Exec(plan + [c], world(done + plan, c))
  {
    RunAppend(world, done, plan, [c]);
    RunSingle(world, done + plan, c);
  }

  /** A prefix of a plan that already failed decides the whole plan: nothing after it is issued. */
  lemma RunFailedPrefix<C>(world: World<C>, done: seq<C>, plan: seq<C>, n: nat)
    requires n <= |plan|
    requires Run(world, done, plan[..n]).outcome.Fail?
    ensures Run(world, done, plan) == Run(world, done, plan[..n])
  {
    RunAppend(world, done, plan[..n], plan[n..]);
    assert plan[..n] + plan[n..] == plan;
  }

  /**
   * Issuing the plan's calls one at a time: after the first `i` passed, the next call's answer
   * either ends the whole run with it or extends the passing prefix by one.
   */
  lemma RunPrefixStep<C>(world: World<C>, done: seq<C>, plan: seq<C>, i: nat)
    requires i < |plan| && Run(world, done, plan[..i]) == Exec(plan[..i], Pass)
    ensures var o := world(done + plan[..i], plan[i]);
      && (o.Fail? ==> Run(world, done, plan) == Exec(plan[..i + 1], o))
      && (o.Pass? ==> Run(world, done, plan[..i + 1]) == Exec(plan[..i + 1], Pass))
  {
    RunSnoc(world, done, plan[..i], plan[i]);
    assert plan[..i] + [plan[i]] == plan[..i + 1];
    if world(done + plan[..i], plan[i]).Fail? {
      RunFailedPrefix(world, done, plan, i + 1);
    }
  }

  /** Every prefix of a plan whose calls all pass has calls that all pass. */
  lemma AllPassPrefix<C>(world: World<C>, done: seq<C>, plan: seq<C>, n: nat)
    requires n <= |plan| && AllPass(world, done, plan)
    ensures AllPass(world, done, plan[..n])
  {
    forall i | 0 <= i < n ensures world(done + plan[..n][..i], plan[..n][i]).Pass? {
      assert plan[..n][..i] == plan[..i];
    }
  }

  /** One failing call is enough to break AllPass. */
  lemma FailedCallBreaksAllPass<C>(world: World<C>, done: seq<C>, plan: seq<C>, i: nat)
    requires i < |plan|
    requires world(done + plan[..i], plan[i]).Fail?
    ensures !AllPass(world, done, plan)
  {
  }

  /** A plan whose calls all pass runs to the end. */
  lemma {:induction false} RunAllPass<C>(world: World<C>, done: seq<C>, plan: seq<C>)
    requires AllPass(world, done, plan)
    ensures Run(world, done, plan) == Exec(plan, Pass)
    decreases |plan|
  {
    if plan != [] {
      assert done + plan[..0] == done;
      ShiftAllPass(world, done, plan[0], plan[1..]);
      assert [plan[0]] + plan[1..] == plan;
      RunAllPass(world, done + [plan[0]], plan[1..]);
    }
  }

  /** A call that fails stops the run there: the run fails and issues nothing after it. */
  lemma RunStopsAt<C>(world: World<C>, done: seq<C>, plan: seq<C>, k: nat)
    requires k < |plan|
    requires world(done + plan[..k], plan[k]).Fail?
    ensures Run(world, done, plan).outcome.Fail?
    ensures |Run(world, done, plan).issued| <= k + 1
  {
    var p := plan[..k + 1];
    RunShape(world, done, p);
    assert plan[..k] + [plan[k]] == p;
    RunAppend(world, done, plan[..k], [plan[k]]);
    RunShape(world, done, plan[..k]);
    if Run(world, done, plan[..k]).outcome.Pass? {
      RunSingle(world, done + plan[..k], plan[k]);
    }
    RunFailedPrefix(world, done, plan, k + 1);
  }

  /** A run only issues calls of its plan. */
  lemma RunIssuesFromPlan<C>(world: World<C>, done: seq<C>, plan: seq<C>)
    ensures forall x <- Run(world, done, plan).issued :: x in plan
  {
    RunShape(world, done, plan);
    var e := Run(world, done, plan);
    forall x <- e.issued ensures x in plan {
      var k :| 0 <= k < |e.issued| && e.issued[k] == x;
      assert plan[k] == x;
    }
  }
}
