/**
 * Properties of `auth_callback` over a whole sequence of calls sharing one
 * payload, as libgit2 makes them during one operation (src/clone.c:150-233).
 */
module AuthRuns {
  import opened GitHub
  import opened Auth

  /** One call: the challenge, the environment and the providers' answers at that moment. */
  datatype Call = Call(ch: Challenge, env: Env, ans: Answers)

  /** The outcomes of the calls, in order, starting from counter `r`. */
  function Run(r: int, calls: seq<Call>): (outs: seq<Outcome>)
    ensures |outs| == |calls|
    decreases |calls|
  {
    if calls == [] then []
    else
      var o := Negotiate(r, calls[0].ch, calls[0].env, calls[0].ans);
      [o] + Run(o.retries, calls[1..])
  }

  /** The counter in force when call `i` starts. */
  function Before(r: int, outs: seq<Outcome>, i: nat): int
    requires i <= |outs|
  {
    if i == 0 then r else outs[i - 1].retries
  }

  /** Each call of a run is the negotiator applied to the counter the previous call left. */
  lemma {:induction false} RunStep(r: int, calls: seq<Call>, i: nat)
    requires i < |calls|
    ensures Run(r, calls)[i] ==
      Negotiate(Before(r, Run(r, calls), i), calls[i].ch, calls[i].env, calls[i].ans)
    decreases |calls|
  {
    if i > 0 {
      var o := Negotiate(r, calls[0].ch, calls[0].env, calls[0].ans);
      RunStep(o.retries, calls[1..], i - 1);
      assert Run(r, calls)[1..] == Run(o.retries, calls[1..]);
    }
  }

  /** From a fresh payload (or any counter in 0..4) the counter stays in 0..4 for any sequence of calls. */
  lemma {:induction false} RunRetriesBounded(r: int, calls: seq<Call>)
    requires 0 <= r <= 4
    ensures forall i :: 0 <= i < |calls| ==> 0 <= Run(r, calls)[i].retries <= 4
    decreases |calls|
  {
    if calls != [] {
      var o := Negotiate(r, calls[0].ch, calls[0].env, calls[0].ans);
      RunRetriesBounded(o.retries, calls[1..]);
      forall i | 1 <= i < |calls|
        ensures 0 <= Run(r, calls)[i].retries <= 4
      {
        assert Run(r, calls)[i] == Run(o.retries, calls[1..])[i - 1];
      }
    }
  }

  /**
   * Termination: calls that all offer a credential number at most 4 - r, so
   * from a fresh payload the fifth call at the latest returns GIT_EUSER, which
   * ends the operation.
   */
  lemma {:induction false} AtMostFourOffers(r: int, calls: seq<Call>)
    requires 0 <= r <= 4
    requires forall i :: 0 <= i < |calls| ==> !Run(r, calls)[i].cred.EUser?
    ensures |calls| <= 4 - r
    decreases |calls|
  {
    if calls != [] {
      var o := Negotiate(r, calls[0].ch, calls[0].env, calls[0].ans);
      assert Run(r, calls)[0] == o;
      forall i | 0 <= i < |calls| - 1
        ensures !Run(o.retries, calls[1..])[i].cred.EUser?
      {
        assert Run(o.retries, calls[1..])[i] == Run(r, calls)[i + 1];
      }
      AtMostFourOffers(o.retries, calls[1..]);
    }
  }

  /**
   * Between a call that leaves the counter positive and a later call that
   * starts from 0 there is a call that reset the counter and refused.
   */
  lemma {:induction false} ZeroAgainOnlyAfterReset(r: int, calls: seq<Call>, i: nat, j: nat)
    requires 0 <= r <= 4
    requires i < j < |calls|
    requires Run(r, calls)[i].retries > 0
    requires Before(r, Run(r, calls), j) == 0
    ensures exists k :: i < k < j && Run(r, calls)[k].cred.EUser? && Run(r, calls)[k].retries == 0
    decreases j - i
  {
    var outs := Run(r, calls);
    RunRetriesBounded(r, calls);
    if outs[i + 1].retries == 0 {
      RunStep(r, calls, i + 1);
      assert i + 1 < j;
    } else {
      ZeroAgainOnlyAfterReset(r, calls, i + 1, j);
    }
  }

  /**
   * The agent is never offered twice in an operation unless the HTTPS ladder
   * was exhausted (a reset and refusal) in between.
   */
  lemma AgentNotRepeatedWithoutReset(r: int, calls: seq<Call>, i: nat, j: nat)
    requires 0 <= r <= 4
    requires i < j < |calls|
    requires Run(r, calls)[i].cred.Agent? && Run(r, calls)[j].cred.Agent?
    ensures exists k :: i < k < j && Run(r, calls)[k].cred.EUser? && Run(r, calls)[k].retries == 0
  {
    var outs := Run(r, calls);
    RunStep(r, calls, i);
    RunStep(r, calls, j);
    var ci, cj := calls[i], calls[j];
    AgentOnlyFromZero(Before(r, outs, i), ci.ch, ci.env, ci.ans);
    AgentOnlyFromZero(Before(r, outs, j), cj.ch, cj.env, cj.ans);
    ZeroAgainOnlyAfterReset(r, calls, i, j);
  }

  /** The GITHUB_PAT is never offered twice in an operation unless a reset and refusal came in between. */
  lemma PatNotRepeatedWithoutReset(r: int, calls: seq<Call>, i: nat, j: nat)
    requires 0 <= r <= 4
    requires i < j < |calls|
    requires Run(r, calls)[i].cred.UserPass? && Run(r, calls)[i].asked == []
    requires Run(r, calls)[j].cred.UserPass? && Run(r, calls)[j].asked == []
    ensures exists k :: i < k < j && Run(r, calls)[k].cred.EUser? && Run(r, calls)[k].retries == 0
  {
    var outs := Run(r, calls);
    RunStep(r, calls, i);
    RunStep(r, calls, j);
    var ci, cj := calls[i], calls[j];
    PatOnlyFromZero(Before(r, outs, i), ci.ch, ci.env, ci.ans);
    PatOnlyFromZero(Before(r, outs, j), cj.ch, cj.env, cj.ans);
    ZeroAgainOnlyAfterReset(r, calls, i, j);
  }

  /**
   * Between a call that leaves the counter at 2 or more and a later call that
   * starts below 2 there is a call that reset the counter and refused.
   */
  lemma {:induction false} NoDropBelowTwoWithoutReset(r: int, calls: seq<Call>, i: nat, j: nat)
    requires i < j < |calls|
    requires Run(r, calls)[i].retries >= 2
    requires Before(r, Run(r, calls), j) <= 1
    ensures exists k :: i < k < j && Run(r, calls)[k].cred.EUser? && Run(r, calls)[k].retries == 0
    decreases j - i
  {
    var outs := Run(r, calls);
    if outs[i + 1].retries < 2 {
      RunStep(r, calls, i + 1);
      var c := calls[i + 1];
      DropBelowTwoIsReset(outs[i].retries, c.ch, c.env, c.ans);
      assert i + 1 < j;
    } else {
      NoDropBelowTwoWithoutReset(r, calls, i + 1, j);
    }
  }

  /**
   * The key named by `getkey` is never offered twice in an operation unless
   * the HTTPS ladder was exhausted (a reset and refusal) in between.
   */
  lemma KeyNotRepeatedWithoutReset(r: int, calls: seq<Call>, i: nat, j: nat)
    requires 0 <= r <= 4
    requires i < j < |calls|
    requires Run(r, calls)[i].cred.KeyFile? && Run(r, calls)[j].cred.KeyFile?
    ensures exists k :: i < k < j && Run(r, calls)[k].cred.EUser? && Run(r, calls)[k].retries == 0
  {
    var outs := Run(r, calls);
    RunStep(r, calls, i);
    RunStep(r, calls, j);
    var ci, cj := calls[i], calls[j];
    KeyOnlyBelowTwo(Before(r, outs, i), ci.ch, ci.env, ci.ans);
    KeyOnlyBelowTwo(Before(r, outs, j), cj.ch, cj.env, cj.ans);
    NoDropBelowTwoWithoutReset(r, calls, i, j);
  }

  /** From 2 or more, one call takes the counter below 2 only by resetting it and refusing. */
  lemma DropBelowTwoIsReset(r: int, ch: Challenge, env: Env, ans: Answers)
    requires r >= 2 && Negotiate(r, ch, env, ans).retries < 2
    ensures Negotiate(r, ch, env, ans).retries == 0 && Negotiate(r, ch, env, ans).cred.EUser?
  {
  }

  /** A key credential comes only from counter 0 or 1 and leaves the counter at 2. */
  lemma KeyOnlyBelowTwo(r: int, ch: Challenge, env: Env, ans: Answers)
    requires Negotiate(r, ch, env, ans).cred.KeyFile?
    ensures 0 <= r <= 1 && Negotiate(r, ch, env, ans).retries == 2
  {
  }

  /** An agent credential comes only from counter 0 and leaves the counter at 1. */
  lemma AgentOnlyFromZero(r: int, ch: Challenge, env: Env, ans: Answers)
    requires Negotiate(r, ch, env, ans).cred.Agent?
    ensures r == 0 && Negotiate(r, ch, env, ans).retries == 1
  {
  }

  /** A user/password credential for which nobody was asked is the PAT: from counter 0, leaving 1. */
  lemma PatOnlyFromZero(r: int, ch: Challenge, env: Env, ans: Answers)
    requires Negotiate(r, ch, env, ans).cred.UserPass? && Negotiate(r, ch, env, ans).asked == []
    ensures r == 0 && Negotiate(r, ch, env, ans).retries == 1
  {
  }

  /** A call that offers only user/password authentication. */
  predicate UserpassOnly(c: Call) {
    UserpassAllowed(c.ch.allowed) && !SshAllowed(c.ch.allowed)
  }

  /** The PAT does not apply to this call. */
  predicate NoPat(c: Call) {
    !(UrlIsGithub(c.ch.url, c.ch.username) && c.env.githubPat.Some?)
  }

  /** The force-reprompt flag of the password request made by an outcome. */
  predicate AskedWithForce(o: Outcome, force: bool) {
    |o.asked| == 1 && o.asked[0].AskPassword? && o.asked[0].force == force
  }

  /**
   * HTTPS exhaustion without the PAT: from a fresh payload, the password
   * provider is asked on three calls with force-reprompt false, true, true
   * (whatever it answers), and the fourth call resets the counter and refuses.
   */
  lemma UserpassExhaustion(calls: seq<Call>)
    requires |calls| == 4
    requires forall i :: 0 <= i < 4 ==> UserpassOnly(calls[i])
    requires NoPat(calls[0])
    ensures var outs := Run(0, calls);
      AskedWithForce(outs[0], false) && AskedWithForce(outs[1], true) && AskedWithForce(outs[2], true) &&
      outs[3].cred == EUser && outs[3].retries == 0 && outs[3].asked == []
  {
    var outs := Run(0, calls);
    RunStep(0, calls, 0);
    RunStep(0, calls, 1);
    RunStep(0, calls, 2);
    RunStep(0, calls, 3);
    assert outs[0].retries == 2;
    assert outs[1].retries == 3;
    assert outs[2].retries == 4;
  }

  /**
   * HTTPS exhaustion with the PAT: the first call offers the PAT as user "git"
   * without asking anybody, the next three ask the password provider with
   * force-reprompt false, true, true, and the fifth resets and refuses.
   */
  lemma PatThenExhaustion(calls: seq<Call>)
    requires |calls| == 5
    requires forall i :: 0 <= i < 5 ==> UserpassOnly(calls[i])
    requires !NoPat(calls[0])
    ensures var outs := Run(0, calls);
      outs[0].cred == UserPass("git", calls[0].env.githubPat.value) && outs[0].asked == [] &&
      AskedWithForce(outs[1], false) && AskedWithForce(outs[2], true) && AskedWithForce(outs[3], true) &&
      outs[4].cred == EUser && outs[4].retries == 0 && outs[4].asked == []
  {
    var outs := Run(0, calls);
    RunStep(0, calls, 0);
    RunStep(0, calls, 1);
    RunStep(0, calls, 2);
    RunStep(0, calls, 3);
    RunStep(0, calls, 4);
    assert outs[0].retries == 1;
    assert outs[1].retries == 2;
    assert outs[2].retries == 3;
    assert outs[3].retries == 4;
  }

  /** A call that offers only SSH key authentication. */
  predicate SshOnly(c: Call) {
    SshAllowed(c.ch.allowed) && !UserpassAllowed(c.ch.allowed)
  }

  /**
   * SSH-only operation from a fresh payload: the first call offers the agent
   * (or, failing that, the key, or refuses); the second offers the key only if
   * the agent was offered first; from the third call on every call refuses
   * and no password is ever asked for.
   */
  lemma SshOnlyRun(calls: seq<Call>)
    requires forall i :: 0 <= i < |calls| ==> SshAllowed(calls[i].ch.allowed)
    ensures var outs := Run(0, calls);
      (forall i :: 0 <= i < |calls| ==> outs[i].retries == (if i == 0 && outs[0].cred.Agent? then 1 else 2)) &&
      (forall i :: 1 <= i < |calls| ==> !outs[i].cred.Agent?) &&
      (forall i :: 1 <= i < |calls| && outs[i].cred.KeyFile? ==> i == 1 && outs[0].cred.Agent?) &&
      (forall i :: 2 <= i < |calls| ==> outs[i].cred == EUser && outs[i].asked == [])
  {
    var outs := Run(0, calls);
    forall i | 0 <= i < |calls|
      ensures outs[i].retries == (if i == 0 && outs[0].cred.Agent? then 1 else 2)
      ensures i >= 1 ==> !outs[i].cred.Agent?
      ensures i >= 1 && outs[i].cred.KeyFile? ==> i == 1 && outs[0].cred.Agent?
      ensures i >= 2 ==> outs[i].cred == EUser && outs[i].asked == []
    {
      SshOnlyPrefix(calls, i);
    }
  }

  lemma {:induction false} SshOnlyPrefix(calls: seq<Call>, i: nat)
    requires i < |calls|
    requires forall k :: 0 <= k < |calls| ==> SshAllowed(calls[k].ch.allowed)
    ensures var outs := Run(0, calls);
      outs[i].retries == (if i == 0 && outs[0].cred.Agent? then 1 else 2) &&
      (i >= 1 ==> !outs[i].cred.Agent?) &&
      (i >= 1 && outs[i].cred.KeyFile? ==> i == 1 && outs[0].cred.Agent?) &&
      (i >= 2 ==> outs[i].cred == EUser && outs[i].asked == [])
  {
    RunStep(0, calls, i);
    if i > 0 {
      SshOnlyPrefix(calls, i - 1);
    }
  }
}
