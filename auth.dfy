/**
 * The credential negotiator `auth_callback` (src/clone.c:150-224) and its
 * per-operation payload `auth_callback_data_t` (src/clone.c:6-11).
 *
 * libgit2 calls the negotiator each time the remote asks for credentials. The
 * negotiator keeps one counter, `retries`, across the calls of one operation
 * and walks two ladders: for SSH the agent, then the user's key, then give up;
 * for HTTPS the GITHUB_PAT once, then up to three interactive lookups, then
 * reset and give up.
 *
 * Negotiate states the policy as a decision table; AuthCallbackData.Callback
 * updates the counter step by step as the source does and is proved to agree
 * with the table.
 */
module Auth {
  import opened Wrappers
  import opened GitHub
  import opened Providers

  /** libgit2's credential type bits (`allowed_types` is an unsigned int). */
  const GIT_CREDTYPE_USERPASS_PLAINTEXT: bv32 := 1
  const GIT_CREDTYPE_SSH_KEY: bv32 := 2

  /** libgit2's "user callback refused" error code. */
  const GIT_EUSER: int := -7

  predicate SshAllowed(allowed: bv32) { allowed & GIT_CREDTYPE_SSH_KEY != 0 }
  predicate UserpassAllowed(allowed: bv32) { allowed & GIT_CREDTYPE_USERPASS_PLAINTEXT != 0 }

  /** What one call hands back to libgit2: a credential (return code 0) or GIT_EUSER. */
  datatype Cred =
    | Agent(user: string)
    | KeyFile(user: string, pubkeyPath: string, keyPath: string, passPhrase: string)
    | UserPass(user: string, secret: string)
    | EUser

  function ReturnCode(c: Cred): (code: int)
    ensures code == 0 <==> !c.EUser?
    ensures c.EUser? ==> code == GIT_EUSER
  {
    if c.EUser? then GIT_EUSER else 0
  }

  /** One credential request from the transport. */
  datatype Challenge = Challenge(allowed: bv32, url: Option<string>, username: Option<string>)

  /** The environment: is SSH_AUTH_SOCK set, and the value of GITHUB_PAT if set. */
  datatype Env = Env(sshAuthSock: bool, githubPat: Option<string>)

  /**
   * What the external providers answer if they are asked during this call:
   * whether the ssh-agent credential can be built, what the R `getkey` callback
   * returns, whether libgit2 builds a key credential from its paths, and the R
   * `getcred` callback as a function of (url, username, force re-prompt).
   */
  datatype Answers = Answers(
    agentOk: bool,
    keyFiles: Option<seq<string>>,
    keyCredOk: bool,
    getcred: (Option<string>, Option<string>, bool) -> Option<seq<string>>)

  /** A provider consulted during a call. */
  datatype Ask =
    | AskAgent(user: string)
    | AskKeyFiles
    | AskPassword(url: Option<string>, username: Option<string>, force: bool)

  /** The verbose narration, one note per `print_if_verbose` the source reaches. */
  datatype Note =
    | TryingAgent(user: string)
    | AgentFailed
    | NoAgent
    | TryingKey(user: string)
    | SshFailed
    | UsernameHint(user: string)
    | GaveUp(times: int)
    | TryingPat
    | LookingUp(url: Option<string>)
    | LookupFailed
    | AllFailed

  /** The effect of one call: what it returns, the new counter, whom it asked, what it narrates. */
  datatype Outcome = Outcome(cred: Cred, retries: int, asked: seq<Ask>, notes: seq<Note>)

  /** The SSH user name: the transport's, or "git" when it gives none. */
  function SshUser(username: Option<string>): (u: string)
    ensures username.Some? ==> u == username.value
    ensures username.None? ==> u == "git"
  {
    match username
    case Some(n) => n
    case None => "git"
  }

  /** The give-up narration of the SSH ladder, with the user-name hint for a user other than "git". */
  function SshGiveUpNotes(user: string): seq<Note> {
    [SshFailed] + (if user != "git" then [UsernameHint(user)] else [])
  }

  /**
   * The SSH ladder, for a counter of 0, 1 or 2. It leaves the counter at 1
   * after an agent offer and at 2 otherwise, and never asks for a password.
   */
  function SshLadder(r: int, user: string, env: Env, ans: Answers): (o: Outcome)
    requires 0 <= r <= 2
    ensures o.retries == (if o.cred.Agent? then 1 else 2)
    ensures !o.cred.UserPass?
    ensures forall a :: a in o.asked ==> !a.AskPassword?
  {
    if r == 0 && env.sshAuthSock && ans.agentOk then
      Outcome(Agent(user), 1, [AskAgent(user)], [TryingAgent(user)])
    else if r <= 1 then
      var agentAsked := if r == 0 && env.sshAuthSock then [AskAgent(user)] else [];
      var agentNotes := if r != 0 then [] else if env.sshAuthSock then [AgentFailed] else [NoAgent];
      var key := GetKeyFiles(ans.keyFiles);
      if key.Some? && ans.keyCredOk then
        Outcome(KeyFile(user, key.value.pubkeyPath, key.value.keyPath, key.value.passPhrase), 2,
                agentAsked + [AskKeyFiles], agentNotes + [TryingKey(user)])
      else
        Outcome(EUser, 2, agentAsked + [AskKeyFiles], agentNotes + SshGiveUpNotes(user))
    else
      Outcome(EUser, 2, [], SshGiveUpNotes(user))
  }

  /**
   * The HTTPS ladder. Above counter 3 it resets to 0 and refuses, asking
   * nobody; otherwise it raises the counter, offers only user/password
   * credentials, and asks at most the password provider, once, with
   * force-reprompt equal to "new counter above 2".
   */
  function HttpLadder(r: int, ch: Challenge, env: Env, ans: Answers): (o: Outcome)
    ensures r > 3 ==> o.cred.EUser? && o.retries == 0 && o.asked == []
    ensures r <= 3 ==> o.retries > r && (o.cred.UserPass? || o.cred.EUser?)
    ensures |o.asked| <= 1
    ensures forall a :: a in o.asked ==> a == AskPassword(ch.url, ch.username, o.retries > 2)
  {
    if r > 3 then
      Outcome(EUser, 0, [], [GaveUp(r - 1), AllFailed])
    else if r == 0 && UrlIsGithub(ch.url, ch.username) && env.githubPat.Some? then
      Outcome(UserPass("git", env.githubPat.value), 1, [], [TryingPat])
    else
      var next := if r == 0 then 2 else r + 1;
      var force := next > 2;
      var lookup := GetPassword(ans.getcred(ch.url, ch.username, force), ch.username);
      var asked := [AskPassword(ch.url, ch.username, force)];
      if lookup.user.Some? && lookup.secret.Some? then
        Outcome(UserPass(lookup.user.value, lookup.secret.value), next, asked, [LookingUp(ch.url)])
      else
        Outcome(EUser, next, asked, [LookingUp(ch.url), LookupFailed])
  }

  /**
   * One call of `auth_callback` from counter `r`: SSH first when allowed and
   * the counter is 0, 1 or 2; otherwise HTTPS when allowed; otherwise refuse.
   */
  function Negotiate(r: int, ch: Challenge, env: Env, ans: Answers): (o: Outcome)
    // the counter stays in 0..4
    ensures 0 <= r <= 4 ==> 0 <= o.retries <= 4
    // every credential offered raises the counter (the loop-termination guarantee)
    ensures !o.cred.EUser? ==> o.retries > r
    // the counter comes back to 0 from above only with a refusal
    ensures r > 0 && o.retries == 0 ==> o.cred.EUser?
  {
    if SshAllowed(ch.allowed) && 0 <= r <= 2 then SshLadder(r, SshUser(ch.username), env, ans)
    else if UserpassAllowed(ch.allowed) then HttpLadder(r, ch, env, ans)
    else Outcome(EUser, r, [], [AllFailed])
  }

  /** A mask with neither known type is refused and the counter is left alone. */
  lemma NoKnownTypeRefused(r: int, ch: Challenge, env: Env, ans: Answers)
    requires !SshAllowed(ch.allowed) && !UserpassAllowed(ch.allowed)
    ensures Negotiate(r, ch, env, ans) == Outcome(EUser, r, [], [AllFailed])
  {
  }

  /**
   * The SSH ladder: the agent is offered only from counter 0 with SSH_AUTH_SOCK
   * set (counter then 1); the key only from counter 0 or 1 (counter then 2);
   * from counter 2 an SSH-allowed call refuses, leaves the counter at 2 and
   * asks nobody. The SSH user is the transport's user or "git".
   */
  lemma SshLadderSteps(r: int, ch: Challenge, env: Env, ans: Answers)
    requires SshAllowed(ch.allowed)
    ensures var o := Negotiate(r, ch, env, ans);
      (o.cred.Agent? <==> r == 0 && env.sshAuthSock && ans.agentOk) &&
      (o.cred.Agent? ==> o.cred.user == SshUser(ch.username) && o.retries == 1) &&
      (o.cred.KeyFile? <==> (r == 1 || (r == 0 && !(env.sshAuthSock && ans.agentOk))) &&
                            GetKeyFiles(ans.keyFiles).Some? && ans.keyCredOk) &&
      (o.cred.KeyFile? ==> o.cred.user == SshUser(ch.username) && o.retries == 2) &&
      (AskAgent(SshUser(ch.username)) in o.asked <==> r == 0 && env.sshAuthSock) &&
      (AskKeyFiles in o.asked <==> r == 1 || (r == 0 && !(env.sshAuthSock && ans.agentOk))) &&
      (r == 2 ==> o == Outcome(EUser, 2, [], SshGiveUpNotes(SshUser(ch.username))))
  {
  }

  /**
   * The PAT fast path: a credential that no provider was asked for on an
   * HTTPS-only call is the PAT, offered as user "git" only from counter 0 to a
   * GitHub URL, with the counter then 1.
   */
  lemma PatFastPath(r: int, ch: Challenge, env: Env, ans: Answers)
    requires !SshAllowed(ch.allowed) || !(0 <= r <= 2)
    requires UserpassAllowed(ch.allowed)
    ensures var o := Negotiate(r, ch, env, ans);
      (o.cred.UserPass? && o.asked == [] <==>
        r == 0 && UrlIsGithub(ch.url, ch.username) && env.githubPat.Some?) &&
      (o.cred.UserPass? && o.asked == [] ==>
        o.cred == UserPass("git", env.githubPat.value) && o.retries == 1)
  {
  }

  /**
   * The interactive lookup: when the password provider is asked, the counter
   * was incremented first (from 0 straight to 2 when the PAT did not apply),
   * the force-reprompt flag is "counter above 2", and the call offers exactly
   * what the provider's answer validates to, or refuses.
   */
  lemma InteractiveLookup(r: int, ch: Challenge, env: Env, ans: Answers)
    requires !SshAllowed(ch.allowed) || !(0 <= r <= 2)
    requires UserpassAllowed(ch.allowed)
    requires 0 <= r <= 3 && !(r == 0 && UrlIsGithub(ch.url, ch.username) && env.githubPat.Some?)
    ensures var o := Negotiate(r, ch, env, ans);
      var force := o.retries > 2;
      var lookup := GetPassword(ans.getcred(ch.url, ch.username, force), ch.username);
      o.retries == (if r == 0 then 2 else r + 1) &&
      o.asked == [AskPassword(ch.url, ch.username, force)] &&
      (o.cred.EUser? <==> lookup.secret.None?) &&
      (!o.cred.EUser? ==> o.cred == UserPass(lookup.user.value, lookup.secret.value))
  {
  }

  /** Exhaustion: with HTTPS allowed and the counter above 3, the call resets it to 0 and refuses. */
  lemma HttpExhaustion(r: int, ch: Challenge, env: Env, ans: Answers)
    requires UserpassAllowed(ch.allowed) && r > 3
    ensures Negotiate(r, ch, env, ans) == Outcome(EUser, 0, [], [GaveUp(r - 1), AllFailed])
  {
  }

  /**
   * `auth_callback_data_t`: the payload of one operation. The R callbacks it
   * holds are represented by the Answers passed to each call.
   */
  class AuthCallbackData {
    var verbose: bool
    var retries: int
    /** The narration written to R's error stream. */
    var log: seq<Note>

    /** `auth_callback_data`: a fresh payload with the counter at 0. */
    constructor (verbose: bool)
      ensures this.verbose == verbose && retries == 0 && log == []
    {
      this.verbose := verbose;
      retries := 0;
      log := [];
    }

    /** `print_if_verbose`. */
    method Say(n: Note)
      modifies this`log
      ensures log == old(log) + (if verbose then [n] else [])
    {
      if verbose {
        log := log + [n];
      }
    }

    /** `auth_callback`: one credential request, updating the counter as the source does. */
    method Callback(ch: Challenge, env: Env, ans: Answers) returns (cred: Cred, asked: seq<Ask>)
      modifies this`retries, this`log
      ensures var o := Negotiate(old(retries), ch, env, ans);
        cred == o.cred && asked == o.asked && retries == o.retries &&
        log == old(log) + (if verbose then o.notes else [])
    {
      var done: bool;
      if SshAllowed(ch.allowed) {
        done, cred, asked := SshBlock(SshUser(ch.username), env, ans);
        if done {
          return;
        }
      }
      if UserpassAllowed(ch.allowed) {
        done, cred, asked := HttpBlock(ch, env, ans);
        if done {
          return;
        }
      }
      Say(AllFailed);
      cred, asked := EUser, [];
    }

    /**
     * The SSH block of `auth_callback` (agent, then key, then give up, falling
     * through within the call). It decides the call exactly when the counter
     * is 0, 1 or 2; otherwise it changes nothing.
     */
    method SshBlock(user: string, env: Env, ans: Answers) returns (done: bool, cred: Cred, asked: seq<Ask>)
      modifies this`retries, this`log
      ensures done <==> 0 <= old(retries) <= 2
      ensures done ==> var o := SshLadder(old(retries), user, env, ans);
        cred == o.cred && asked == o.asked && retries == o.retries &&
        log == old(log) + (if verbose then o.notes else [])
      ensures !done ==> retries == old(retries) && log == old(log)
    {
      done, cred, asked := false, EUser, [];
      if retries == 0 {
        retries := retries + 1;
        if env.sshAuthSock {
          asked := [AskAgent(user)];
          if ans.agentOk {
            Say(TryingAgent(user));
            return true, Agent(user), asked;
          }
          Say(AgentFailed);
        } else {
          Say(NoAgent);
        }
      }
      if retries == 1 {
        retries := retries + 1;
        asked := asked + [AskKeyFiles];
        var key := GetKeyFiles(ans.keyFiles);
        if key.Some? && ans.keyCredOk {
          Say(TryingKey(user));
          return true, KeyFile(user, key.value.pubkeyPath, key.value.keyPath, key.value.passPhrase), asked;
        }
      }
      if retries == 2 {
        Say(SshFailed);
        if user != "git" {
          Say(UsernameHint(user));
        }
        return true, EUser, asked;
      }
    }

    /**
     * The HTTPS block of `auth_callback`. Above counter 3 it resets the counter
     * and leaves the call to the final refusal; otherwise it decides the call.
     */
    method HttpBlock(ch: Challenge, env: Env, ans: Answers) returns (done: bool, cred: Cred, asked: seq<Ask>)
      modifies this`retries, this`log
      ensures done <==> old(retries) <= 3
      ensures done ==> var o := HttpLadder(old(retries), ch, env, ans);
        cred == o.cred && asked == o.asked && retries == o.retries &&
        log == old(log) + (if verbose then o.notes else [])
      ensures !done ==> retries == 0 && log == old(log) + (if verbose then [GaveUp(old(retries) - 1)] else [])
    {
      done, cred, asked := false, EUser, [];
      if retries > 3 {
        Say(GaveUp(retries - 1));
        retries := 0;
        return;
      }
      done := true;
      if retries == 0 {
        retries := retries + 1;
        if UrlIsGithub(ch.url, ch.username) && env.githubPat.Some? {
          Say(TryingPat);
          return true, UserPass("git", env.githubPat.value), [];
        }
      }
      retries := retries + 1;
      Say(LookingUp(ch.url));
      var force := retries > 2;
      asked := [AskPassword(ch.url, ch.username, force)];
      var lookup := GetPassword(ans.getcred(ch.url, ch.username, force), ch.username);
      if lookup.user.None? || lookup.secret.None? {
        Say(LookupFailed);
        cred := EUser;
      } else {
        cred := UserPass(lookup.user.value, lookup.secret.value);
      }
    }
  }
}
