# Credential negotiation of gert's clone/fetch/push (src/clone.c), modelled in Dafny

gert is an R binding to libgit2. When libgit2 needs credentials during a
clone, fetch or push, it calls `auth_callback` again and again. Every call
receives the credential types the remote accepts, the URL and the user name.
Each operation gets a fresh payload whose `retries` counter is shared by all
of that operation's calls. The counter drives two ladders:

- SSH: the ssh-agent, then the key files that the R `getkey` callback names,
  then give up.
- HTTPS: the `GITHUB_PAT` once, for GitHub URLs only, then up to three
  interactive lookups through the R `getcred` callback, then reset the
  counter and give up.

Around the negotiator sit small helpers:

- the GitHub detector `url_is_github`;
- the validation of what the R callbacks return;
- two progress reporters. Each keeps a process-wide `static prev` and prints
  only when the count changes;
- a process-wide session keyphrase slot;
- the reference-update line `update_cb`.

Modules, one file each:

- `Wrappers` (wrappers.dfy): `Option` and `Result`.
- `GitHub` (github.dfy): `strstr` and `snprintf` as functions, and the detector
  with the source's truncation and without it.
- `Providers` (providers.dfy): the validation rules of `get_password` and
  `get_key_files`. The R call's result is an `Option<seq<string>>`: None when
  the call errs or does not return a character vector.
- `Auth` (auth.dfy): the credential and challenge types. `Negotiate` states
  one call as a decision table. The class `AuthCallbackData` (the payload)
  has the method `Callback`. It changes `retries` step by step, falling
  through between the `if` blocks as the source does, and is proved equal to
  `Negotiate`.
- `AuthRuns` (auth_runs.dfy): `Run` folds `Negotiate` over any sequence of
  calls. Its lemmas cover the counter bound, termination, no repeated agent
  or PAT offer without a reset, and the exact exhaustion sequences.
- `Progress` (progress.dfy): both reporters as classes over their `prev`
  field and an output log, plus lemmas on `Replay`, the output of a sequence
  of reports.
- `Keyphrase` (keyphrase.dfy): the keyphrase slot as a class.
- `RefUpdate` (refupdate.dfy): `git_oid_fmt` as `Hex`, with its inverse, and
  the `update_cb` line.

These inputs come in as plain parameters, never read directly:

- the environment: is `SSH_AUTH_SOCK` set, and the value of `GITHUB_PAT` if
  it is set (`Auth.Env`);
- the results of libgit2's credential constructors, and the R callbacks'
  answers (`Auth.Answers`). `getcred` is a function of (url, user name,
  force re-prompt), so the lemmas can tell which flag it received.

Verbose narration (`print_if_verbose`) is a log of `Auth.Note` values. Each
call also returns the list of providers it consulted (`Auth.Ask`).

In the `GitHub` module, and wherever the model handles text, a `string` is
the content of a C string, one character per byte. Text outside ASCII
appears as its UTF-8 bytes.

Points where the code behaves in ways a reader may not expect:

- After a failed agent attempt, the key is tried in the same call. From
  counter 0 with no agent, the first SSH call may already offer the key.
- An HTTPS call from counter 0 that does not use the PAT moves the counter
  from 0 to 2.
- When the HTTPS ladder is exhausted, the counter is reset to 0 inside the
  operation. An SSH call from counter 3 or 4 falls through to the HTTPS
  ladder.
- The reporters' `prev` values are process-wide statics that all operations
  share. Because `prev` starts at 0, a first report of 0 prints nothing (see
  `Progress.ReportTwice`).

## Model

| member | source | states |
|---|---|---|
| `GitHub.StrStr` | src/clone.c:133 | `strstr`: None only if `p` occurs nowhere; otherwise the offset of an occurrence with no earlier one |
| `GitHub.StrStrAtStart` | src/clone.c:133-143 | `strstr(url, p) == url` holds exactly when `p` is a prefix of `url` |
| `GitHub.Snprintf` | src/clone.c:139 | `snprintf` writes a prefix of the full text: all of it when it fits, otherwise exactly `n` − 1 bytes |
| `GitHub.UrlIsGithubAsWritten` | src/clone.c:130-147 | the detector as written (truncated user patterns) is false for a NULL URL |
| `GitHub.UrlIsGithub` | src/clone.c:130-147 | false for a NULL URL; true exactly when the URL starts with `http://github.com` or `https://github.com`, or, given a user, `http://<user>@github.com` or `https://<user>@github.com` |
| `GitHub.UrlIsGithubExtends` | src/clone.c:130-147 | a pure prefix test: appending anything to a matching URL keeps it matching |
| `GitHub.AsWrittenAgreesOnShortUsers` | src/clone.c:137-145 | for user names whose bytes `snprintf` does not truncate, the source's detector equals the corrected one |
| `GitHub.AcceptsGithubUrl` | src/clone.c:135-136 | `https://github.com/a/b` is accepted without a user |
| `GitHub.RejectsForeignHosts` | src/clone.c:133-136 | `https://evilgithub.com/x` and `https://attacker.com?x=github.com` are rejected |
| `GitHub.UserPatternExamples` | src/clone.c:137-145 | `https://x@github.com/a` is accepted for user `x`; `https://y@github.com/a` is rejected for user `x` |
| `GitHub.TruncatedPatternAcceptsForeignHost` | src/clone.c:138-144 | with a 3991-byte user the source's detector accepts a URL on host `evil.example`, which the corrected detector rejects |
| `GitHub.TruncatedMultiByteUserAcceptsForeignHost` | src/clone.c:138-144 | the limit counts bytes: 2000 × `é` (4000 UTF-8 bytes) is cut inside a character, and the source's detector accepts a URL on host `evil.example` that the corrected detector rejects |
| `Providers.GetPassword` | src/clone.c:46-54 | fails (no secret, user untouched) unless the result is a vector of at least 2 strings; the secret is element 1; element 0 fills the user name only when none was given |
| `Providers.GetKeyFilesAsWritten` | src/clone.c:63-72 | fails only on an R error or non-character result; shorter than 3 strings reads past the end; otherwise the key data are elements 0, 1, 2 |
| `Providers.EmptyKeyVectorReadsPastEnd` | src/clone.c:63-70 | an empty vector and a 2-string vector pass the source's check and are read past their end |
| `Providers.GetKeyFiles` | src/clone.c:63-72 | the corrected rule: succeeds exactly on vectors of at least 3 strings, with elements 0, 1, 2 as public key, private key, passphrase |
| `Providers.GetKeyFilesAgrees` | src/clone.c:63-72 | wherever the source's reads stay in bounds, the corrected rule fails and succeeds exactly as the source does, with the same data |
| `Auth.ReturnCode` | src/clone.c:192-223 | a credential returns 0; a refusal returns `GIT_EUSER` (-7) |
| `Auth.SshUser` | src/clone.c:154 | the SSH user is the transport's user name, or `"git"` when there is none |
| `Auth.Negotiate` | src/clone.c:150-224 | one call of `auth_callback` as a decision table: SSH ladder when SSH is allowed and the counter is 0..2, else HTTPS ladder when allowed, else refuse; from 0..4 the counter stays in 0..4; every credential offered raises the counter; a return to 0 from above is a refusal |
| `Auth.SshLadder` | src/clone.c:160-193 | the SSH block leaves the counter at 1 after an agent offer and at 2 otherwise, never offers a user/password credential and never asks for a password |
| `Auth.HttpLadder` | src/clone.c:199-221 | above counter 3 the HTTPS block resets to 0, refuses and asks nobody; otherwise it raises the counter, offers only user/password, and asks at most the password provider once with force-reprompt = "new counter > 2" |
| `Auth.NoKnownTypeRefused` | src/clone.c:222-223 | a mask with neither SSH_KEY nor USERPASS_PLAINTEXT returns `GIT_EUSER`, leaves the counter, asks nobody, notes "all methods failed" |
| `Auth.SshLadderSteps` | src/clone.c:160-193 | with SSH allowed: agent offered iff counter 0, SSH_AUTH_SOCK set and the agent works (counter then 1); agent asked iff counter 0 and the socket is set; key asked and offered only from counter 1, or 0 after the agent step failed (counter then 2); user is the SSH user; at counter 2 the call refuses, keeps 2, asks nobody |
| `Auth.PatFastPath` | src/clone.c:204-209 | on an HTTPS call, a credential for which no provider is asked is offered iff the counter was 0, the URL is GitHub's and GITHUB_PAT is set; it is user `"git"` with the PAT, counter then 1 |
| `Auth.InteractiveLookup` | src/clone.c:211-219 | otherwise, from counter 0..3, the counter is first incremented (0 goes to 2); the provider is asked once, with force-reprompt equal to "counter > 2"; the call offers exactly what `GetPassword` validates, or refuses |
| `Auth.HttpExhaustion` | src/clone.c:200-202 | with HTTPS allowed and the counter above 3 (and the SSH ladder not applying), the call resets the counter to 0 and refuses |
| `Auth.AuthCallbackData.constructor` | src/clone.c:226-233 | `auth_callback_data`: counter 0, the given verbosity, empty narration |
| `Auth.AuthCallbackData.Say` | src/clone.c:19-26 | narration is recorded only in verbose mode |
| `Auth.AuthCallbackData.Callback` | src/clone.c:150-224 | the imperative callback returns the credential, consults the providers and leaves the counter and narration exactly as `Negotiate` says |
| `Auth.AuthCallbackData.SshBlock` | src/clone.c:160-193 | the SSH block decides the call exactly when the counter is 0, 1 or 2, as `SshLadder` says; otherwise it changes nothing |
| `Auth.AuthCallbackData.HttpBlock` | src/clone.c:199-221 | the HTTPS block decides the call exactly when the counter is at most 3, as `HttpLadder` says; otherwise it resets the counter to 0 and notes the give-up |
| `AuthRuns.Run` | src/clone.c:150-233 | the outcomes of a sequence of calls on one payload, one per call, each call starting from the counter the previous one left |
| `AuthRuns.RunRetriesBounded` | src/clone.c:150-233 | from a fresh payload, any sequence of calls keeps the counter in 0..4 |
| `AuthRuns.AtMostFourOffers` | src/clone.c:150-224 | a run of calls that all offer credentials has at most 4 − r calls: from a fresh payload the fifth call refuses at the latest |
| `AuthRuns.ZeroAgainOnlyAfterReset` | src/clone.c:200-202 | between a call leaving the counter positive and a later call starting at 0 there is a reset-and-refuse call |
| `AuthRuns.AgentNotRepeatedWithoutReset` | src/clone.c:162-167 | the agent is never offered twice unless a reset-and-refuse call came in between |
| `AuthRuns.PatNotRepeatedWithoutReset` | src/clone.c:204-209 | the PAT is never offered twice unless a reset-and-refuse call came in between |
| `AuthRuns.NoDropBelowTwoWithoutReset` | src/clone.c:199-223 | between a call leaving the counter at 2 or more and a later call starting below 2 there is a reset-and-refuse call |
| `AuthRuns.KeyNotRepeatedWithoutReset` | src/clone.c:175-185 | the key from `getkey` is never offered twice unless a reset-and-refuse call came in between |
| `AuthRuns.DropBelowTwoIsReset` | src/clone.c:199-223 | from 2 or more the counter drops below 2 in one call only by the reset to 0 that refuses |
| `AuthRuns.KeyOnlyBelowTwo` | src/clone.c:175-185 | a key credential comes only from counter 0 or 1 and leaves it at 2 |
| `AuthRuns.AgentOnlyFromZero` | src/clone.c:162-167 | an agent credential comes only from counter 0 and leaves it at 1 |
| `AuthRuns.PatOnlyFromZero` | src/clone.c:204-209 | a user/password credential offered without asking anybody comes from counter 0 and leaves it at 1 |
| `AuthRuns.UserpassExhaustion` | src/clone.c:199-223 | HTTPS only, no PAT, fresh payload: the provider is asked on three calls with force false, true, true, whatever it answers; the fourth call resets to 0 and refuses |
| `AuthRuns.PatThenExhaustion` | src/clone.c:199-223 | HTTPS only with the PAT: the first call offers `("git", PAT)` asking nobody; the next three ask with force false, true, true; the fifth resets and refuses |
| `AuthRuns.SshOnlyRun` | src/clone.c:160-193 | SSH-allowed calls from a fresh payload: the counter is 1 after an agent offer, 2 otherwise; agent only on the first call; key on a later call only as the second call after the agent; from the third call every call refuses and asks nobody |
| `Progress.Lines` | src/clone.c:100-105 | a report writes nothing iff the count equals `prev`; otherwise an update line with the count and total ("Transferred" for the transfer reporter, "Checked out" for checkout), followed by that reporter's completion line exactly when count = total |
| `Progress.Replay` | src/clone.c:97-127 | a sequence of reports writes at least one and at most three lines per report, starting with the first report's poll |
| `Progress.RepeatsAreSilent` | src/clone.c:100 | repeating the stored count writes nothing but the interrupt polls |
| `Progress.CompletionWrittenOnce` | src/clone.c:100-105 | reaching the total and repeating it any number of times writes exactly one completion line |
| `Progress.EveryReportPolls` | src/clone.c:98 | every report polls for a user interrupt, whether or not the count changed |
| `Progress.RemoteMessage` | src/clone.c:113-116 | the push status line carries the ref name and the status, `"unchanged"` when NULL |
| `Progress.TransferReporter.constructor` | src/clone.c:99 | `prev` starts at 0 with nothing written |
| `Progress.TransferReporter.PrintProgress` | src/clone.c:97-107 | `print_progress` returns 0, sets `prev` to the count and appends what `Replay` gives for this report |
| `Progress.TransferReporter.FetchProgress` | src/clone.c:109-111 | `fetch_progress` reports the received and total object counts through `print_progress` |
| `Progress.CheckoutReporter.constructor` | src/clone.c:120 | `prev` starts at 0 with nothing written |
| `Progress.CheckoutReporter.CheckoutProgress` | src/clone.c:118-127 | `checkout_progress` sets `prev` to the count and appends what `Replay` gives for this report |
| `Progress.ReportTwice` | src/clone.c:97-107 | in a fresh process, the same report twice writes its lines once; a first count of 0 writes only polls |
| `Keyphrase.SessionKeyphrase.constructor` | src/clone.c:29 | the slot starts NULL |
| `Keyphrase.SessionKeyphrase.Call` | src/clone.c:28-35 | a non-NULL argument is stored and NULL returned; NULL returns the stored value and changes nothing |
| `Keyphrase.SessionKeyphrase.SetSessionKeyphrase` | src/clone.c:347-352 | an argument that is not a non-empty character vector raises "Need to pass a string" and keeps the slot; otherwise its first string is stored |
| `Keyphrase.SetThenGet` | src/clone.c:28-35 | reading before any set gives NULL; set-then-get gives the value; a second set overwrites the first |
| `Keyphrase.RejectedSetKeepsValue` | src/clone.c:347-351 | a rejected argument leaves an earlier keyphrase in place |
| `RefUpdate.Hex` | src/clone.c:285 | an id is written as two hex digits per byte |
| `RefUpdate.HexRoundTrip` | src/clone.c:285-291 | the written hex reads back to the id's bytes |
| `RefUpdate.HexPrefix` | src/clone.c:288-292 | the first 2k hex digits are the hex of the first k bytes |
| `RefUpdate.IsZero` | src/clone.c:287 | `git_oid_iszero` holds exactly for the all-zero id |
| `RefUpdate.UpdateLine` | src/clone.c:283-295 | the `update_cb` line: tag `[new]     ` for a zero old id, `[updated] ` otherwise; 20 hex digits or 10 + `..` + 10; then a space, the ref name and a newline |
| `RefUpdate.UpdateLineShowsShortIds` | src/clone.c:283-295 | zero old id: `[new]` with the hex of the new id's first 10 bytes; otherwise `[updated]` with the first 5 bytes of each id; the short ids read back to those bytes |
| `RefUpdate.UpdateLineTag` | src/clone.c:287-293 | the line starts with `[new]` exactly when the old id is zero |

## Left out

- The operation drivers `R_git_repository_init`, `R_git_repository_open`,
  `R_git_repository_clone`, `R_git_remote_fetch` and `R_git_remote_push`
  (src/clone.c:245-345). They only wire the callbacks into libgit2 option
  structs and then do network and disk I/O. A driver's effect on the
  negotiator is one fresh `AuthCallbackData` per call, which is modelled.
- The repository handle lifecycle (`new_git_repository`,
  `fin_git_repository`, `get_git_repository`). It is R finalizer machinery.
  `files_to_array` is R marshalling.
- The R evaluation of the callbacks (`Rf_lcons`, `R_tryEval`, `Rf_isString`,
  `PROTECT`, `safe_string`). It is replaced by the abstract result
  `Option<seq<string>>`. `Rf_isFunction` failing with "cb must be a function"
  is not modelled. R's `NA_character_` is not distinguished from other
  strings.
- libgit2's credential constructors are inputs: the agent's success
  (`agentOk`) and `git_cred_ssh_key_new`'s success (`keyCredOk`).
  `git_cred_userpass_plaintext_new` is modelled as always succeeding. It
  fails only on allocation failure, which is not modelled.
- `getenv` becomes the `Env` parameter.
- `R_CheckUserInterrupt` is a non-local exit into R. It is recorded as a
  `Poll` line; the interrupt itself is not modelled.
- The exact text of `REprintf` and `print_if_verbose`. Lines are datatype
  values carrying the printed values, and `%d` formatting is not modelled.
  The exception is the `update_cb` line, which is modelled as a string.
  `giterr_last()->message` is dropped from the agent-failure note.
- Progress counts are `nat`. The `unsigned int` and `size_t` widths are not
  modelled.
- Memory: the `strdup` copies, and the leak of the previous keyphrase when it
  is overwritten.
- The `AT_LEAST_LIBGIT2(0, 20)` guard: the SSH block is always compiled in.
- GitHub.UrlIsGithubAsWritten: strings are sequences of characters that
  stand for bytes. A caller that passes characters above 255 (rather than
  their UTF-8 bytes) gets character counts where the source counts bytes.
- `Auth.Negotiate` uses the corrected `GitHub.UrlIsGithub` and
  `Providers.GetKeyFiles`. The negotiator therefore differs from the source
  on the two inputs under "## Findings". With a user name longer than 3979
  bytes, the model does not offer the PAT to a non-GitHub host. With a
  `getkey` result shorter than three strings, the model treats the key
  lookup as failed, where the source reads past the end of the vector.
- `Auth.AuthCallbackData` does not hold the `getkey`/`getcred` R closures.
  Their answers are passed to each call in `Auth.Answers`.

## Findings

| source | as written | input that shows it | evidently intended | confidence | as-written member | corrected member |
|---|---|---|---|---|---|---|
| src/clone.c:138-144 | `snprintf(buf, 3999, "http://%s@github.com", user)` keeps only 3998 characters, so for a long user name only a prefix of the pattern is compared, and the host part is cut off | user = 3991 × `a`, url = `http://` + user + `@evil.example/repo`: the truncated pattern is `http://` + user, a prefix of the url, so the GITHUB_PAT would be offered to `evil.example`; a user of 2000 × `é` (4000 UTF-8 bytes) does the same | the PAT is offered only to URLs whose authority is github.com ("We only want to send the PAT to Github") | medium, not executed | `GitHub.UrlIsGithubAsWritten`, shown by `GitHub.TruncatedPatternAcceptsForeignHost` and `GitHub.TruncatedMultiByteUserAcceptsForeignHost` | `GitHub.UrlIsGithub` |
| src/clone.c:63-70 | `get_key_files` rejects only an R error or a non-character result, then reads elements 0, 1 and 2 whatever the vector's length | `getkey` returns `character(0)` or `c("id_rsa.pub", "id_rsa")`: element 2 (or 0) is read past the end of the vector | a result with fewer than three strings is treated as a failed key lookup, as `get_password` treats fewer than two | medium, not executed | `Providers.GetKeyFilesAsWritten`, shown by `Providers.EmptyKeyVectorReadsPastEnd` | `Providers.GetKeyFiles` |
