# Verified models of the evaluation lab's core logic

This project models six pieces of the LLM evaluation lab in Dafny and proves what
they promise: the BM1 attempt runner, the BM0 measurement kernel, the blind handoff
protocol, the blind-evaluation bridge with its output commit, the QA3 dashboard
projection, and the hash chain of the CSLive evidence. `dafny verify dfyconfig.toml`
checks all of it.

Hashes, fingerprints, envelopes and authentication codes are injective constructors
on abstract values. Estimates are exact reals. Time, credentials, transports, JSON
and ZIP text are parameters or nondeterministic outcomes.

| files | what they model |
|---|---|
| `Bm1Attempt`, `Bm1Runner`, `Bm1Protocol` | one runner as a class proved against an outcome function; then any number of runners over one durable claim store, interleaved and crashing |
| `Bm0Manifest`, `Bm0Grid`, `Bm0Wilson`, `Bm0Rates`, `Bm0Family`, `Bm0Paired`, `Bm0Corpus`, `Bm0Adjudication` | manifest checks, the observation grid, and the estimators that rest on them |
| `HandoffBinding`, `HandoffWorld`, `HandoffHistory`, `HandoffInvariant`, `HandoffMarkers`, `HandoffMarkerRuns`, `HandoffStore` | the handoff commands as steps over state directories and messages in transit, with failures and crashes at every file operation |
| `HandoffArtifacts`, `HandoffResults`, `BlindReceipt`, `BlindBridge`, `BlindCommit` | archives, envelopes, result bundles, the bridge that produces receipts, and the commit of its output pair |
| `Qa3Projection`, `Qa3Agreement` | projection builder and verifier, and their agreement |
| `HashChain` | the event chain check |
| `Sequences`, `Wrappers` | shared definitions |

## What the proofs found

- The spend reserve covers every attributable cost exactly when both prices of the
  provider are non-negative; `validate_manifest` only checks that they are numbers
  (b2/bm1.py:530-538).
- A BLOCKED receipt of the runner can stand for an attempt that was sent. It happens
  exactly when one call was sent and lost its receipt with a stop: the send raised an
  authorization error; or the receipt was refused that the runner tried to keep after
  unwritten evidence or over the token guard; or a secret was seen and both the receipt
  for it and the one after it were refused. That call raises, and so does the `run_all`
  it was made by (b2/bm1.py:1904); only a `run_all` called on the runner after that marks
  the very attempt BLOCKED. One `run_all` on a new runner, the use in b2/bm1_live.py:1009,
  never returns such a receipt. A receipt lost without a stop never becomes a BLOCKED
  one: the runner stays at an attempt it can no longer claim.
- The handoff markers can get out of order when two commands work in one state directory,
  because a marker can be read before its command has synced it. Exactly two overlaps do
  it: an acknowledgement command that starts while the challenge command of the directory
  has opened and not settled `challenge-published`, and a result command that starts while
  the acknowledgement command has opened and not settled `ack-accepted`. After any run
  without such starts, a start can lead to markers out of order if and only if it is one.
  That each marker first became readable after the ones before it holds for all runs.
- The archive builder bounds only the zipped size. Archives of the last 16 permitted
  sizes are sealed and can never be opened, because base64 pushes the envelope over
  its own bound; and an archive whose files exceed the bound unpacked is rejected by its reader.
- A result bundle is built from every receipt of the bridge that records one provider
  attempt, unless the receipt text or the archive is too large; an answer of a few
  megabytes is therefore paid for and then refused.
- The projection builder does not check that its receipts are of different profiles;
  the verifier accepts what was built exactly when they are.

## Model

| member | source | states |
|---|---|---|
| `HashChain.VerifyChain` | search_cup/v23_t6_cslive_evidence.py:35-43 | the loop returns true exactly for lists whose events are numbered from one, linked to their predecessor's hash and hashed over their own payload |
| `HashChain.PrefixVerifies` | search_cup/v23_t6_cslive_evidence.py:35-43 | every prefix of a verified list verifies |
| `HashChain.SameTipSameHistory` | search_cup/v23_t6_cslive_evidence.py:35-43 | two verified lists of any lengths that end in the same event hash are the same list |
| `HashChain.AppendVerifies` | search_cup/v23_t6_cslive_evidence.py:35-43 | appending keeps a list verified exactly when the new event carries the next number, the current tip and the hash of its own payload |
| `Bm1Attempt.ReserveCoversCostIff` | b2/bm1.py:1376-1393 | the worst-case cost of an attempt covers every cost that can be attributed to it if and only if both prices are non-negative |
| `Bm1Runner.ClaimStore.Claim` | b2/bm1.py:1216-1236 | an exclusive claim succeeds once per attempt; a failure after the file exists leaves a tombstone that blocks the attempt |
| `Bm1Runner.ClaimIsExclusive` | b2/bm1.py:1216-1249 | whoever asks for whatever claims in whatever order, and however the requests fail: an attempt is granted at most once, only when no file was left for it, and from then on its claim verifies, as its claimer's |
| `Bm1Runner.RunNextKeeps` | b2/bm1.py:1693-1884 | every call keeps plan order, the BLOCKED suffix with one stop reason and no claims, the local-error count with its limit and stop, and the request count; it sends only the next planned attempt, only when nobody had claimed it, and claims are never withdrawn |
| `Bm1Runner.VerdictIffAnswered` | b2/bm1.py:1841-1866 | a receipt says PASS exactly when the provider answered the expected decision under the requested identity, within the token guard and with evidence written, and FAIL exactly when it so answered another decision |
| `Bm1Runner.RunAllKeeps` | b2/bm1.py:1886-1906 | whatever happens to each call, `run_all` keeps these invariants and on a normal return holds one receipt per planned attempt |
| `Bm1Runner.ServeKeeps` | b2/bm1.py:1693-1884 | one call stops the runner with more requests than receipts exactly when it is sent and its surroundings lose the receipt: an authorization error in the send, or a receipt refused after a secret, after unwritten evidence or over the token guard |
| `Bm1Runner.BlockedStandsForLostReceiptIff` | b2/bm1.py:1693-1906 | after any calls of a new runner, with claims of others in between, some BLOCKED receipt stands for a sent attempt if and only if one of the calls was sent and so lost its receipt, and it is that call's attempt |
| `Bm1Runner.RunAllBlocksSentIff` | b2/bm1.py:1886-1906 | after any calls, the receipts of a `run_all` that returns hold a BLOCKED one for a sent attempt if and only if one of those earlier calls was sent and lost its receipt; a `run_all` that raises leaves none |
| `Bm1Runner.SecondRunAllBlocksSentIff` | b2/bm1.py:1886-1906 | `run_all` on a new runner never returns such a receipt; called again after it raised, with any claims of others in between, it returns one if and only if the first raised at a sent attempt whose receipt was lost |
| `Bm1Runner.RunAllIsCalls` | b2/bm1.py:1886-1906 | `run_all` makes the planned calls in order under its surroundings and leaves the runner and the claims as after them, with the BLOCKED receipts added when it returns |
| `Bm1Runner.RunNextSpend` | b2/bm1.py:1708-1715 | with non-negative prices, spent plus worst-case remaining never increases over a call |
| `Bm1Runner.RunAllSpend` | b2/bm1.py:1708-1715 | with non-negative prices the spend over all receipts stays within the ceiling plus its slack, and a cost guard that passes once passes for all later attempts |
| `Bm1Runner.BM1Runner.constructor` | b2/bm1.py:1581-1670 | a new runner starts in the fresh state over the shared claim store |
| `Bm1Runner.BM1Runner.RunNext` | b2/bm1.py:1693-1884 | the method that updates receipts, counters, stop reason and claim store in place has exactly the outcome function's new state and result |
| `Bm1Runner.BM1Runner.BlockRemaining` | b2/bm1.py:1888-1902 | after a stop every attempt without a receipt gets a BLOCKED one |
| `Bm1Runner.BM1Runner.RunAll` | b2/bm1.py:1886-1906 | the loop over `run_next` has exactly the outcome function's new state, and a normal return leaves as many receipts as planned attempts |
| `Bm1Protocol.OneRunnerSendsThePlanOnce` | b2/bm1.py:1693-1779 | for any number of runners over one claim store, under every interleaving and crash, the sends ever made are the first attempts of the plan in order, each once, each behind a complete claim of its sender, all by the runner that claimed the first attempt |
| `Bm1Protocol.CounterCountsSends` | b2/bm1.py:1716-1779 | the sending runner's counter equals the number of sends, every other runner has sent nothing |
| `Bm1Protocol.HistoryOnlyGrows` | b2/bm1.py:1216-1236 | nothing is sent again and no claim changes hands or disappears, whatever runs later |
| `Bm1Protocol.SpendNeverExceedsCeiling` | b2/bm1.py:1708-1715 | in every reachable state with non-negative prices each runner's attributed spend is within the ceiling plus slack, and zero for runners that do not own the first attempt |
| `Bm1Protocol.CallIsExecution` | b2/bm1.py:1693-1884 | an uninterrupted call of the runner object is an execution of the interleaved system |
| `Bm1Protocol.RunAllIsExecution` | b2/bm1.py:1886-1906 | so is an uninterrupted `run_all`: same claims and same runner state, and only sends of this runner, one per request it counts |
| `Bm1Protocol.SentAttemptMayEndBlocked` | b2/bm1.py:1886-1903 | every way to lose a receipt occurs in a run that ends with the sent attempt marked BLOCKED under the stop reason of that event |
| `Bm0Manifest.ValidateCases` | b2/bm0.py:3139-3158 | the dictionary loop accepts exactly the plans in which one case_id always comes with the same binding |
| `Bm0Manifest.ValidateRetries` | b2/bm0.py:3193-3275 | the parent, branching and root checks accept exactly the plans described by `RetriesAccepted` |
| `Bm0Manifest.ParentIsPrevious` | b2/bm0.py:3193-3275 | in an accepted plan the parent of an attempt is the attempt of its trial just before it, so each trial is one chain through all its attempts |
| `Bm0Manifest.ParentRank` | b2/bm0.py:4843-4850 | following a parent link goes to an earlier attempt of the trial with the rank just below |
| `Bm0Manifest.RetryOrdinals` | b2/bm0.py:4843-4850 | the link-counting loop terminates and gives each attempt its rank within its trial in manifest order |
| `Bm0Manifest.RanksAreDistinct` | b2/bm0.py:4843-4850 | two attempts of a trial never share an ordinal, and ordinals are below the trial's size |
| `Bm0Manifest.RanksAreOnto` | b2/bm0.py:4843-4850 | every ordinal below the trial's size is taken |
| `Bm0Wilson.WilsonIsTheQuadratic` | b2/bm0.py:4017-4051 | the reported bounds are the unclamped ones, lie in the unit interval around the proportion, and contain a value exactly when n(p-x)^2 is at most z^2 x(1-x) |
| `Bm0Wilson.WilsonReflects` | b2/bm0.py:4017-4051 | the interval for n-k failures is the mirror image of the one for k |
| `Bm0Wilson.WilsonIncreases` | b2/bm0.py:4017-4051 | more failures over the same denominator strictly raise both ends |
| `Bm0Wilson.RootIsUnique` | b2/bm0.py:4017-4051 | the square root the interval uses is determined |
| `Bm0Wilson.RadicandIsPositive` | b2/bm0.py:4017-4051 | the square root is only taken of positive numbers |
| `Bm0Wilson.EndsAreRoots` | b2/bm0.py:4017-4051 | the quadratic is zero at the two unclamped ends and nowhere else |
| `Bm0Grid.BuildPlanned` | b2/bm0.py:3848-3962 | the planned table holds exactly the plan's attempts under their ids |
| `Bm0Grid.ValidateGrid` | b2/bm0.py:3848-3962 | the loop accepts exactly the rows that repeat a planned identity, obey the value and model-identity rules and occur once, and returns their table |
| `Bm0Grid.CountedRowsAreOfThePlannedModel` | b2/bm0.py:3921-3952 | a row that counts in any rate states exactly the certainty, version and limitation planned for its attempt, so no answer of another or of an unknown model is scored |
| `Bm0Grid.AcceptedGridInv` | b2/bm0.py:3719-3744 | accepted manifest and accepted rows give the facts all estimators rest on: rows fit their attempts, failure values follow from the terminal, one case_id has one binding |
| `Bm0Grid.ObservationOrderIsIrrelevant` | b2/bm0.py:3848-3962 | reordering the observations changes neither acceptance nor the table, hence no estimate |
| `Bm0Rates.TallyRows` | b2/bm0.py:4085-4206 | the counting loop's failures, denominator and excluded terminals are the sizes of the sets they stand for |
| `Bm0Rates.ModelFailureRate` | b2/bm0.py:4085-4206 | planned, recorded, counts, status and rate of one model over its holdout attempts of the metric's classes, with the reasons for suppressing the rate |
| `Bm0Rates.ReportedCountsCoverThePlan` | b2/bm0.py:4085-4206 | when counts are reported, denominator plus excluded terminals equals the planned attempts |
| `Bm0Rates.CaseKeys` | b2/bm0.py:4234-4352 | the cases of a model are listed once each, and all of them |
| `Bm0Rates.CaseIdDeterminesKey` | b2/bm0.py:3139-3158 | one case_id of a model is one entry, family and variant |
| `Bm0Rates.CaseFailureProbability` | b2/bm0.py:4234-4352 | each listed case gets its own status, counts and probability |
| `Bm0Rates.PooledIsSumOfCases` | b2/bm0.py:4085-4206 | a model's failures and scorable denominator are the sums over its holdout cases |
| `Bm0Rates.PooledRateBetweenCases` | b2/bm0.py:4234-4352 | the pooled rate lies within all bounds shared by the scorable case probabilities, so between the least and the greatest |
| `Bm0Family.FamilyConditionalFailureRate` | b2/bm0.py:4407-4480 | the two loops compute the dictionary of estimates by case_id and its mean, and suppress the estimate when a case is not scorable or there is none |
| `Bm0Family.FamilyRates` | b2/bm0.py:4407-4480 | the grouping loop estimates each family of a model over exactly its own cases, in their order |
| `Bm0Family.FamilyEstimatedIff` | b2/bm0.py:4234-4480 | from planned attempts and observed rows: a family has an estimate if and only if some planned attempt belongs to it and every case of it was fully observed with a scorable row; it is then the mean over all its cases |
| `Bm0Family.ListedResultsAreTheCases` | b2/bm0.py:4234-4352 | listing a model's keys and estimating each of them yields the per-case results of exactly its cases |
| `Bm0Family.FamiliesOfModel` | b2/bm0.py:4234-4480 | from plan and rows the three loops give one estimate for exactly the families some planned attempt of the model belongs to |
| `Bm0Family.FamilyEstimateIsTheMeanOfAllCases` | b2/bm0.py:4407-4480 | on an accepted grid the reported estimate is the mean over every distinct case: the dictionary keyed by case_id alone loses none, and the mean lies between all bounds the case estimates share |
| `Bm0Family.EstimatesKeepEveryCase` | b2/bm0.py:4407-4480 | distinct case_ids each keep their entry and order in the dictionary |
| `Bm0Family.PercentileIndexesInRange` | b2/bm0.py:4355-4404 | both percentile indexes are in range and in order for every positive number of resamples |
| `Bm0Family.CaseClusterBootstrap` | b2/bm0.py:4355-4404 | for every sequence of draws the ends are the two percentiles of the sorted resample means, in order, and within all bounds the case estimates share; fewer than two clusters give none |
| `Bm0Paired.PairedCompleteCase` | b2/bm0.py:4795-4952 | the keying loops compute the specified outcome, including the rejection of one model on both sides and of two rows under one pair key |
| `Bm0Paired.SwappedModels` | b2/bm0.py:4795-4952 | swapping the models keeps errors, status, reason and counts, swaps the rates and negates the delta |
| `Bm0Paired.DeltaCountsDiscordantPairs` | b2/bm0.py:4795-4952 | delta times included pairs is left-only failures minus right-only failures |
| `Bm0Paired.ComparedCoversThePlan` | b2/bm0.py:4795-4952 | for every reported comparison included plus excluded pairs equals the planned attempts of either model |
| `Bm0Corpus.Commit` | b2/bm0.py:2734-2791 | the plan is accepted exactly when alias and commitment determine each other and the pool and no mutation descends from itself or from the holdout; errors name the first offending attempt; the digest is taken over the sorted holdout items |
| `Bm0Corpus.DigestIdentifiesHoldout` | b2/bm0.py:2734-2791 | two plans have the same digest if and only if they hide the same items; order and repetition of attempts change neither acceptance nor digest |
| `Bm0Adjudication.OrderIsIrrelevant` | b2/bm0.py:5128-5283 | the order of the records changes neither decision, reason, agreement report nor which error is raised |
| `Bm0Adjudication.DecidedIffTwoVotes` | b2/bm0.py:5128-5283 | over accepted record sets PASS (or FAIL) is returned if and only if exactly two people recorded it |
| `Bm0Adjudication.VotersWerePlanned` | b2/bm0.py:5128-5283 | accepted records are by different people, each the planned one for the role |
| `Bm0Adjudication.ReportAccountsForRecords` | b2/bm0.py:5083-5125 | the agreement report counts every record and assistance, and a decision by agreement or by tiebreak is reported as such |
| `Bm0Adjudication.DefinitiveIsFinal` | b2/bm0.py:5128-5283 | no strictly larger record set containing the records of a decision is accepted |
| `HandoffStore.StateDirectory.AtomicCreate` | b2/blind_handoff.py:167-188 | the exclusive create succeeds only for an absent name and leaves exactly the file, a torn file or nothing, depending on where it fails |
| `HandoffStore.StateDirectory.ClaimOnce` | b2/blind_handoff.py:252-267 | a claim is one exclusive create of a marker that names the claim and the directory's binding |
| `HandoffStore.StateDirectory.EncryptChallengeCommand` | b2/blind_handoff.py:1160-1188 | success adds challenge and marker and returns the envelope under the directory's fresh binding; failure with working removals leaves the directory as it was |
| `HandoffStore.StateDirectory.VerifyAckCommand` | b2/blind_handoff.py:1227-1244 | the gate opens exactly on an acknowledgement that verifies against this directory's key, fresh binding and challenge, once; failure with working removals changes nothing |
| `HandoffStore.StateDirectory.MakeResultCommand` | b2/blind_handoff.py:1247-1297 | a result is sealed once and only behind an accepted acknowledgement; a failed publication keeps the claim |
| `HandoffStore.CreateIsRun` | b2/blind_handoff.py:167-188 | every outcome of the create is a run of the interleaved model's steps |
| `HandoffStore.EncryptChallengeIsRun` | b2/blind_handoff.py:1160-1188 | what an uninterrupted challenge command leaves, whatever fails in it, is left by a run of its script in the interleaved model, which comes to its end exactly when the command succeeds |
| `HandoffStore.VerifyAckIsRun` | b2/blind_handoff.py:1227-1244 | the same for the acknowledgement command over delivered messages |
| `HandoffStore.MakeResultIsRun` | b2/blind_handoff.py:1247-1297 | the same for the result command |
| `HandoffInvariant.EveryRunIsJustified` | b2/blind_handoff.py:1061-1330 | in every run of any commands, interleaved, failing and crashing, with messages lost, repeated, reordered or delivered to other handoffs, each event has the history it presupposes |
| `HandoffInvariant.GateFileProvesPossession` | b2/blind_handoff.py:711-781 | a readable ack-accepted marker means that the only orchestrator directory that prepared this binding decrypted the challenge that only this runner directory made |
| `HandoffInvariant.GateOpensAtMostOnce` | b2/blind_handoff.py:1227-1244 | in any run a state directory opens its gate at most once |
| `HandoffInvariant.KeptResultsAreTraceable` | b2/blind_handoff.py:1300-1330 | a kept result was sealed under the same binding by a runner, after its claim, after its acknowledgement, after this very orchestrator directory decrypted that runner's own challenge |
| `HandoffInvariant.OutputsWereSealed` | b2/blind_handoff.py:1300-1330 | whatever lies in a result directory was sealed by a runner whose acknowledgement had been accepted |
| `HandoffHistory.OpenGateProvesPossession` | b2/blind_handoff.py:749-781 | the events behind an accepted acknowledgement, and that no other preparation or challenge could stand in for them |
| `HandoffHistory.KeptResultIsTraceable` | b2/blind_handoff.py:1300-1330 | the chain of events behind a kept result, each before the next |
| `HandoffHistory.MarkersAppearInOrder` | b2/blind_handoff.py:252-284 | result-started becomes readable after ack-accepted, that after challenge-published, that after payload-accepted, all under one binding |
| `HandoffHistory.OneKeyOnePreparation` | b2/blind_handoff.py:1061-1115 | a return key belongs to one prepared directory, binding and acknowledgement key |
| `HandoffMarkers.MarkersStayChained` | b2/blind_handoff.py:252-284 | in every run in which no command starts on an unsettled marker, interleaved, failing and crashing, the markers present at any instant include all earlier ones |
| `HandoffMarkers.StartCanBreakIffHazard` | b2/blind_handoff.py:1160-1297 | after any such run, letting a command start can lead to markers out of order if and only if it sets a marker that is not set and relies on one that its own command has opened and not settled |
| `HandoffMarkers.HastyStartCanBreak` | b2/blind_handoff.py:1160-1297 | from any state such a start has a continuation that leaves a later marker without an earlier one |
| `HandoffMarkers.SerialIsCareful` | b2/blind_handoff.py:1160-1297 | one command at a time per directory is a special case |
| `HandoffMarkerRuns.ConcurrentCommandsBreakTheChain` | b2/blind_handoff.py:1160-1244 | a run that ends with the gate opened, ack-accepted readable and challenge-published withdrawn |
| `HandoffMarkerRuns.ResultMayOutliveItsAck` | b2/blind_handoff.py:1227-1297 | a run that ends with result-started readable and ack-accepted withdrawn |
| `HandoffArtifacts.ReadIsInverseOfBuild` | b2/blind_handoff.py:467-535 | reading returns the built files if and only if manifest and files unpacked are within the bound; otherwise the reader rejects them as too large |
| `HandoffArtifacts.ReadIsSound` | b2/blind_handoff.py:493-535 | whatever is read under a kind and binding was archived under them, file by file |
| `HandoffArtifacts.InputRoundTrip` | b2/blind_handoff.py:547-632 | a sealed input opens to its files if and only if the binding is still fresh and both size bounds hold |
| `HandoffArtifacts.OpenedInputIsBound` | b2/blind_handoff.py:588-632 | an input that opens was sealed for this binding and key and holds the binding's own context, prompt and return key |
| `HandoffArtifacts.LargestInputIsNeverOpened` | b2/blind_handoff.py:106-108 | an archive of the last 16 permitted sizes is sealed but no one can open it |
| `HandoffArtifacts.LargestInputOccurs` | b2/blind_handoff.py:547-632 | each of these sizes occurs, with a ZIP that restores its archive and files within the unpacked bound, and is lost |
| `HandoffArtifacts.UnpackedBoundIsMissed` | b2/blind_handoff.py:493-535 | for every context over the bound there is a ZIP under which the input is sealed, fits its envelope and is rejected by its reader |
| `HandoffArtifacts.ReturnRoundTrip` | b2/blind_handoff.py:650-708 | a return envelope opens to its plaintext if and only if the binding is fresh, the plaintext is not empty and the envelope fits |
| `HandoffResults.BundleRoundTrip` | b2/blind_handoff.py:897-980 | a built live bundle verifies, files and receipt, if and only if the binding is fresh and the files fit unpacked |
| `HandoffResults.ResultRoundTrip` | b2/blind_handoff.py:897-980 | the same through sealing and opening the return envelope, with its bound added |
| `HandoffResults.VerifiedBundleIsBound` | b2/blind_handoff.py:784-980 | a verified live bundle holds a sanitized receipt of one provider attempt for this binding, and a raw answer exactly when it says PASS, the one its receipt describes |
| `BlindBridge.EveryReceiptRenders` | b2/blind_eval.py:559-772 | whatever request and provider do, the receipt passes its own checks, records an attempt exactly when all conditions for the call hold, and says PASS, with the reply's own bytes as raw answer, exactly for a successful reply with an encodable final text that is not blank |
| `BlindBridge.ReceiptValidates` | b2/blind_handoff.py:784-864 | the handoff's validator takes the bridge's receipt, read back from its text, if and only if it records one attempt |
| `BlindBridge.BridgeOutputIsBundledIff` | b2/blind_handoff.py:897-931 | when the receipt's text reads back, the result builder returns the run's own archive if one attempt was made and receipt text and archive fit, and otherwise refuses the text as unreadable, the receipt as a mismatch or the archive as too large, in this order |
| `BlindBridge.PaidAnswersCanBeRefused` | b2/blind_handoff.py:897-931 | for every bridge run that made its attempt, any receipt text and any archive are that run's own under some codecs, and the builder then refuses a large text as unreadable, a large archive as too large, and returns the archive otherwise |
| `BlindBridge.AnswersCarryEvidence` | b2/blind_eval.py:324-485 | an answer is observed under its own digest and length, an empty one without digest |
| `BlindCommit.OutputPair.Commit` | b2/blind_eval.py:819-877 | with a failure possible at any operation: a normal return leaves exactly the new pair, or the receipt alone; a failure never leaves the new receipt, and with working removals leaves no target and no temporary file; no instant shows files of two runs |
| `BlindCommit.OutputPair.Publish` | b2/blind_eval.py:843-866 | staging, clearing and publishing in the source's order, with the temporary files accounted for on every failure |
| `Qa3Projection.BuildDashboardProjection` | b2/qa3.py:720-841 | a projection is built exactly from complete, distinct, green sources of one commit that Git confirms, and has the specified body |
| `Qa3Projection.VerifyDashboardProjection` | b2/qa3.py:844-1103 | the loops accept exactly the projections `Accepts` describes and return them unchanged |
| `Qa3Agreement.AcceptedProfilesAreGits` | b2/qa3.py:844-1103 | in an accepted projection every profile field is recomputed from the receipt in Git, and profiles and declared sources are in one-to-one correspondence |
| `Qa3Agreement.SameSourceSameProfile` | b2/qa3.py:694-717 | distinct profile ids and recomputed summaries force distinct sources |
| `Qa3Agreement.AcceptedProfilesAreDetermined` | b2/qa3.py:844-1103 | commit, time, declared sources and Git determine the accepted profiles |
| `Qa3Agreement.BuiltIsAcceptedIff` | b2/qa3.py:720-1103 | a built projection is accepted, from Git alone or beside its own sources, if and only if no two of its receipts are of the same profile |
| `Qa3Agreement.BuiltProfilesAreInOrder` | b2/qa3.py:765 | built profiles come in the order of their ids |
| `Qa3Agreement.StatusesAreExact` | b2/qa3.py:816 | the visible terminal statuses are exactly those of the profiles |

## Left out

- Transports, provider responses and credentials: nondeterministic results of a send.
- Windows and POSIX storage, access control and directory syncing of b2/bm1.py: only exclusive create, tombstones and failing writes are kept.
- b2/bm1_live.py: storage probes, Git subprocesses and workflow events.
- Rounding to twelve digits, floating point and the random generator of the bootstrap: exact reals and arbitrary draws.
- Text formats: timestamps, regular expressions, key lists and public-safety scans; identifiers are abstract and only compared or sorted.
- The expiry of a binding during a handoff: commands may start and fail at any time, the interleaved model has no clock; freshness is in the round trips and in the commands of `HandoffStore`.
- Reads of one handoff command are taken together, before its first write; writes and failures interleave one by one.
- Paths of state directories: a path that is cleaned up and prepared again is a new directory, and output files are only the messages they deliver.
- Generating the runner's input key and the smoke result bundle: each is a fixed function of its inputs.
- Error texts: errors of one check may share a name, and the QA3 builder and verifier only say whether they accept.
- Identity fields that are only compared as a whole (lineage, conditions, runtime, terms of a binding) are one opaque value each.
- The permitted UNKNOWN dispositions of each target family: the grid takes the disposition's failure value as given.
- Bm0Rates.CaseKeys: lists the keys by first appearance, where the source sorts them; families likewise come as a table, not as a sorted list.
- Bm0Rates.ModelFailureRate: the interval attached to the rate and the status of the whole study; the interval is Bm0Wilson on the same counts.
- Bm0Rates.CaseFailureProbability: the interval attached to each case and the status of the whole study, in the same way.
- Bm0Family.FamilyConditionalFailureRate: one family, without the attached bootstrap interval and the status of the whole study; the grouping of the cases is Bm0Family.FamilyRates, the interval Bm0Family.CaseClusterBootstrap on the returned clusters.
- Bm0Grid.ValidateGrid: of the checks of one row it keeps the value and model-identity rules, not those on provider receipts, evidence and adjudication fields, nor which dispositions a family permits for UNKNOWN.
- Bm1Runner.BM1Runner.constructor: without the checks of live authority, evidence storage and manifest text, which only decide whether a runner is made.
- HandoffStore.StateDirectory.MakeResultCommand: starts from a built bundle; building it is HandoffResults.BuildLive.
- HandoffStore.StateDirectory.EncryptChallengeCommand: one failing write stands for the sealing and the publication of the envelope together.
- Control false-positive rate, instability, infrastructure-error and system-invariant rates of b2/bm0.py: the same counting over other classes.
- Owner and time fields of claim files beyond the owning runner.
- b2/qa0.py, b2/qa1.py, b2/qa2.py, evaluation_lab.py and the rest of search_cup: single-pass checks and storage that would add only easy members.
