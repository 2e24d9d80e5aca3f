# Developer certificates: a verified model

The repository issues code-signing certificates to app developers and revokes them. Three kinds of
bots share one JSON ledger file per appId: the issuer, the self-service revoker and the privileged
revoker. Each loads a ledger, decides, and writes it back guarded by the SHA it read, reloading and
trying again after a conflict, five times at most. A generator derives the certificate revocation
list from all ledgers. This project models that system in Dafny and proves what it keeps.

`dafny verify dfyconfig.toml` checks everything.

## Layout

The project is built in layers; each is proved against the one below.

- **Codecs.** `Digits`, `Serial`, `Timestamp`, `Json`, `LedgerCodec`, `AppId`, `Strings`,
  `Challenge`, `Form`: printers and parsers with their round trips, each with the exact set of inputs
  on which it holds.
- **Ledger.** `Ledger`: the schema, Decide, and the two updates (append an entry, flip an entry).
  `Updates`: what an update does to a file and a log of updates to all files; what it never changes.
- **Protocol.** `Blobs`, `Protocol`: any number of bots interleaved at every read and write, with
  spurious refusals and cut-offs. `RefinesSerialLog` reduces every interleaving to a serial log of
  atomic updates; `History`, `Progress`, `Ownership`, `Overwriting`, `Lock` and `Races` draw the
  consequences. Where a property fails without the lock there is a concrete run and the exact
  condition under which it holds. `FarDates` and `FarHistory`: the one input that makes a ledger
  unreadable, a privileged date from the year 10000 on, and what it does and does not harm.
- **Store and loops.** `Store` is the in-memory GitHub as a class, with a script of arbitrary
  interference before each call. `Steps` has the retry loops on ledger objects changed in place, each
  proved to be one atomic update. `Enroll` and `Revoke` are the pipelines on top (`Polls`: what a
  poll decides; `PollRun`: what it then did).
- **Polls over time.** `Polling` interleaves any number of polls, effect by effect, cut off anywhere;
  its ledger side is the protocol. `PollCourse` shows that its polls are the pipelines. `PollLabels`,
  `PollOnce`, `PollTwice`, `PollChallenge`, `PollComments` and `PollExpiry` are about whole histories
  of an issue; `PollReopened` is the run in which a refusal that echoes a marker brings an expired
  request back.
- **Revocation list.** `Crl` (collect loop and in-place sort), `CrlGrowth` (over protocol runs),
  `EndToEnd` (from a signed leaf to its line on the list).

Conventions. Instants are integers, nanoseconds since the epoch. Strings are sequences of code
points. The layers above the codecs take the ledger codec as a parameter and ask only that it be
`Faithful`; `LedgerCodec.JsonIsFaithful` shows that the real one is. A store is healthy when its
ledgers parse, are printable and cut to seconds, and each revoked certificate has a readable serial
and a date not before its notBefore. Bots keep it so with every date before the year 10000 (a far
date is one after that); `AnyStart` allows any dates, `GoodStart` no far ones. A caller is alone (`Quiet`)
when the script of others is empty; a conflict may still be pending then. Library calls (CSR and CMS parsing, info.xml,
signing, fingerprints, the wording of comments) are functions in the datatype `Oracles`, about which
nothing is assumed except where a contract says so.

## Model

| member | source | states |
|---|---|---|
| `Blobs.FreshSha` | internal/ghclient/fake/fake.go:81-84 | a newly minted SHA equals none handed out before and is never the empty SHA of an absent file |
| `Store.Client.MintSHA` | internal/ghclient/fake/fake.go:81-84 | the counter advances by one and the SHA is its name |
| `Store.Client.GetLedger` | internal/ghclient/fake/fake.go:141-147 | content and SHA of the stored blob, or not found; other writers may act before the read, this caller writes nothing |
| `Store.Client.CheckPrevSHA` | internal/ghclient/fake/fake.go:153-165 | a conflict exactly when one is forced (which uses it up), a create names a previous SHA, or an update names a stale one |
| `Store.Client.PutLedger` | internal/ghclient/fake/fake.go:167-174 | the file is replaced under a fresh SHA exactly when the SHA is current and nothing refuses; otherwise only other writers have acted; a failure is counted exactly when the call failed |
| `Store.HoldsStays` | internal/ghclient/fake/fake.go:149-174 | however the store evolves, a held SHA is refused or still stands for the ledger it was read with |
| `Store.Client.OwnComments` | internal/ghclient/fake/fake.go:106-108 | the bot's own comments of an issue, oldest first |
| `Store.Client.PostComment` | internal/ghclient/fake/fake.go:110-113 | one comment at the end of one issue, and no other issue changes |
| `Store.Client.SetLabels` | internal/ghclient/fake/fake.go:115-119 | labels removed and added on one issue only |
| `Store.Client.CloseIssue` | internal/ghclient/fake/fake.go:121-124 | one issue closed, the others as they were |
| `Store.Client.GetFile` | internal/ghclient/fake/fake.go:126-135 | a file of a visible repo; one of a hidden repo reads as absent |
| `Store.Client.RepoAccessible` | internal/ghclient/fake/fake.go:137-139 | whether the repo is visible |
| `Steps.LoadLedger` | internal/enroll/steps.go:48-61 | the ledger that is stored now with the SHA that guards it; no file is no ledger, an unreadable file is an error |
| `Steps.Find` | internal/revoke/steps.go:35-45 | the first match or -1, also on a nil ledger; by serial as well (internal/revoke/privileged.go:93-103) |
| `Steps.LedgerObject.Append` | internal/enroll/steps.go:134-134 | the entry is appended in place and nothing else changes |
| `Steps.LedgerObject.Flip` | internal/revoke/steps.go:69-74 | the four field writes through the pointer amount to one revoked certificate at that index |
| `Steps.CommitLedger` | internal/enroll/steps.go:121-155 | success is one atomic append to the file as it was at the write, last after any writes of others; every other result leaves no write behind and has a cause: a call that failed, a reloaded file that cannot be read, or five conflicts; with nobody else about it succeeds at the first try, or at the second when a conflict is pending or its SHA is stale and the stored file parses |
| `Steps.ApplyRevocation` | internal/revoke/steps.go:62-99 | the same for the flip, with the target found again in every copy: it has vanished exactly when it is missing from the ledger given or from the one loaded after the conflict; the serial is that of the certificate flipped |
| `Steps.CommitIsApplied` | internal/enroll/steps.go:136-139 | such a commit is one step of the serial log, on the files of that moment |
| `Protocol.CommitIsAtomic` | internal/enroll/steps.go:136-154 | in any interleaving an accepted write is the atomic update of the current file, whatever was loaded when |
| `Protocol.RefinesSerialLog` | internal/revoke/steps.go:62-99 | no lost update: any interleaving of any bots leaves the files of a serial replay in the order of the successful writes; a bot that reports success contributed exactly one update, any other none |
| `FarDates.FarDateIsAccepted` | cmd/privrevoke/main.go:61-66 | 9999-12-31T23:59:59-01:00 is accepted for REVOKED_FROM and lies in the year 10000 of UTC |
| `FarDates.CommitReadableIffNear` | internal/revoke/steps.go:65-74 | a flip leaves its ledger readable if and only if its date lies before the year 10000 of UTC, and changes no other file |
| `FarDates.RunShadow` | internal/revoke/privileged.go:69-79 | a far date, one from the year 10000 on, harms its own ledger only: any run with such dates shows, on every ledger without a far commit and in every bot at work there, what a run without them shows |
| `Updates.FirstMatchIsStable` | internal/revoke/steps.go:35-45 | a first-match index stays the first match however the list is extended |
| `FarHistory.ReadableIffNear` | internal/revoke/steps.go:65-74 | after any interleaving of bots with any dates a ledger is unreadable if and only if a far date was committed to it; every other is healthy |
| `FarHistory.FarDateSpoils` | internal/revoke/privileged.go:69-89 | the run, from any start: the far date is committed and reported as success, and the next bot on that ledger stops with the parse error |
| `FarHistory.FarCommitIsLast` | internal/revoke/steps.go:62-99 | a far commit is the last one its ledger ever gets |
| `FarHistory.HistoryUnlessSpoilt` | internal/enroll/steps.go:134-134 | from any point of any interleaving to any later one, a readable ledger either extends what it was (owner, claim and reservation stay, every certificate keeps place and identity, revoked stays revoked) or has had a far date committed to it in between and is unreadable: exactly one of the two |
| `FarHistory.StepUnlessSpoilt` | internal/revoke/steps.go:65-74 | each step changes nothing, or appends one entry, or changes the revocation fields of exactly one entry of one file, or makes one file unreadable by a far date |
| `FarHistory.IndexUnlessSpoilt` | internal/revoke/privileged.go:69-103 | after any number of reloads the target has the index it had on the first load, and the date chosen then is still not before its notBefore, on every ledger without a far commit |
| `FarHistory.LostOnlyIfSpoilt` | internal/revoke/steps.go:65-68 | when only bots write, the vanished and parse errors occur on ledgers with a far commit only |
| `FarHistory.LoadOfSpoiltFails` | internal/revoke/steps.go:18-31 | and there every load ends in the parse error |
| `FarHistory.SuccessUnlessSpoilt` | internal/revoke/steps.go:75-86 | what a successful bot set out to record is recorded in every later state, unless its ledger got a far commit, and then it is unreadable |
| `FarHistory.AlreadyRevokedUnlessSpoilt` | internal/revoke/revoke.go:95-101 | a bot that found its certificate revoked was right and stays right, for as long as the ledger can be read |
| `Progress.GivingUpMeansOvertaken` | internal/enroll/steps.go:124-154 | without spurious refusals, giving up means at least five commits by others to the same ledger between first load and last write |
| `Progress.FiveContendersAllFinish` | internal/enroll/enroll.go:45-45 | with at most five bots on an appId none gives up |
| `Races.SixthContenderCanGiveUp` | internal/revoke/steps.go:64-98 | the bound is tight: with six there is an interleaving in which one gives up |
| `FarHistory.OwnershipUnlessSpoilt` | internal/enroll/steps.go:125-134 | in every interleaving, on every ledger without a far commit, at most one commit creates the ledger; owner.repo, claimedAt and reserved are those of that commit, or of the start, ever after |
| `FarHistory.ReservedUnlessSpoilt` | internal/ledger/decide.go:28-39 | a ledger that starts reserved receives only revocations, with any dates, and never gains a certificate |
| `Ownership.OwnedIffNotClaimedMeanwhile` | internal/enroll/steps.go:148-152 | Decide is not asked again after a conflict: a certificate belongs to the owning repo if and only if no other repo's claim landed between the issuer's first load and its write |
| `Races.UnlockedIssuersBreakOwnership` | internal/enroll/steps.go:121-155 | without the lock, two issuers that both find the appId free leave the second one's certificate in the first one's ledger |
| `Races.UnlockedRetryOverwritesPrivileged` | internal/revoke/steps.go:65-74 | the run in which that happens: without the lock a self-service retry overwrites the reason and actor of a privileged revocation |
| `Overwriting.OverwritesIffRevokedMeanwhile` | internal/revoke/steps.go:65-74 | the status is not looked at again after a conflict: in any interleaving a self-service commit flips a certificate that is revoked already if and only if another bot's flip of that very certificate landed between its first load and its write |
| `Overwriting.FlipStaysRevoked` | internal/revoke/steps.go:69-74 | a committed flip leaves its target revoked at the same index in every later state |
| `Lock.SerialCommit` | internal/enroll/enroll.go:12-14 | under the lock a commit lands on the ledger its bot decided on, in spite of refusals and faults |
| `Lock.OwnerOnlyUnderLock` | internal/enroll/enroll.go:151-168 | first come, first served under the lock: every recorded certificate was requested for the owning repo, and its bot committed exactly once |
| `Lock.SelfServiceFlipsActive` | internal/revoke/revoke.go:95-111 | under the lock a self-service flip hits an active certificate only |
| `Lock.OneSelfServiceCommit` | internal/revoke/revoke.go:55-124 | re-polling a self-service revocation under the lock changes the ledger at most once |
| `Enroll.Resolve` | internal/enroll/enroll.go:72-125 | with nobody else about a request is accepted if and only if form, CSR and strict common name are in order and its repo declares the app, and each refusal is given if and only if it is due, with the repo probe when the file is absent; always: what is accepted was declared by the file just fetched, and only a failing call stops it |
| `Polls.ReconciledIff` | internal/enroll/enroll.go:111-125 | a request is accepted if and only if info.xml was found and has an id that equals the appId up to ASCII case; no access, no file, no id, an id that stands for no appId and a mismatch are each reported exactly when due |
| `Challenge.PriorChallenge` | internal/enroll/steps.go:20-31 | the loop returns the nonce and time of the last comment with a marker |
| `Challenge.LastChallengeIsLast` | internal/enroll/steps.go:25-30 | that comment has a marker and no later one has |
| `Enroll.CheckControl` | internal/enroll/enroll.go:127-149 | no challenge, expired challenge, waiting and proven are told apart by comments, clock and fetched file; proven always means that the file just fetched from a visible repo trims to the nonce of a challenge still good |
| `Enroll.LeafFor` | internal/certtmpl/certtmpl.go:53-97 | the appId as common name, the owner of the repo as organization and the origin as unit, the requester's key, notBefore now, notAfter the earlier of two years and the issuer's, a serial in [1, 2^128); refused exactly for an invalid appId or when randomness runs out |
| `Enroll.PostChallenge` | internal/enroll/steps.go:35-44 | 32 random bytes become the nonce in the posted comment, and the label follows |
| `Enroll.IssueLeaf` | internal/enroll/steps.go:65-117 | sign, commit and then deliver; nothing is delivered that was not committed, and what is recorded and delivered is a leaf signed for this request, field by field |
| `Enroll.CommitIsBotChoice` | internal/enroll/enroll.go:151-168 | what the pipeline commits is what an issuing bot of the protocol decides on the same ledger |
| `Enroll.Process` | internal/enroll/enroll.go:66-169 | with nobody else about, though a conflict is pending, it comes to the Outcome of the request: for each refusal its comment and label, the challenge, the wait, the expiry, the reserved or foreign appId, or the entry recorded, the leaf delivered and the issue labelled issued, no longer awaiting, and closed; always: at most one atomic commit, of an entry for a leaf signed for the appId, owner and key asked for, only when the fetched file matches a challenge still good and the ledger loaded before the write is free or owned by the repo; an error has a cause; no other issue changes |
| `Enroll.CourseOutcome` | internal/enroll/enroll.go:66-169 | the branches the pipeline takes come to that Outcome, which is stated on the request, the files, the comments and the ledger alone, with the labels spelled out |
| `Enroll.DueOrAccepted` | internal/enroll/enroll.go:72-125 | exactly one of the two: some refusal is due, or the request is accepted |
| `PollRun.CommentAndLabel` | internal/enroll/helpers.go:14-19 | a comment and then a label, either of which may fail, leaving a prefix of the two |
| `PollRun.Deliver` | internal/enroll/steps.go:107-117 | comment, label and close in this order, cut off where a call fails |
| `Polls.CmsFound` | internal/revoke/form.go:12-28 | a CMS or PKCS7 block is found whole with either closing line, after any text in which no such block opens and whatever follows |
| `Polls.OnlyBlocksFound` | internal/revoke/form.go:12-28 | and whatever is found is such a block: the first to open, up to the first line that closes it |
| `Polls.RequestReads` | internal/revoke/revoke.go:61-85 | no block, a block that does not verify, a verifier that fails, a name that stands for no appId and the certificate presented are read exactly when due |
| `Revoke.Process` | internal/revoke/revoke.go:55-124 | with nobody else about, though a conflict is pending, it comes to the Outcome of the request: no block, an unverifiable block and a name that stands for no appId are refused with the label invalid, a failing verifier and an unreadable ledger are errors that change nothing, an unknown certificate is refused, a revoked one labelled and closed, an active one revoked from its own notBefore, labelled and closed; always: at most one atomic commit, a self-service flip of the certificate presented, active on the ledger loaded before the write; an error has a cause; no other issue changes |
| `Revoke.CourseOutcome` | internal/revoke/revoke.go:55-124 | the branches the pipeline takes come to that Outcome, which is stated on the request and the ledger alone, with the labels and the revoked fields spelled out |
| `Revoke.RevokeIn` | internal/revoke/revoke.go:89-124 | on the ledger as loaded: refusal, the revoked label alone, or the flip from the certificate's own notBefore, whichever a bot of the protocol chooses; its effects are carried out in order up to the first fault |
| `Revoke.RevokeSerial` | internal/revoke/privileged.go:61-89 | no ledger, no certificate of that serial and a date before its notBefore are each reported exactly when due and leave no trace; otherwise the flip that was asked for is tried |
| `Revoke.PrivilegedProcess` | internal/revoke/privileged.go:37-90 | bad input is refused exactly when a required value is missing or the appId is not valid; success is one atomic flip of the first certificate of that serial, with the reason and actor given, from the date given or else from its own notBefore, overwriting an earlier revocation; every error has a cause and leaves no write behind; with nobody else about nothing but the request and the ledger decides, though a conflict is pending |
| `Revoke.AskedIsBotChoice` | internal/revoke/privileged.go:61-89 | the update asked for, field by field, is the one a privileged bot of the protocol chooses on the same ledger, and the other way round |
| `Polling.PollsAreBots` | internal/enroll/enroll.go:60-65 | the ledger side of any run of polls, cut off anywhere, is an interleaving of protocol bots |
| `PollCourse.PollFollowsPipeline` | internal/enroll/enroll.go:66-169 | a poll of the model, left alone, does to issue and ledgers exactly what Process does and makes the same report, hidden repos included; one that fails is a poll cut off before it does anything |
| `PollCourse.RevokePollFollowsPipeline` | internal/revoke/revoke.go:55-124 | the same for revocation polls |
| `PollLabels.PipelinePollsAreGood` | internal/enroll/helpers.go:14-19 | no refusal carries a label of success |
| `PollLabels.IssuedMeansRecorded` | internal/enroll/steps.go:103-116 | with a fault possible at any call: an issue labelled issued has, then and ever after, a ledger entry with its own reference, unless a far commit has made that ledger unreadable |
| `PollLabels.RevokedMeansRevoked` | internal/revoke/revoke.go:95-124 | likewise an issue labelled revoked has its certificate revoked, then and ever after, under the same proviso |
| `PollOnce.IssuedOnceUnlessCutOff` | internal/enroll/steps.go:103-115 | of two polls of one request that both committed, the later one started when the other had committed, had been cut off and the label was still missing |
| `PollOnce.AtMostOneEntry` | internal/enroll/enroll.go:67-70 | without faults a request is issued at most once |
| `PollTwice.CutOffIssuesTwice` | internal/enroll/steps.go:103-115 | the run that does issue twice, from any reachable state with two polls ready |
| `PollTwice.CanIssueIffUnlabelled` | internal/enroll/enroll.go:67-70 | and that is the exact condition: whatever was committed before, a poll that is otherwise ready can issue if and only if the label is missing |
| `PollChallenge.IssuedOnlyWhenProven` | internal/enroll/enroll.go:127-149 | every certificate was preceded by a marker in a comment of its issue, at most 72 hours older than its reading, and by a fetched file that trims to that nonce |
| `PollComments.NonceWasDrawnOrEchoed` | internal/enroll/steps.go:20-44 | the step that posted that comment is the challenge of a poll of the same issue, which drew the nonce, or a refusal or delivery that echoes a marker |
| `PollComments.NonceWasDrawn` | internal/enroll/steps.go:35-44 | when nothing the polls of the issue can say holds a marker, the nonce is one that a poll of the issue drew |
| `PollComments.OneChallengePerIssue` | internal/enroll/enroll.go:133-135 | however often polled and cut off, and whatever is echoed, at most one step ever posts a challenge on an issue |
| `PollComments.OneMarkIffNoEcho` | internal/enroll/steps.go:20-31 | an issue shows at most one marker if and only if no step echoed a marker where one already was |
| `PollComments.OneMarkWhenUnmarked` | internal/enroll/steps.go:20-31 | so when nothing the polls of the issue can say holds a marker, it never shows two |
| `PollExpiry.ExpiredUnlessEchoed` | internal/enroll/enroll.go:133-139 | after a report of expiry a poll reads expired again if and only if no marker was echoed on the issue since then and within the last 72 hours; a new challenge is never due |
| `PollExpiry.CertificateAfterExpiryNeedsEcho` | internal/enroll/enroll.go:136-149 | a poll that starts after the report and commits read its comments at most 72 hours after such an echo |
| `PollExpiry.NoCertificateAfterExpiry` | internal/enroll/enroll.go:136-139 | when nothing the polls of the issue can say holds a marker, no poll that starts after the report commits |
| `PollReopened.RefusedWithMarker` | internal/enroll/form.go:39-42 | a request whose repo field is a marker is refused for its slug, in a comment in which that marker is read: %q leaves printable ASCII without quotes and backslashes as it stands |
| `PollReopened.EchoReopensRequest` | internal/enroll/enroll.go:77-80 | the run that shows the condition is needed: with the quoting the code uses, after a report of expiry, that refusal puts a second marker on the issue, and a poll that starts later issues a certificate for its nonce |
| `Crl.SortEntries` | internal/crl/crl.go:50-52 | the in-place sort: sorted by serial, the same entries with the same multiplicities |
| `Crl.Build` | internal/crl/crl.go:28-59 | an error exactly when a revoked certificate has an unreadable serial or no date; otherwise all revoked certificates of all ledgers and nothing else, by serial, with number, thisUpdate and nextUpdate a week later |
| `Crl.OnListIffRevoked` | internal/crl/crl.go:30-49 | an entry is listed if and only if some ledger holds a revoked certificate with that serial number and date |
| `Crl.EachListedOnce` | internal/crl/crl.go:30-49 | an entry is listed as often as there are revoked certificates that it shows |
| `Crl.OneListIffUnambiguous` | internal/crl/crl.go:50-52 | with an unstable sort the list is determined if and only if no serial has two dates |
| `Crl.OrderOfLedgersDoesNotMatter` | internal/crl/crl.go:29-52 | then it is the same for every permutation of the ledgers |
| `CrlGrowth.BuildNeverFails` | internal/crl/crl.go:36-44 | after any interleaving, with any dates, building the list from the ledgers read cannot fail |
| `CrlGrowth.ListIffNothingSpoilt` | internal/crl/store/store.go:35-41 | there are ledgers to build it from if and only if no ledger has had a far date committed to it: one unreadable file stops the pass over the directory |
| `CrlGrowth.SerialsOnlyGrow` | internal/crl/crl.go:28-59 | a serial once listed is on every later list |
| `CrlGrowth.DatesFromNotBefore` | internal/revoke/privileged.go:69-79 | every listed date is at or after the notBefore of a certificate with that serial |
| `CrlGrowth.ChangesOnlyByRevocation` | internal/revoke/steps.go:69-74 | a recorded certificate changes only in a step in which a revoking bot commits a revocation of it; if that carries a far date, the ledger is lost instead |
| `EndToEnd.IssuanceOf` | internal/enroll/steps.go:65-101 | a committing poll issues a leaf with the appId as its common name, whose entry is valid, readable by the list and in whole seconds |
| `EndToEnd.LooksInTheRightFile` | internal/revoke/revoke.go:78-87 | revoke looks in the file enroll wrote, because canonicalizing leaves a strict common name alone |
| `EndToEnd.RevokeFindsEntry` | internal/revoke/revoke.go:89-108 | the presented leaf is found, and flipped from its own notBefore unless revoked already |
| `EndToEnd.IssuedThenRevokedIsListed` | internal/crl/crl.go:28-72 | issued, presented, listed: the next list has the leaf's serial number, whatever other bots commit in between and after, with the date of the last commit that flipped the leaf, which is the leaf's own notBefore when that is the presenting poll; the only entry of that serial if no other certificate has it |
| `LedgerCodec.LedgerRoundTrip` | internal/ledger/ledger.go:115-163 | Marshal then Parse gives the ledger cut to seconds if it satisfies Parse's invariants and all years have four digits, and an error otherwise |
| `LedgerCodec.RemarshalIdentical` | internal/ledger/ledger.go:150-163 | marshalling what was read back gives identical bytes, omitted fields included |
| `LedgerCodec.JsonIsFaithful` | internal/ledger/ledger.go:115-163 | the codec of the bots is one the protocol layers may rely on |
| `LedgerCodec.LedgerSchema` | internal/ledger/ledger.go:71-80 | the members of a ledger by name and in order, each with its own value; reserved is left out unless set |
| `LedgerCodec.CertificateSchema` | internal/ledger/ledger.go:55-68 | the members of a certificate by name and in order; the revocation fields are left out while they are empty |
| `LedgerCodec.CertificateValues` | internal/ledger/ledger.go:55-62 | each of those members has its own value, the requester's three included |
| `LedgerCodec.RevocationSchema` | internal/ledger/ledger.go:64-67 | revokedFrom, reason and actor under their own names |
| `LedgerCodec.CertificateRoundTrip` | internal/ledger/ledger.go:55-68 | each field of a certificate, present or omitted, comes back through the decoder |
| `Json.ReadQuoted` | internal/ledger/ledger.go:153-163 | string escaping of section 7 of RFC 8259 is undone by the reader, for every string |
| `Json.ReadWritten` | internal/ledger/ledger.go:153-163 | every indented JSON value reads back, whatever text follows |
| `Json.EscapedIffNeeded` | internal/ledger/ledger.go:147-163 | a character is written as itself if and only if it needs no escape: controls, quote, backslash and the two separators are escaped, "/", "<", ">" and "&" are not |
| `Json.EscapeTexts` | internal/ledger/ledger.go:147-163 | the escape sequences themselves, short and long |
| `Json.BracketLines` | internal/ledger/ledger.go:147-163 | the first value of an array and the first member of an object start a line, two spaces deeper than the line of the closing bracket |
| `Json.ItemLine` | internal/ledger/ledger.go:147-163 | each further value of an array starts a line at the same depth, after a comma |
| `Json.MemberLine` | internal/ledger/ledger.go:147-163 | and each further member of an object, where name and value stand on one line with a colon and a space between |
| `Timestamp.TimestampRoundTrip` | internal/ledger/ledger.go:85-110 | print then parse keeps the second for every instant of the years 0000 to 9999, and fails for every other (section 5.6 of RFC 3339) |
| `Timestamp.DateOf` | internal/ledger/ledger.go:93-95 | every day number has its one valid Gregorian date |
| `Timestamp.OneDateADay` | internal/ledger/ledger.go:93-95 | and no two dates have the same day number |
| `Timestamp.EpochDay` | internal/ledger/ledger.go:93-95 | the day of instant 0 is the first of January 1970 |
| `Timestamp.RenderedFields` | internal/ledger/ledger.go:80-90 | year, month, day, hour, minute and second stand at the places of the layout, with its separators and Z |
| `Serial.SerialRoundTrip` | internal/signer/signer.go:46-48 | parseSerial undoes FormatSerial on every integer |
| `Serial.SerialText` | internal/signer/signer.go:46-48 | lower-case hexadecimal after 0x, on examples |
| `Serial.FirstByteCountsMost` | internal/certtmpl/certtmpl.go:99-112 | the bytes drawn are read with the most significant first |
| `Serial.PrintedBackIffCanonical` | internal/crl/crl.go:63-72 | FormatSerial undoes parseSerial exactly on the canonical spellings |
| `Serial.RandomSerial` | internal/certtmpl/certtmpl.go:99-112 | the redraw loop yields the first non-zero block of the stream |
| `Serial.DrawnSerialSurvives` | internal/certtmpl/certtmpl.go:99-112 | every drawn serial is in [1, 2^128), the positive range of section 4.1.2.2 of RFC 5280, and survives printing and parsing |
| `Digits.TextOfValue` | internal/signer/signer.go:46-48 | a canonical numeral is printed back from its value |
| `AppId.Fold` | internal/appid/appid.go:35-48 | the in-place loop is the character-wise ASCII map |
| `AppId.StrictIsCanonical` | internal/appid/appid.go:59-77 | a strict id is a fixed point of folding and canonicalizing |
| `AppId.CanonicalFormsAreTheStrictIds` | internal/appid/appid.go:59-77 | the results of Canonicalize are exactly what ValidateStrict accepts, and Canonicalize is idempotent |
| `AppId.SharedFormIffEqualUpToCase` | internal/appid/appid.go:71-77 | two accepted ids share a canonical form if and only if they are equal up to ASCII case |
| `AppId.EqualIffCanonical` | internal/appid/appid.go:71-77 | the canonical form of an id is the valid id that it equals up to ASCII case |
| `Challenge.Generate` | internal/challenge/challenge.go:51-60 | 64 lowercase hex characters that decode to the next 32 random bytes; an error exactly when fewer are left |
| `Challenge.HexRoundTrip` | internal/challenge/challenge.go:59-59 | hex encoding is undone by decoding, for every byte string |
| `Challenge.HexDigits` | internal/challenge/challenge.go:59-59 | each byte is written as its high and then its low digit, in lower case |
| `Challenge.CommentBody` | internal/challenge/challenge.go:65-81 | the marker, then the instructions around the nonce |
| `Challenge.NonceIsShown` | internal/challenge/challenge.go:65-81 | the comment starts with the hidden marker, and the nonce stands again between the instructions |
| `Challenge.CommentRoundTrip` | internal/challenge/challenge.go:65-91 | a posted nonce reads back, in any wording and whatever follows |
| `Challenge.NonceIffMarker` | internal/challenge/challenge.go:85-91 | there is a nonce to read if and only if a whole marker stands somewhere in the comment |
| `Challenge.MatchIffPadded` | internal/challenge/challenge.go:102-105 | a file matches if and only if it is the nonce with white space around it |
| `Form.ParseForm` | internal/enroll/form.go:30-45 | the three errors and the parsed form, against the specification FormOf |
| `Form.FormIff` | internal/enroll/form.go:30-45 | no block, an empty repo field, a field that is no slug and the parsed form, each exactly when it is due and in this order |
| `Form.BlockIff` | internal/enroll/form.go:12-18 | the block found is the first to open, up to the first line that closes it, and it is found whenever there is one |
| `Form.SectionBody` | internal/enroll/form.go:49-60 | what stands between the first occurrence of the heading and the next heading after it, or the end; empty when the heading is absent |
| `Form.SectionIsUnique` | internal/enroll/form.go:49-60 | these clauses leave one text: a text satisfies them if and only if it is the section's |
| `Form.StripFences` | internal/enroll/form.go:64-76 | the trimmed text without a fence in front is kept; otherwise what lies between the first line and a closing fence, trimmed |
| `Form.UnfencedIsUnique` | internal/enroll/form.go:64-76 | these clauses leave one text: a text satisfies them if and only if it is what is returned |
| `Form.FormRoundTrip` | internal/enroll/form.go:12-76 | a rendered request with any line of text in the repo field (a slug, or one without a `#`), fenced or not, parses to the block and that text when it is a slug, and is refused with the text as it stands when it is not; exactly a bare text that starts with a fence is lost |
| `Form.OwnerSplitsParsedSlug` | internal/enroll/form.go:79-81 | ownerOf is total on parsed forms and splits the slug at its only slash |

## Left out

- Steps.CommitLedger: liveness while others go on writing; it is proved to succeed when nobody else is about, and how often it can meet a conflict otherwise is proved on the protocol (`Progress`).
- Store.Client.PutLedger: a write that lands while its answer is lost is not a result of its own; in `Protocol` and `Polling` it is a bot that committed and was cut off, which every theorem there covers.
- Crl.SortEntries: the algorithm of sort.Slice; an insertion sort stands for it, and results are stated for any arrangement of equal serials.
- Enroll.Process: the clock shows one time throughout a poll; in `Polling` it moves between any two steps.
- Polling.PollsAreBots: people editing labels or comments are not modelled.
- Store.Client.PostComment: the fake keeps the bot's comments of an issue and the posted comments in two books; here they are one, as on GitHub itself.
- Store.Client.SetLabels: the fake records lists of labels added and removed; here an issue has the set of labels that results.
- Store.Client.GetFile: the blob SHA of the file, which no caller uses.
- FarHistory.HistoryUnlessSpoilt: no more than this is true of a ledger with a far date, because neither the privileged flow nor Marshal checks the year (`FarHistory.FarDateSpoils`).
- CrlGrowth.BuildNeverFails: the pass over the directory comes before it, and fails as soon as one ledger has a far date (`CrlGrowth.ListIffNothingSpoilt`).
- Overwriting.OverwritesIffRevokedMeanwhile: no far dates (`GoodStart`), and likewise what `Races` and `Lock` say of runs and the runs built in `PollTwice` and `PollReopened`; `FarDates.RunShadow` carries such results to every ledger without a far commit.
- PollOnce.IssuedOnceUnlessCutOff: polls of one issue do not overlap, as the workflow's concurrency lock arranges (shared by issuer and revoker, internal/revoke/revoke.go:9-10); without that assumption two polls can both commit.
- PollExpiry.NoCertificateAfterExpiry: false without its condition, because the code does not keep markers out of the texts it echoes (`PollReopened.EchoReopensRequest`).
- EndToEnd.IssuedThenRevokedIsListed: a leaf's fingerprint is assumed new to its ledger, and the signer is assumed to keep serial and validity and to cut times to seconds.
- Timestamp.TimestampRoundTrip: time.Parse also reads one-digit hours and a comma before the fraction; the parser here reads the RFC 3339 form that the printer writes, with fractions and offsets.
- LedgerCodec.LedgerRoundTrip: a duplicate "certificates" key, for which Go reuses the old slice elements, and the decoder's nesting limit; invalid UTF-8, which Go replaces.
- Json.ReadWritten: the decoder's error messages and positions.
- Serial.DrawnSerialSurvives: randomness is a finite stream of bytes; nothing is said about its distribution.
- Revoke.PrivilegedProcess: the error texts; revokedFrom is an instant, of cmd/privrevoke only the reading of a date is part of this model (`FarDates.FarDateIsAccepted`).
- Where the documents and the code disagree the model follows the code. The design calls conflict-retry an additional safeguard of ownership; the retry does not ask Decide again (`OwnedIffNotClaimedMeanwhile`). The enrollment specification compares the challenge file before it looks at the 72 hours; the code expires first. It stops with a comment on an already revoked certificate; the code also labels and closes. It lets a self-service requester supply revokedFrom; the code always takes notBefore.
- REST transport, pagination, Vault, PEM and local signers, openssl calls, command wiring: I/O and foreign code.
- X.509, CSR, CMS, PEM and XML parsing, signatures and SHA-256: oracles.
- The wording of comments, commit messages and log lines, except the challenge marker.
- Reading the ledger directory for the list: the ledgers are given as a sequence.
- Manual edits of ledgers by org members, which the bots do not guard against; `Store` does allow arbitrary foreign writes, `History` assumes that only bots write.
