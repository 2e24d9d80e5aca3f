/** From an issued leaf to the revocation list. */
module EndToEnd {
  import opened Wrappers
  import opened Ledger
  import opened Updates
  import opened Polls
  import opened History
  import AppId
  import Challenge
  import Crl
  import CrlGrowth
  import Enroll
  import Form
  import PollRun
  import Protocol
  import Random
  import Revoke
  import Serial
  import Timestamp

  /** What the signer is trusted for: it keeps the serial, the common name and the validity of the
      template, cut to whole seconds as X.509 has them, and signs nothing outside the years it can
      write. */
  ghost predicate FaithfulSigner(o: Oracles) {
    forall t: Template :: o.sign(t).Some? ==>
      && o.sign(t).value.serial == t.serial && o.sign(t).value.commonName == t.commonName
      && o.sign(t).value.notBefore == Timestamp.Truncated(t.notBefore)
      && o.sign(t).value.notAfter == Timestamp.Truncated(t.notAfter)
      && Timestamp.InRange(t.notBefore) && Timestamp.InRange(t.notAfter)
  }

  /** One poll that issues: what it was asked, and the leaf it signed. */
  datatype Issuance = Issuance(request: Issue, n: Named, now: int, leaf: Leaf)

  function EntryOf(o: Oracles, i: Issuance): Certificate {
    EntryFor(o, i.request, i.leaf)
  }

  function UpdateOf(o: Oracles, i: Issuance): Update
    requires i.n.Named?
  {
    Append(i.n.repo, i.now, EntryOf(o, i))
  }

  // Which branch of the pipeline a commit comes from, one level at a time.

  lemma CommitHasClaim(lc: Codec, o: Oracles, request: Issue, comments: seq<Challenge.Comment>, now: int,
                       v: Enroll.Visible, texts: Files,
                           stream: seq<Random.Byte>) returns (n: Named, control: Enroll.Control)
    requires Enroll.CourseOf(lc, o, request, comments, now, v, texts, stream).commit.Some?
    ensures n.Named?
    ensures Enroll.CourseOf(lc, o, request, comments, now, v, texts, stream)
            == Enroll.CourseOfControl(lc, o, request, n, control, now, texts, stream)
  {
    var r := Enroll.ResolvedIn(o, request.body, v);
    n := r.n;
    control := Enroll.ControlIn(comments, now, n.repo, v);
  }

  lemma CommitIsProven(lc: Codec, o: Oracles, request: Issue, n: Named, control: Enroll.Control, now: int,
                       texts: Files, stream: seq<Random.Byte>)
    requires n.Named? && Enroll.CourseOfControl(lc, o, request, n, control, now, texts, stream).commit.Some?
    ensures Enroll.CourseOfControl(lc, o, request, n, control, now, texts, stream)
            == Enroll.CourseOfLedger(lc, o, request, n, now, texts, stream)
  {}

  lemma CommitIsAllowed(lc: Codec, o: Oracles, request: Issue, n: Named, now: int, texts: Files,
                        stream: seq<Random.Byte>)
    requires n.Named? && Enroll.CourseOfLedger(lc, o, request, n, now, texts, stream).commit.Some?
    ensures Enroll.CourseOfLedger(lc, o, request, n, now, texts, stream) ==
              Enroll.CourseOfIssue(o, request, n, now, stream)
  {}

  lemma CommitIsSigned(o: Oracles, request: Issue, n: Named, now: int, stream: seq<Random.Byte>) returns (i: Issuance)
    requires FaithfulSigner(o) && n.Named? && Enroll.CourseOfIssue(o, request, n, now, stream).commit.Some?
    ensures i.request == request && i.now == now && i.n == n && GoodIssuance(o, i)
    ensures Enroll.CourseOfIssue(o, request, n, now, stream).commit == Some((n.appID, UpdateOf(o, i)))
  {
    var leaf := SignedLeaf(o, n, now, stream).value;
    i := Issuance(request, n, now, leaf);
    SignedFacts(o, n, now, stream);
  }

  /** A poll of enroll.Process that commits, when nothing fails, issues a leaf for a valid appId. */
  lemma IssuanceOf(lc: Codec, o: Oracles, request: Issue, comments: seq<Challenge.Comment>, now: int, v: Enroll.Visible,
                   texts: Files, stream: seq<Random.Byte>) returns (i: Issuance)
    requires FaithfulSigner(o)
    requires Enroll.CourseOf(lc, o, request, comments, now, v, texts, stream).commit.Some?
    ensures i.request == request && i.now == now && GoodIssuance(o, i)
    ensures Enroll.CourseOf(lc, o, request, comments, now, v, texts, stream).commit == Some((i.n.appID, UpdateOf(o, i)))
  {
    var n, control := CommitHasClaim(lc, o, request, comments, now, v, texts, stream);
    CommitIsProven(lc, o, request, n, control, now, texts, stream);
    CommitIsAllowed(lc, o, request, n, now, texts, stream);
    i := CommitIsSigned(o, request, n, now, stream);
  }

  lemma SignedFacts(o: Oracles, n: Named, now: int, stream: seq<Random.Byte>)
    requires FaithfulSigner(o) && n.Named? && Form.IndexOfSlash(n.repo) >= 0 && SignedLeaf(o, n, now, stream).Some?
    ensures var leaf := SignedLeaf(o, n, now, stream).value;
            && Serial.ParseSerial(Serial.FormatSerial(leaf.serial)) == Some(leaf.serial)
            && leaf.commonName == n.appID && leaf.notBefore == Timestamp.Truncated(now)
            && Timestamp.InRange(now)
            && WholeSeconds(leaf.notBefore) && WholeSeconds(leaf.notAfter)
  {
    var serial := Serial.FirstNonZeroBlock(stream).0.value;
    var t := LeafTemplate(o, n, now, serial);
    Serial.SerialRoundTrip(serial);
    Timestamp.TruncatedFacts(t.notBefore, t.notBefore);
    Timestamp.TruncatedFacts(t.notAfter, t.notAfter);
    Timestamp.TruncatedInRange(t.notBefore);
    Timestamp.TruncatedInRange(t.notAfter);
  }

  predicate WholeSeconds(t: int) {
    Timestamp.InRange(t) && Timestamp.Truncated(t) == t
  }

  predicate GoodIssuance(o: Oracles, i: Issuance) {
    && i.n.Named? && AppId.Valid(i.n.appID) && i.leaf.commonName == i.n.appID
    && Timestamp.InRange(i.now)
    && WholeSeconds(i.leaf.notBefore) && WholeSeconds(i.leaf.notAfter)
    && Serial.ParseSerial(Serial.FormatSerial(i.leaf.serial)) == Some(i.leaf.serial)
  }

  // ---- the entry in the ledger ----

  /** The fingerprint is new to the ledger: leaves are told apart by their digest. */
  ghost predicate FreshFingerprint(lc: Codec, o: Oracles, files: Files, i: Issuance)
    requires i.n.Named?
  {
    var l := LedgerOf(lc, files, i.n.appID);
    l.Some? ==> forall k :: 0 <= k < |l.value.Certs()| ==> l.value.Certs()[k].fingerprint != o.fingerprint(i.leaf.der)
  }

  function IssueCommit(o: Oracles, i: Issuance): Commit
    requires i.n.Named?
  {
    Commit(0, i.n.appID, UpdateOf(o, i))
  }

  function TargetOf(o: Oracles, i: Issuance): Target {
    ByFingerprint(o.fingerprint(i.leaf.der))
  }

  lemma IssueIsSound(lc: Codec, o: Oracles, files: Files, i: Issuance)
    requires GoodIssuance(o, i)
    ensures SoundCommit(lc, files, IssueCommit(o, i)) && EntryOf(o, i).Normal() == EntryOf(o, i)
  {}

  lemma LastIsFirstMatch(cs: seq<Certificate>, c: Certificate, t: Target)
    requires t.Matches(c) && forall k :: 0 <= k < |cs| ==> !t.Matches(cs[k])
    ensures FindIn(cs + [c], t) == |cs|
  {
    assert (cs + [c])[|cs|] == c;
    assert forall k :: 0 <= k < |cs| ==> (cs + [c])[k] == cs[k];
  }

  /** The first match of the leaf's fingerprint is the issued entry, in every state of the ledger. */
  ghost predicate EntryFound(lc: Codec, o: Oracles, files: Files, i: Issuance)
    requires i.n.Named?
  {
    var l := LedgerOf(lc, files, i.n.appID);
    && l.Some?
    && var k := FindIn(l.value.Certs(), TargetOf(o, i));
       k >= 0 && l.value.Certs()[k].SameIdentity(EntryOf(o, i))
  }

  lemma FoundAfterIssue(lc: Codec, o: Oracles, files: Files, i: Issuance)
    requires lc.Faithful() && HealthyFiles(lc, files) && GoodIssuance(o, i) && FreshFingerprint(lc, o, files, i)
    ensures HealthyFiles(lc, Applied(lc, files, IssueCommit(o, i)))
    ensures EntryFound(lc, o, Applied(lc, files, IssueCommit(o, i)), i)
  {
    IssueIsSound(lc, o, files, i);
    CommitKeepsHistory(lc, files, IssueCommit(o, i));
    var before := LedgerOf(lc, files, i.n.appID);
    LastIsFirstMatch(if before.Some? then before.value.Certs() else [], EntryOf(o, i), TargetOf(o, i));
  }

  /** Whatever other bots commit in between, the entry is found where it was. */
  lemma FoundLater(lc: Codec, o: Oracles, files: Files, log: seq<Commit>, i: Issuance)
    requires lc.Faithful() && HealthyFiles(lc, files) && SoundLog(lc, files, log) && i.n.Named?
    requires EntryFound(lc, o, files, i)
    ensures HealthyFiles(lc, Replay(lc, files, log)) && EntryFound(lc, o, Replay(lc, files, log), i)
  {
    ReplayKeepsHistory(lc, files, log);
    var a, b := LedgerOf(lc, files, i.n.appID).value, LedgerOf(lc, Replay(lc, files, log), i.n.appID).value;
    FirstMatchIsStable(a.Certs(), b.Certs(), TargetOf(o, i));
    var k := FindIn(a.Certs(), TargetOf(o, i));
    assert b.Certs()[k].SameIdentity(a.Certs()[k]);
  }

  // ---- the revocation ----

  /** A revocation request that presents the issued leaf: the CMS verifies, and the embedded
      certificate is the leaf, with its own common name. */
  predicate Presents(o: Oracles, revocation: Issue, i: Issuance)
    requires i.n.Named?
  {
    && LABEL_REVOKED !in revocation.labels
    && FindCms(revocation.body).Some?
    && o.verifyCms(FindCms(revocation.body).value) == Verified(SignerCert(i.leaf.commonName, i.leaf.der))
  }

  /** revoke.Process looks in the file that enroll.Process wrote: the common name is a strict appId,
      which canonicalizing leaves alone. */
  lemma LooksInTheRightFile(o: Oracles, revocation: Issue, i: Issuance)
    requires GoodIssuance(o, i) && Presents(o, revocation, i)
    ensures ReadRequest(o, revocation.body) == Presented(i.n.appID, o.fingerprint(i.leaf.der))
  {
    AppId.StrictIsCanonical(i.n.appID);
  }

  function FlipFrom(o: Oracles, i: Issuance): Update {
    Flip(TargetOf(o, i), Revocation("self-service", i.leaf.notBefore, ""))
  }

  /** The self-service poll finds the entry, and flips it from its own notBefore unless it has been
      revoked already. */
  lemma RevokeFindsEntry(lc: Codec, o: Oracles, files: Files, revocation: Issue, i: Issuance)
    requires lc.Faithful() && HealthyFiles(lc, files) && GoodIssuance(o, i)
    requires EntryFound(lc, o, files, i) && Presents(o, revocation, i)
    ensures var c := Revoke.CourseOf(lc, o, revocation, files);
            var l := LedgerOf(lc, files, i.n.appID).value;
            && c.ok
            && c.commit == if RevokedAt(l, TargetOf(o, i)) then None else Some((i.n.appID, FlipFrom(o, i)))
  {
    LooksInTheRightFile(o, revocation, i);
    LoadedText(lc, files, i.n.appID);
    var l := LedgerOf(lc, files, i.n.appID);
    Revoke.CourseByIndex(o, i.n.appID, o.fingerprint(i.leaf.der), l, FindIn(l.value.Certs(), TargetOf(o, i)));
  }

  /** The files after the self-service poll. */
  function AfterPoll(lc: Codec, files: Files, c: PollRun.Course): Files {
    if c.commit.None? then files else Applied(lc, files, Commit(1, c.commit.value.0, c.commit.value.1))
  }

  lemma FlipIsSound(lc: Codec, o: Oracles, files: Files, i: Issuance)
    requires HealthyFiles(lc, files) && GoodIssuance(o, i) && EntryFound(lc, o, files, i)
    ensures SoundCommit(lc, files, Commit(1, i.n.appID, FlipFrom(o, i)))
  {}

  /** After it the entry is revoked; from its own notBefore, if the poll did it. */
  lemma RevokedAfterPoll(lc: Codec, o: Oracles, files: Files, revocation: Issue, i: Issuance)
    requires lc.Faithful() && HealthyFiles(lc, files) && GoodIssuance(o, i)
    requires EntryFound(lc, o, files, i) && Presents(o, revocation, i)
    ensures var c := Revoke.CourseOf(lc, o, revocation, files);
            var after := AfterPoll(lc, files, c);
            && HealthyFiles(lc, after) && EntryFound(lc, o, after, i)
            && RevokedAt(LedgerOf(lc, after, i.n.appID).value, TargetOf(o, i))
            && (c.commit.Some? ==> DatedFromStart(LedgerOf(lc, after, i.n.appID).value, o, i))
  {
    RevokeFindsEntry(lc, o, files, revocation, i);
    if !RevokedAt(LedgerOf(lc, files, i.n.appID).value, TargetOf(o, i)) {
      FlipIsSound(lc, o, files, i);
      FlipRevokes(lc, o, files, i);
    }
  }

  predicate DatedFromStart(l: Ledger, o: Oracles, i: Issuance) {
    var k := FindIn(l.Certs(), TargetOf(o, i));
    k >= 0 && l.Certs()[k].revokedFrom == Some(i.leaf.notBefore)
  }

  lemma FlipRevokes(lc: Codec, o: Oracles, files: Files, i: Issuance)
    requires lc.Faithful() && HealthyFiles(lc, files) && GoodIssuance(o, i) && EntryFound(lc, o, files, i)
    requires SoundCommit(lc, files, Commit(1, i.n.appID, FlipFrom(o, i)))
    ensures var after := Applied(lc, files, Commit(1, i.n.appID, FlipFrom(o, i)));
            && HealthyFiles(lc, after) && EntryFound(lc, o, after, i)
            && RevokedAt(LedgerOf(lc, after, i.n.appID).value, TargetOf(o, i))
            && DatedFromStart(LedgerOf(lc, after, i.n.appID).value, o, i)
  {
    var c := Commit(1, i.n.appID, FlipFrom(o, i));
    CommitKeepsHistory(lc, files, c);
    var a, b := LedgerOf(lc, files, i.n.appID).value, LedgerOf(lc, Applied(lc, files, c), i.n.appID).value;
    FirstMatchIsStable(a.Certs(), b.Certs(), TargetOf(o, i));
    var k := FindIn(a.Certs(), TargetOf(o, i));
    assert b.Certs()[k].SameIdentity(a.Certs()[k]);
  }

  // ---- later flips ----

  /** The commit flips the certificate at place `k` of this ledger. */
  predicate FlipsPlace(l: Option<Ledger>, c: Commit, appID: string, k: int) {
    c.appID == appID && c.update.Flip? && l.Some? && FindIn(l.value.Certs(), c.update.target) == k
  }

  /** The date of the last commit of the log that flips place `k`, and `before` if none does. */
  function DateAfter(lc: Codec, files: Files, log: seq<Commit>, appID: string, k: int,
                     before: Option<int>): Option<int> {
    if log == [] then before
    else
      var init, c := log[..|log| - 1], log[|log| - 1];
      if FlipsPlace(LedgerOf(lc, Replay(lc, files, init), appID), c, appID, k)
      then Some(Timestamp.Truncated(c.update.revocation.revokedFrom))
      else DateAfter(lc, files, init, appID, k, before)
  }

  lemma DateAfterCommit(lc: Codec, files: Files, c: Commit, appID: string, k: nat)
    requires lc.Faithful() && HealthyFiles(lc, files) && SoundCommit(lc, files, c)
    requires LedgerOf(lc, files, appID).Some? && k < |LedgerOf(lc, files, appID).value.Certs()|
    ensures var l, l' := LedgerOf(lc, files, appID), LedgerOf(lc, Applied(lc, files, c), appID);
            && l'.Some? && k < |l'.value.Certs()|
            && l'.value.Certs()[k].revokedFrom ==
               if FlipsPlace(l, c, appID, k) then Some(Timestamp.Truncated(c.update.revocation.revokedFrom))
               else l.value.Certs()[k].revokedFrom
  {
    CommitKeepsHistory(lc, files, c);
  }

  /** The date of a certificate is that of the last flip that found it, and what it was if none did. */
  lemma {:induction false} DateOfLastFlip(lc: Codec, files: Files, log: seq<Commit>, appID: string, k: nat)
    requires lc.Faithful() && HealthyFiles(lc, files) && SoundLog(lc, files, log)
    requires LedgerOf(lc, files, appID).Some? && k < |LedgerOf(lc, files, appID).value.Certs()|
    ensures var l, l' := LedgerOf(lc, files, appID), LedgerOf(lc, Replay(lc, files, log), appID);
            && l'.Some? && k < |l'.value.Certs()|
            && l'.value.Certs()[k].revokedFrom == DateAfter(lc, files, log, appID, k, l.value.Certs()[k].revokedFrom)
  {
    if log != [] {
      var init := log[..|log| - 1];
      DateOfLastFlip(lc, files, init, appID, k);
      ReplayKeepsHistory(lc, files, init);
      DateAfterCommit(lc, Replay(lc, files, init), log[|log| - 1], appID, k);
    }
  }

  // ---- the list ----

  lemma RevokedIsListed(lc: Codec, o: Oracles, files: Files, i: Issuance, ledgers: seq<Ledger>, list: seq<Crl.Entry>)
    returns (e: Crl.Entry)
    requires HealthyFiles(lc, files) && GoodIssuance(o, i) && EntryFound(lc, o, files, i)
    requires RevokedAt(LedgerOf(lc, files, i.n.appID).value, TargetOf(o, i))
    requires CrlGrowth.ReadFrom(lc, files, ledgers) && Crl.Arranged(list, Crl.AllListed(ledgers))
    ensures e in list && e.serial == i.leaf.serial
    ensures var cs := LedgerOf(lc, files, i.n.appID).value.Certs();
            cs[FindIn(cs, TargetOf(o, i))].revokedFrom == Some(e.revocationTime)
  {
    var l := LedgerOf(lc, files, i.n.appID).value;
    var k := FindIn(l.Certs(), TargetOf(o, i));
    CrlGrowth.LedgerInFiles(lc, files, i.n.appID);
    CrlGrowth.HealthyIsListable(l.Certs()[k]);
    e := Crl.EntryOf(l.Certs()[k]);
    assert Crl.ShowsAs(l.Certs()[k], e);
    assert Crl.InLedger(l, e) && Crl.OnLedgers(ledgers, e);
    Crl.OnListIffRevoked(ledgers, list, e);
  }

  /** No other recorded certificate has the leaf's serial. */
  ghost predicate OnlyOneOfSerial(lc: Codec, o: Oracles, files: Files, i: Issuance)
    requires i.n.Named?
  {
    forall a, k: nat :: LedgerOf(lc, files, a).Some? && k < |LedgerOf(lc, files, a).value.Certs()|
      && Serial.ParseSerial(LedgerOf(lc, files, a).value.Certs()[k].serial) == Some(i.leaf.serial)
      ==> a == i.n.appID && k == FindIn(LedgerOf(lc, files, a).value.Certs(), TargetOf(o, i))
  }

  lemma OneEntryOfSerial(lc: Codec, o: Oracles, files: Files, i: Issuance, ledgers: seq<Ledger>, list: seq<Crl.Entry>,
                         e: Crl.Entry, e': Crl.Entry)
    requires i.n.Named? && OnlyOneOfSerial(lc, o, files, i)
    requires CrlGrowth.ReadFrom(lc, files, ledgers) && Crl.Arranged(list, Crl.AllListed(ledgers))
    requires e in list && e' in list && e.serial == i.leaf.serial && e'.serial == i.leaf.serial
    ensures e == e'
  {
    var l, k := Whence(lc, files, ledgers, list, e);
    var l', k' := Whence(lc, files, ledgers, list, e');
  }

  /** The recorded certificate behind an entry of the list. */
  lemma Whence(lc: Codec, files: Files, ledgers: seq<Ledger>, list: seq<Crl.Entry>, e: Crl.Entry)
    returns (a: string, k: nat)
    requires CrlGrowth.ReadFrom(lc, files, ledgers) && Crl.Arranged(list, Crl.AllListed(ledgers)) && e in list
    ensures LedgerOf(lc, files, a).Some? && k < |LedgerOf(lc, files, a).value.Certs()|
    ensures Crl.ShowsAs(LedgerOf(lc, files, a).value.Certs()[k], e)
  {
    Crl.OnListIffRevoked(ledgers, list, e);
    var l :| l in ledgers && Crl.InLedger(l, e);
    a :| a in files && LedgerOf(lc, files, a) == Some(l);
    k :| 0 <= k < |l.Certs()| && Crl.ShowsAs(l.Certs()[k], e);
  }

  /** The date of the leaf on a list: that of the last commit in `later` that flipped the leaf; if
      there is none, the leaf's own notBefore, or what an earlier revocation had set before the poll. */
  ghost predicate RightlyDated(lc: Codec, o: Oracles, i: Issuance, c: PollRun.Course, polled: Files,
                               later: seq<Commit>, date: int)
    requires i.n.Named? && EntryFound(lc, o, polled, i)
  {
    var cs := LedgerOf(lc, polled, i.n.appID).value.Certs();
    var k := FindIn(cs, TargetOf(o, i));
    var before := if c.commit.Some? then Some(i.leaf.notBefore) else cs[k].revokedFrom;
    Some(date) == DateAfter(lc, polled, later, i.n.appID, k, before)
  }

  lemma ListedAfterPoll(lc: Codec, o: Oracles, i: Issuance, c: PollRun.Course, polled: Files, later: seq<Commit>,
                        end: Files, ledgers: seq<Ledger>, list: seq<Crl.Entry>) returns (e: Crl.Entry)
    requires lc.Faithful() && HealthyFiles(lc, polled) && GoodIssuance(o, i) && EntryFound(lc, o, polled, i)
    requires RevokedAt(LedgerOf(lc, polled, i.n.appID).value, TargetOf(o, i))
    requires c.commit.Some? ==> DatedFromStart(LedgerOf(lc, polled, i.n.appID).value, o, i)
    requires SoundLog(lc, polled, later) && end == Replay(lc, polled, later)
    requires CrlGrowth.ReadFrom(lc, end, ledgers) && Crl.Arranged(list, Crl.AllListed(ledgers))
    ensures e in list && e.serial == i.leaf.serial && RightlyDated(lc, o, i, c, polled, later, e.revocationTime)
  {
    FoundLater(lc, o, polled, later, i);
    ReplayKeepsHistory(lc, polled, later);
    var l, l' := LedgerOf(lc, polled, i.n.appID).value, LedgerOf(lc, end, i.n.appID).value;
    RevokedAtStays(l, l', TargetOf(o, i));
    FirstMatchIsStable(l.Certs(), l'.Certs(), TargetOf(o, i));
    DateOfLastFlip(lc, polled, later, i.n.appID, FindIn(l.Certs(), TargetOf(o, i)));
    e := RevokedIsListed(lc, o, end, i, ledgers, list);
  }

  lemma OnlyEntryOfSerial(lc: Codec, o: Oracles, files: Files, i: Issuance, ledgers: seq<Ledger>, list: seq<Crl.Entry>)
    requires i.n.Named? && OnlyOneOfSerial(lc, o, files, i)
    requires CrlGrowth.ReadFrom(lc, files, ledgers) && Crl.Arranged(list, Crl.AllListed(ledgers))
    ensures forall e, e' :: e in list && e' in list && e.serial == i.leaf.serial && e'.serial == i.leaf.serial ==>
              e == e'
  {
    forall e, e' | e in list && e' in list && e.serial == i.leaf.serial && e'.serial == i.leaf.serial
      ensures e == e'
    {
      OneEntryOfSerial(lc, o, files, i, ledgers, list, e, e');
    }
  }

  /** A leaf that enroll.Process issues and that is later presented to revoke.Process is on the next
      revocation list under its own serial. Its date is that of the last revocation of it, which is
      its own notBefore if that poll did it and nobody revoked it again. Any number of other bots may
      commit in between (`between`), and after (`later`). When no other certificate has the serial,
      that is the only entry of it. */
  lemma IssuedThenRevokedIsListed(lc: Codec, o: Oracles, files: Files,
                                  request: Issue, comments: seq<Challenge.Comment>, now: int, v: Enroll.Visible,
                                  stream: seq<Random.Byte>, i: Issuance, issued: Files, between: seq<Commit>,
                                      mid: Files, revocation: Issue, c: PollRun.Course, polled: Files,
                                          later: seq<Commit>, end: Files, ledgers: seq<Ledger>, list: seq<Crl.Entry>)
    requires lc.Faithful() && HealthyFiles(lc, files) && GoodIssuance(o, i) && FreshFingerprint(lc, o, files, i)
    requires Enroll.CourseOf(lc, o, request, comments, now, v, files, stream).commit ==
               Some((i.n.appID, UpdateOf(o, i)))
    requires issued == Applied(lc, files, Commit(0, i.n.appID, UpdateOf(o, i)))
    requires SoundLog(lc, issued, between) && mid == Replay(lc, issued, between)
    requires Presents(o, revocation, i)
    requires c == Revoke.CourseOf(lc, o, revocation, mid) && polled == AfterPoll(lc, mid, c)
    requires SoundLog(lc, polled, later) && end == Replay(lc, polled, later)
    requires CrlGrowth.ReadFrom(lc, end, ledgers) && Crl.Arranged(list, Crl.AllListed(ledgers))
    ensures EntryFound(lc, o, polled, i)
    ensures exists e | e in list :: e.serial == i.leaf.serial &&
              RightlyDated(lc, o, i, c, polled, later, e.revocationTime)
    ensures OnlyOneOfSerial(lc, o, end, i) ==>
              forall e, e' :: e in list && e' in list && e.serial == i.leaf.serial && e'.serial == i.leaf.serial ==>
                  e == e'
  {
    FoundAfterIssue(lc, o, files, i);
    FoundLater(lc, o, issued, between, i);
    RevokedAfterPoll(lc, o, mid, revocation, i);
    var e := ListedAfterPoll(lc, o, i, c, polled, later, end, ledgers, list);
    if OnlyOneOfSerial(lc, o, end, i) {
      OnlyEntryOfSerial(lc, o, end, i, ledgers, list);
    }
  }
}
