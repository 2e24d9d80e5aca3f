/** internal/revoke: one poll of a revocation request, and one privileged revocation. */
module Revoke {
  import opened Wrappers
  import opened Ledger
  import opened Updates
  import opened Blobs
  import opened Store
  import opened Steps
  import opened Polls
  import opened PollRun
  import AppId
  import Protocol
  import Strings

  // ---- self-service ----

  /** The course of a self-service poll when nothing fails and nobody interferes. */
  function CourseOf(lc: Codec, o: Oracles, issue: Issue, texts: Files): Course {
    if LABEL_REVOKED in issue.labels then NOTHING
    else
      match ReadRequest(o, issue.body)
      case NotPresented(r) => Course(None, RefusalPlan(o, r), true)
      case Unknown => ERROR
      case Presented(appID, fp) =>
        match Load(lc, TextOf(texts, appID))
        case None => ERROR
        case Some(existing) => CourseOfLedger(o, appID, fp, existing)
  }

  /** What the ledger decides: the choice is the one every bot of the protocol makes. */
  function CourseOfLedger(o: Oracles, appID: string, fp: string, existing: Option<Ledger>): Course {
    match Protocol.Begin(Protocol.SelfRevoke(appID, fp), existing)
    case Stop(outcome) =>
      if outcome == Protocol.AlreadyRevoked then Course(None, RevokedPlan(o.refusal(RevokedAlready)), true)
      else Course(None, RefusalPlan(o, NotIssued(fp, appID)), true)
    case Go(u) => Course(Some((appID, u)), RevokedPlan(RevokedText(o, appID, u, SerialIn(existing, u))), true)
  }

  /** The commit that a self-service bot of the protocol chooses on a ledger, if any. */
  function ChosenFlip(appID: string, fp: string, existing: Option<Ledger>): Option<(string, Update)> {
    match Protocol.Begin(Protocol.SelfRevoke(appID, fp), existing)
    case Stop(_) => None
    case Go(u) => Some((appID, u))
  }

  function SerialIn(existing: Option<Ledger>, u: Update): string {
    if u.Flip? && existing.Some? && FindIn(existing.value.Certs(), u.target) >= 0
    then existing.value.Certs()[FindIn(existing.value.Certs(), u.target)].serial
    else ""
  }

  function RevokedText(o: Oracles, appID: string, u: Update, serial: string): string {
    if u.Flip? then o.revoked(serial, appID, u.revocation.revokedFrom) else ""
  }

  /** The course in terms of the index the scan returns. */
  lemma CourseByIndex(o: Oracles, appID: string, fp: string, existing: Option<Ledger>, i: int)
    requires i == if existing.None? then -1 else FindIn(existing.value.Certs(), ByFingerprint(fp))
    ensures i < 0 ==>
              && ChosenFlip(appID, fp, existing) == None
              && CourseOfLedger(o, appID, fp, existing) == Course(None, RefusalPlan(o, NotIssued(fp, appID)), true)
    ensures i >= 0 && existing.value.Certs()[i].Revoked() ==>
              && ChosenFlip(appID, fp, existing) == None
              && CourseOfLedger(o, appID, fp, existing) == Course(None, RevokedPlan(o.refusal(RevokedAlready)), true)
    ensures i >= 0 && !existing.value.Certs()[i].Revoked() ==>
              var c := existing.value.Certs()[i];
              var u := Update.Flip(ByFingerprint(fp), Revocation("self-service", c.notBefore, ""));
              && ChosenFlip(appID, fp, existing) == Some((appID, u))
              && CourseOfLedger(o, appID, fp, existing) ==
                   Course(Some((appID, u)), RevokedPlan(o.revoked(c.serial, appID, c.notBefore)), true)
  {}

  /** Step 4 and delivery: flip, and say so with the serial that was flipped. */
  method FlipAndDeliver(lc: Codec, o: Oracles, gh: Client, number: int, appID: string, fp: string, rev: Revocation,
                        l: LedgerObject, prevSHA: string, ghost start: Snapshot)
    returns (ok: bool, ghost c: Course, ghost committed: bool, ghost k: nat)
    requires gh.Valid() && OthersOnly(start, gh.Snap())
    requires Holds(lc, gh.ledgers, gh.nextSHA, appID, Held(l), prevSHA) && Finds(Held(l), ByFingerprint(fp))
    modifies gh, l
    ensures gh.Valid() && gh.clock == old(gh.clock)
    ensures c.commit == Some((appID, Update.Flip(ByFingerprint(fp), rev))) && c.ok
    ensures Ran(lc, start, gh.Snap(), old(gh.IssueOf(number)), gh.IssueOf(number), gh.clock, c, committed, k, ok)
    ensures forall m :: m != number ==> gh.IssueOf(m) == old(gh.IssueOf(m))
    ensures ErrsForCause(lc, old(gh.Look()), gh.Look(), c, committed, ok)
    ensures old(gh.Quiet()) && OnDisk(lc, old(gh.Look()), appID) == Some(old(Held(l))) ==>
              && CarriedOut(old(gh.Look()), gh.Look(), c, committed, ok)
              && c.plan == RevokedPlan(o.revoked(FoundSerial(old(Held(l)), ByFingerprint(fp)), appID, rev.revokedFrom))
  {
    ghost var a, s, given := gh.Look(), gh.IssueOf(number), Held(l);
    var r, serial := ApplyRevocation(lc, gh, appID, ByFingerprint(fp), rev, l, prevSHA);
    var text := o.revoked(serial, appID, rev.revokedFrom);
    c := Course(Some((appID, Update.Flip(ByFingerprint(fp), rev))), RevokedPlan(text), true);
    if r != Committed {
      GaveUp(lc, start, a, gh.Look(), s, gh.clock, c, given, prevSHA, r);
      return false, c, false, 0;
    }
    ghost var m := gh.Look();
    ok, k := Deliver(gh, number, text, {LABEL_REVOKED}, {});
    WroteAndSaid(lc, start, a, m, gh.Look(), s, gh.IssueOf(number), gh.clock, c, given, prevSHA, k, ok);
    committed := true;
  }

  /** The terminal state of a certificate that is revoked already. */
  method SayRevoked(lc: Codec, gh: Client, number: int, text: string, ghost start: Snapshot)
    returns (ok: bool, ghost c: Course, ghost k: nat)
    requires gh.Valid() && OthersOnly(start, gh.Snap())
    modifies gh
    ensures gh.Valid() && gh.clock == old(gh.clock)
    ensures c == Course(None, RevokedPlan(text), true)
    ensures Ran(lc, start, gh.Snap(), old(gh.IssueOf(number)), gh.IssueOf(number), gh.clock, c, false, k, ok)
    ensures forall m :: m != number ==> gh.IssueOf(m) == old(gh.IssueOf(m))
    ensures gh.faults >= old(gh.faults) && (ok <==> gh.faults == old(gh.faults))
    ensures old(gh.Quiet()) ==> ok && gh.Quiet() && gh.Snap() == old(gh.Snap())
  {
    c := Course(None, RevokedPlan(text), true);
    RefusalsAreModest(RevokedAlready);
    ok, k := Deliver(gh, number, text, {LABEL_REVOKED}, {});
    RanTalk(lc, start, old(gh.Snap()), gh.Snap(), old(gh.IssueOf(number)), gh.IssueOf(number), gh.clock, c, k, ok);
  }

  /** What a poll did from the ledger on: it refused, closed or flipped as a bot of the protocol chooses on
      the ledger held, up to the first call that failed; all of it when nobody else was about. */
  ghost predicate DidOnLedger(lc: Codec, o: Oracles, appID: string, fp: string, held: Option<Ledger>, start: Snapshot,
                              a: View, b: View, s: IssueState, t: IssueState, now: int, c: Course, committed: bool,
                              k: nat, ok: bool) {
    && c.ok && c.commit == ChosenFlip(appID, fp, held)
    && (c.commit.None? ==> c.plan == CourseOfLedger(o, appID, fp, held).plan)
    && (c.commit.Some? ==> c.commit.value.1.Flip? && c.commit.value.1.target == ByFingerprint(fp))
    && Ran(lc, start, b.snap, s, t, now, c, committed, k, ok) && ErrsForCause(lc, a, b, c, committed, ok)
    && (a.quiet && OnDisk(lc, a, appID) == Some(held) ==>
          CarriedOut(a, b, c, committed, ok) && c == CourseOfLedger(o, appID, fp, held))
  }

  lemma OnlyTalked(lc: Codec, o: Oracles, appID: string, fp: string, held: Option<Ledger>, i: int, start: Snapshot,
                   a: View, b: View, s: IssueState, t: IssueState, now: int, c: Course, k: nat, ok: bool)
    requires i == if held.None? then -1 else FindIn(held.value.Certs(), ByFingerprint(fp))
    requires c == if i < 0 then Course(None, RefusalPlan(o, NotIssued(fp, appID)), true)
                  else Course(None, RevokedPlan(o.refusal(RevokedAlready)), true)
    requires i >= 0 ==> held.value.Certs()[i].Revoked()
    requires Ran(lc, start, b.snap, s, t, now, c, false, k, ok)
    requires b.faults >= a.faults && (ok <==> b.faults == a.faults)
    requires a.quiet ==> ok && b.quiet && b.snap == a.snap
    ensures DidOnLedger(lc, o, appID, fp, held, start, a, b, s, t, now, c, false, k, ok)
  {
    CourseByIndex(o, appID, fp, held, i);
  }

  lemma Flipped(lc: Codec, o: Oracles, appID: string, fp: string, held: Option<Ledger>, i: int, start: Snapshot,
                a: View, b: View, s: IssueState, t: IssueState, now: int, c: Course, committed: bool, k: nat, ok: bool)
    requires held.Some? && i == FindIn(held.value.Certs(), ByFingerprint(fp)) && i >= 0
    requires !held.value.Certs()[i].Revoked() && c.ok
    requires c.commit == Some((appID, Update.Flip(ByFingerprint(fp),
                                                  Revocation("self-service", held.value.Certs()[i].notBefore, ""))))
    requires Ran(lc, start, b.snap, s, t, now, c, committed, k, ok) && ErrsForCause(lc, a, b, c, committed, ok)
    requires a.quiet && OnDisk(lc, a, appID) == Some(held) ==>
               && CarriedOut(a, b, c, committed, ok)
               && c.plan == RevokedPlan(o.revoked(FoundSerial(held, ByFingerprint(fp)), appID,
                                                  held.value.Certs()[i].notBefore))
    ensures DidOnLedger(lc, o, appID, fp, held, start, a, b, s, t, now, c, committed, k, ok)
  {
    CourseByIndex(o, appID, fp, held, i);
  }

  /** Steps 3 to 5 on the ledger as loaded. */
  method RevokeIn(lc: Codec, o: Oracles, gh: Client, number: int, appID: string, fp: string,
                  l: LedgerObject?, prevSHA: string, ghost start: Snapshot)
    returns (ok: bool, ghost c: Course, ghost committed: bool, ghost k: nat)
    requires gh.Valid() && OthersOnly(start, gh.Snap())
    requires Holds(lc, gh.ledgers, gh.nextSHA, appID, Held(l), prevSHA)
    modifies gh, l
    ensures gh.Valid() && gh.clock == old(gh.clock)
    ensures DidOnLedger(lc, o, appID, fp, old(Held(l)), start, old(gh.Look()), gh.Look(), old(gh.IssueOf(number)),
                        gh.IssueOf(number), gh.clock, c, committed, k, ok)
    ensures forall m :: m != number ==> gh.IssueOf(m) == old(gh.IssueOf(m))
  {
    ghost var held, a, s := Held(l), gh.Look(), gh.IssueOf(number);
    committed := false;
    var idx := Find(l, ByFingerprint(fp));
    if idx < 0 {
      ok, c, k := Talk(lc, gh, number, o.refusal(NotIssued(fp, appID)), LABEL_INVALID, start);
      OnlyTalked(lc, o, appID, fp, held, idx, start, a, gh.Look(), s, gh.IssueOf(number), gh.clock, c, k, ok);
    } else if l.Certs()[idx].Revoked() {
      ok, c, k := SayRevoked(lc, gh, number, o.refusal(RevokedAlready), start);
      OnlyTalked(lc, o, appID, fp, held, idx, start, a, gh.Look(), s, gh.IssueOf(number), gh.clock, c, k, ok);
    } else {
      var rev := Revocation("self-service", l.Certs()[idx].notBefore, "");
      ok, c, committed, k := FlipAndDeliver(lc, o, gh, number, appID, fp, rev, l, prevSHA, start);
      Flipped(lc, o, appID, fp, held, idx, start, a, gh.Look(), s, gh.IssueOf(number), gh.clock, c, committed, k, ok);
    }
  }

  // ---- what a poll comes to, in terms of the request and the ledger alone ----

  /** `i` is the place of the first certificate with this fingerprint. */
  predicate FirstOfFingerprint(held: Option<Ledger>, fp: string, i: int) {
    && held.Some? && 0 <= i < |held.value.Certs()| && held.value.Certs()[i].fingerprint == fp
    && forall k :: 0 <= k < i ==> held.value.Certs()[k].fingerprint != fp
  }

  predicate NoneOfFingerprint(held: Option<Ledger>, fp: string) {
    held.Some? ==> forall c :: c in held.value.Certs() ==> c.fingerprint != fp
  }

  /** The certificate at `i` revoked on its owner's request, from the start of its validity. */
  function SelfRevoked(l: Ledger, i: nat): Ledger
    requires i < |l.Certs()|
  {
    var c := l.Certs()[i];
    l.(certificates := Some(l.Certs()[i := c.(status := "revoked", revokedFrom := Some(c.notBefore),
                                              reason := "self-service", actor := "")]))
  }

  /** On a ledger that can be read: not there, revoked already, or revoked now. */
  ghost predicate LedgerOutcome(lc: Codec, o: Oracles, appID: string, fp: string, held: Option<Ledger>,
                                s: IssueState, t: IssueState, now: int, before: Files, after: Files) {
    && (NoneOfFingerprint(held, fp) ==> after == before && Says(s, t, o.refusal(NotIssued(fp, appID)), "invalid", now))
    && forall i :: FirstOfFingerprint(held, fp, i) ==>
         var c := held.value.Certs()[i];
         if c.status == "revoked"
         then after == before && Ends(s, t, o.refusal(RevokedAlready), "revoked", {}, now)
         else
           && after == before[appID := lc.marshal(SelfRevoked(held.value, i))]
           && Ends(s, t, o.revoked(c.serial, appID, c.notBefore), "revoked", {}, now)
  }

  /** What a poll of a revocation request comes to with nobody else about: from the issue state and the
      files before to those after, and whether it reports an error. */
  ghost predicate Outcome(lc: Codec, o: Oracles, issue: Issue, s: IssueState, t: IssueState, now: int, before: Files,
                          after: Files, ok: bool) {
    if "revoked" in issue.labels then ok && t == s && after == before
    else
      match FindCms(issue.body)
      case None => ok && after == before && Says(s, t, o.refusal(NoCms), "invalid", now)
      case Some(block) =>
        match o.verifyCms(block)
        case Unverifiable => ok && after == before && Says(s, t, o.refusal(BadCms), "invalid", now)
        case VerifierFailed => !ok && t == s && after == before
        case Verified(cert) =>
          && ((forall x :: !StandsFor(cert.commonName, x)) ==>
                ok && after == before && Says(s, t, o.refusal(BadName(cert.commonName)), "invalid", now))
          && forall x :: StandsFor(cert.commonName, x) ==>
               match Load(lc, TextOf(before, x)) {
                 case None => !ok && t == s && after == before
                 case Some(held) => ok && LedgerOutcome(lc, o, x, o.fingerprint(cert.der), held, s, t, now, before,
                                                        after)
               }
  }

  lemma FoundAt(held: Option<Ledger>, fp: string, i: int)
    requires i == if held.None? then -1 else FindIn(held.value.Certs(), ByFingerprint(fp))
    ensures i < 0 <==> NoneOfFingerprint(held, fp)
    ensures i >= 0 ==> FirstOfFingerprint(held, fp, i)
    ensures forall j :: FirstOfFingerprint(held, fp, j) ==> j == i
  {
    if i >= 0 {
      assert held.value.Certs()[i] in held.value.Certs();
    }
  }

  lemma LedgerCourseOutcome(lc: Codec, o: Oracles, appID: string, fp: string, held: Option<Ledger>, s: IssueState,
                            now: int, before: Files)
    requires Load(lc, TextOf(before, appID)) == Some(held)
    ensures var c := CourseOfLedger(o, appID, fp, held);
            c.ok && LedgerOutcome(lc, o, appID, fp, held, s, PerformAll(s, c.plan, now), now, before,
                                  FilesAfterCourse(lc, before, c))
  {
    var i := if held.None? then -1 else FindIn(held.value.Certs(), ByFingerprint(fp));
    FoundAt(held, fp, i);
    CourseByIndex(o, appID, fp, held, i);
    PlanOfTwo(s, o.refusal(NotIssued(fp, appID)), {"invalid"}, {}, now);
    PlanOfThree(s, o.refusal(RevokedAlready), {"revoked"}, {}, now);
    if i >= 0 && !held.value.Certs()[i].Revoked() {
      var c := held.value.Certs()[i];
      PlanOfThree(s, o.revoked(c.serial, appID, c.notBefore), {"revoked"}, {}, now);
      FlipWrites(lc, before, appID, fp, held.value, i);
    }
  }

  lemma FlipWrites(lc: Codec, before: Files, appID: string, fp: string, l: Ledger, i: nat)
    requires Load(lc, TextOf(before, appID)) == Some(Some(l))
    requires i == FindIn(l.Certs(), ByFingerprint(fp)) && i < |l.Certs()|
    ensures var u := Update.Flip(ByFingerprint(fp), Revocation("self-service", l.Certs()[i].notBefore, ""));
            Applied(lc, before, Commit(0, appID, u)) == before[appID := lc.marshal(SelfRevoked(l, i))]
  {
    var rev := Revocation("self-service", l.Certs()[i].notBefore, "");
    assert RevokedCert(l.Certs()[i], rev) == SelfRevoked(l, i).Certs()[i];
  }

  /** The course of a poll comes to exactly that. */
  lemma CourseOutcome(lc: Codec, o: Oracles, issue: Issue, s: IssueState, now: int, before: Files)
    ensures var c := CourseOf(lc, o, issue, before);
            Outcome(lc, o, issue, s, PerformAll(s, c.plan, now), now, before, FilesAfterCourse(lc, before, c), c.ok)
  {
    PlanOfTwo(s, o.refusal(NoCms), {"invalid"}, {}, now);
    PlanOfTwo(s, o.refusal(BadCms), {"invalid"}, {}, now);
    if FindCms(issue.body).Some? && o.verifyCms(FindCms(issue.body).value).Verified? {
      VerifiedOutcome(lc, o, issue, o.verifyCms(FindCms(issue.body).value).cert, s, now, before);
    }
  }

  lemma VerifiedOutcome(lc: Codec, o: Oracles, issue: Issue, cert: SignerCert, s: IssueState, now: int, before: Files)
    requires FindCms(issue.body).Some? && o.verifyCms(FindCms(issue.body).value) == Verified(cert)
    ensures var c := CourseOf(lc, o, issue, before);
            Outcome(lc, o, issue, s, PerformAll(s, c.plan, now), now, before, FilesAfterCourse(lc, before, c), c.ok)
  {
    StandsForCanonical(cert.commonName);
    PlanOfTwo(s, o.refusal(BadName(cert.commonName)), {"invalid"}, {}, now);
    var appID := AppId.Canonicalize(cert.commonName);
    if appID.Some? && Load(lc, TextOf(before, appID.value)).Some? {
      var held := Load(lc, TextOf(before, appID.value)).value;
      LedgerCourseOutcome(lc, o, appID.value, o.fingerprint(cert.der), held, s, now, before);
    }
  }

  /** The body presents, in a CMS block that verifies, the certificate whose common name stands for this
      appId and whose fingerprint the update looks for. */
  ghost predicate PresentsCert(o: Oracles, body: string, appID: string, u: Update) {
    && FindCms(body).Some? && o.verifyCms(FindCms(body).value).Verified?
    && var cert := o.verifyCms(FindCms(body).value).cert;
       StandsFor(cert.commonName, appID) && u.Flip? && u.target == ByFingerprint(o.fingerprint(cert.der))
  }

  /** The flip of a certificate that was active in the ledger held, on its owner's request and from the
      start of its validity. */
  ghost predicate SelfServiceFlip(held: Option<Ledger>, u: Update) {
    && u.Flip? && u.target.ByFingerprint? && u.revocation.reason == "self-service" && u.revocation.actor == ""
    && exists i :: FirstOfFingerprint(held, u.target.fingerprint, i)
         && held.value.Certs()[i].status != "revoked" && u.revocation.revokedFrom == held.value.Certs()[i].notBefore
  }

  lemma ChosenIsSelfService(appID: string, fp: string, held: Option<Ledger>)
    ensures ChosenFlip(appID, fp, held).Some? ==>
              && ChosenFlip(appID, fp, held).value.0 == appID
              && ChosenFlip(appID, fp, held).value.1.Flip?
              && ChosenFlip(appID, fp, held).value.1.target == ByFingerprint(fp)
              && SelfServiceFlip(held, ChosenFlip(appID, fp, held).value.1)
  {
    FoundAt(held, fp, if held.None? then -1 else FindIn(held.value.Certs(), ByFingerprint(fp)));
  }

  /** revoke.Process. With nobody else about it comes to the Outcome of the request, though a conflict
      is pending. Whatever happens, it makes at most one atomic update, a self-service flip of the
      certificate presented, which was active on the ledger loaded; it errs only for a cause, and
      touches no other issue. */
  method Process(lc: Codec, o: Oracles, gh: Client, issue: Issue)
    returns (ok: bool, ghost c: Course, ghost committed: bool, ghost k: nat, ghost held: Option<Ledger>)
    requires gh.Valid()
    modifies gh
    ensures gh.Valid() && gh.clock == old(gh.clock)
    ensures Ran(lc, old(gh.Snap()), gh.Snap(), old(gh.IssueOf(issue.number)), gh.IssueOf(issue.number), gh.clock, c,
                committed, k, ok)
    ensures forall m :: m != issue.number ==> gh.IssueOf(m) == old(gh.IssueOf(m))
    ensures c.commit.Some? ==>
              && "revoked" !in issue.labels
              && var (appID, u) := c.commit.value;
                 && PresentsCert(o, issue.body, appID, u) && SelfServiceFlip(held, u)
                 && ReadBeforeCommit(lc, old(gh.Snap()), gh.Snap(), appID, held, c, committed)
    ensures ErrsForCause(lc, old(gh.Look()), gh.Look(), c, committed, ok)
    ensures old(gh.Quiet()) ==>
              && gh.Quiet() && ok == c.ok && (c.commit.Some? ==> committed)
              && c == CourseOf(lc, o, issue, old(Texts(gh.ledgers)))
    ensures old(gh.Quiet()) ==>
              Outcome(lc, o, issue, old(gh.IssueOf(issue.number)), gh.IssueOf(issue.number), gh.clock,
                      old(Texts(gh.ledgers)), Texts(gh.ledgers), ok)
  {
    OthersOnlySelf(gh.Snap());
    committed, k, held := false, 0, None;
    if LABEL_REVOKED in issue.labels {
      RanNothing(lc, gh.Snap(), gh.Snap(), gh.IssueOf(issue.number), gh.clock, NOTHING, true);
      ok, c := true, NOTHING;
    } else {
      var request := ReadRequest(o, issue.body);
      match request {
        case Unknown =>
          RanNothing(lc, gh.Snap(), gh.Snap(), gh.IssueOf(issue.number), gh.clock, ERROR, false);
          ok, c := false, ERROR;
        case NotPresented(r) =>
          RefusalsAreModest(r);
          ok, c, k := Talk(lc, gh, issue.number, o.refusal(r), LabelFor(r), old(gh.Snap()));
        case Presented(appID, fp) =>
          ok, c, committed, k, held := LoadAndRevoke(lc, o, gh, issue.number, appID, fp, old(gh.Snap()));
          RequestReads(o, issue.body);
          ChosenIsSelfService(appID, fp, held);
      }
    }
    if old(gh.Quiet()) {
      CourseOutcome(lc, o, issue, old(gh.IssueOf(issue.number)), gh.clock, old(Texts(gh.ledgers)));
      RanAlone(lc, old(gh.Snap()), gh.Snap(), old(gh.IssueOf(issue.number)), gh.IssueOf(issue.number), gh.clock, c,
               committed, k, ok);
    }
  }

  /** Loads the ledger and goes on. */
  method LoadAndRevoke(lc: Codec, o: Oracles, gh: Client, number: int, appID: string, fp: string, ghost start: Snapshot)
    returns (ok: bool, ghost c: Course, ghost committed: bool, ghost k: nat, ghost held: Option<Ledger>)
    requires gh.Valid() && OthersOnly(start, gh.Snap())
    modifies gh
    ensures gh.Valid() && gh.clock == old(gh.clock)
    ensures Ran(lc, start, gh.Snap(), old(gh.IssueOf(number)), gh.IssueOf(number), gh.clock, c, committed, k, ok)
    ensures forall m :: m != number ==> gh.IssueOf(m) == old(gh.IssueOf(m))
    ensures c.commit.Some? ==>
              && c.commit == ChosenFlip(appID, fp, held) && c.commit.value.1.Flip? &&
                   c.commit.value.1.target == ByFingerprint(fp)
              && ReadBeforeCommit(lc, start, gh.Snap(), appID, held, c, committed)
    ensures ErrsForCause(lc, old(gh.Look()), gh.Look(), c, committed, ok)
    ensures old(gh.Quiet()) ==>
              && CarriedOut(old(gh.Look()), gh.Look(), c, committed, ok)
              && c == match Load(lc, TextOf(old(Texts(gh.ledgers)), appID)) {
                        case None => ERROR
                        case Some(existing) => CourseOfLedger(o, appID, fp, existing)
                      }
  {
    var loaded, l, prevSHA := LoadLedger(lc, gh, appID);
    OthersOnlyTransitive(start, old(gh.Snap()), gh.Snap());
    if !loaded {
      RanNothing(lc, start, gh.Snap(), gh.IssueOf(number), gh.clock, ERROR, false);
      return false, ERROR, false, 0, None;
    }
    ghost var m, s := gh.Look(), gh.IssueOf(number);
    held := Held(l);
    OthersOnlySelf(m.snap);
    ok, c, committed, k := RevokeIn(lc, o, gh, number, appID, fp, l, prevSHA, m.snap);
    RanFromLoad(lc, start, old(gh.Look()), m, gh.Look(), s, gh.IssueOf(number), gh.clock, c, appID, held, committed,
                k, ok);
  }

  // ---- privileged ----

  datatype PrivilegedRequest = PrivilegedRequest(appID: string, serial: string, reason: string,
                                                 revokedFrom: Option<int>, actor: string)

  datatype PrivilegedResult =
    | Revoked
    | BadInput
    | LoadFailed
    | NoLedger
    | NoSuchSerial
    | TooEarly
    | NotWritten(why: CommitResult)

  const NOTHING_ASKED := Update.Flip(BySerial(""), Revocation("", 0, ""))

  /** `i` is the place of the first certificate with this serial. */
  predicate FirstOfSerial(held: Option<Ledger>, serial: string, i: int) {
    && held.Some? && 0 <= i < |held.value.Certs()| && held.value.Certs()[i].serial == serial
    && forall k :: 0 <= k < i ==> held.value.Certs()[k].serial != serial
  }

  /** The flip that was asked for: of the certificate with the serial given, for the reason and by the
      actor given, from the date given or else from its own notBefore, and never from before that. */
  ghost predicate AsAsked(req: PrivilegedRequest, held: Option<Ledger>, u: Update) {
    && u.Flip? && u.target == BySerial(Strings.TrimSpace(req.serial))
    && u.revocation.reason == req.reason && u.revocation.actor == req.actor
    && exists i :: FirstOfSerial(held, Strings.TrimSpace(req.serial), i)
         && held.value.Certs()[i].notBefore <= u.revocation.revokedFrom
         && u.revocation.revokedFrom ==
              match req.revokedFrom {
                case Some(date) => date
                case None => held.value.Certs()[i].notBefore
              }
  }

  predicate Early(req: PrivilegedRequest, c: Certificate) {
    req.revokedFrom.Some? && req.revokedFrom.value < c.notBefore
  }

  /** The errors that the ledger decides, each exactly when it is due. */
  ghost predicate Answers(req: PrivilegedRequest, held: Option<Ledger>, r: PrivilegedResult) {
    var serial := Strings.TrimSpace(req.serial);
    && (r == NoLedger <==> held.None?)
    && (r == NoSuchSerial <==> held.Some? && forall c :: c in held.value.Certs() ==> c.serial != serial)
    && (r == TooEarly <==> exists i :: FirstOfSerial(held, serial, i) && Early(req, held.value.Certs()[i]))
  }

  lemma OneFirst(held: Option<Ledger>, serial: string, i: int, j: int)
    requires FirstOfSerial(held, serial, i) && FirstOfSerial(held, serial, j)
    ensures i == j
  {}

  /** The answer on a ledger follows from where the serial is found, and how the dates compare. */
  lemma AnswerBy(req: PrivilegedRequest, held: Option<Ledger>, i: int, r: PrivilegedResult)
    requires i == if held.None? then -1 else FindIn(held.value.Certs(), BySerial(Strings.TrimSpace(req.serial)))
    requires
      var early := i >= 0 && Early(req, held.value.Certs()[i]);
      if held.None? then r == NoLedger else if i < 0 then r == NoSuchSerial else if early then r == TooEarly
      else r == Revoked || r.NotWritten?
    ensures Answers(req, held, r)
    ensures i >= 0 ==> FirstOfSerial(held, Strings.TrimSpace(req.serial), i)
  {
    var serial := Strings.TrimSpace(req.serial);
    if held.Some? && i >= 0 {
      assert held.value.Certs()[i] in held.value.Certs();
      assert FirstOfSerial(held, serial, i);
      forall j | FirstOfSerial(held, serial, j)
        ensures j == i
      {
        OneFirst(held, serial, i, j);
      }
    }
  }

  function JobOf(req: PrivilegedRequest): Protocol.Job {
    Protocol.Privileged(req.appID, Strings.TrimSpace(req.serial), req.reason, req.actor, req.revokedFrom)
  }

  /** The ledger was not loaded because a call failed or the file cannot be read; it was not written
      because a call failed, or after five conflicts, or because what was loaded again cannot be read or
      has lost the certificate. */
  ghost predicate StopsForCause(lc: Codec, a: View, b: View, appID: string, u: Update, r: PrivilegedResult) {
    && (r == LoadFailed ==> b.faults > a.faults || OnDisk(lc, b, appID).None?)
    && (r.NotWritten? ==>
          && r.why != Committed
          && (b.faults > a.faults || b.puts == a.puts + 5 || OnDisk(lc, b, appID).None?
              || !Applies(u, OnDisk(lc, b, appID).value)))
  }

  /** What is asked for is what a privileged bot of the protocol chooses on the same ledger. */
  lemma AskedIsBotChoice(req: PrivilegedRequest, held: Option<Ledger>, u: Update)
    ensures AsAsked(req, held, u) <==> Protocol.Begin(JobOf(req), held) == Protocol.Go(u)
  {
    var serial := Strings.TrimSpace(req.serial);
    if held.Some? {
      var i := FindIn(held.value.Certs(), BySerial(serial));
      if i >= 0 {
        assert FirstOfSerial(held, serial, i);
        forall j | FirstOfSerial(held, serial, j)
          ensures j == i
        {
          OneFirst(held, serial, i, j);
        }
      }
    }
  }

  /** PrivilegedProcess: every failure is an error, and none but a finished write leaves a trace. The
      update is the one that was asked for, which is the one a privileged bot of the protocol chooses
      on the ledger it loads. With nobody else about it is written, though a conflict is pending. */
  method PrivilegedProcess(lc: Codec, gh: Client, req: PrivilegedRequest)
    returns (r: PrivilegedResult, ghost held: Option<Ledger>, ghost u: Update)
    requires gh.Valid()
    modifies gh
    ensures gh.Valid()
    ensures r == BadInput <==>
              || !AppId.Valid(req.appID) || Strings.TrimSpace(req.serial) == "" || req.reason == "" || req.actor == ""
    ensures r == BadInput ==> gh.Snap() == old(gh.Snap())
    ensures r != BadInput && r != LoadFailed ==> Answers(req, held, r)
    ensures r == Revoked ==>
              && AsAsked(req, held, u) && Protocol.Begin(JobOf(req), held) == Protocol.Go(u)
              && CommittedSince(lc, old(gh.Snap()), gh.Snap(), req.appID, u)
    ensures r != Revoked ==> OthersOnly(old(gh.Snap()), gh.Snap())
    ensures StopsForCause(lc, old(gh.Look()), gh.Look(), req.appID, u, r)
    ensures old(gh.Quiet()) && r != BadInput ==>
              match OnDisk(lc, old(gh.Look()), req.appID) {
                case None => r == LoadFailed
                case Some(existing) => held == existing && r != LoadFailed && !r.NotWritten?
              }
    ensures old(gh.Quiet()) ==>
              Texts(gh.ledgers) == if r == Revoked then Applied(lc, old(Texts(gh.ledgers)), Commit(0, req.appID, u))
                                   else old(Texts(gh.ledgers))
    ensures forall m :: gh.IssueOf(m) == old(gh.IssueOf(m))
  {
    OthersOnlySelf(gh.Snap());
    held, u := None, NOTHING_ASKED;
    if AppId.ValidateStrict(req.appID).None? {
      return BadInput, None, u;
    }
    var serial := Strings.TrimSpace(req.serial);
    if serial == "" || req.reason == "" || req.actor == "" {
      return BadInput, None, u;
    }
    r, held, u := LoadAndRevokeSerial(lc, gh, req, serial);
    if old(gh.Quiet()) {
      if r == Revoked {
        AloneCommits(lc, old(gh.Snap()), gh.Snap(), req.appID, u);
      } else {
        AloneKeeps(old(gh.Snap()), gh.Snap());
      }
    }
  }

  /** Step 2, and on from there. */
  method LoadAndRevokeSerial(lc: Codec, gh: Client, req: PrivilegedRequest, serial: string)
    returns (r: PrivilegedResult, ghost held: Option<Ledger>, ghost u: Update)
    requires gh.Valid() && serial == Strings.TrimSpace(req.serial)
    modifies gh
    ensures gh.Valid() && r != BadInput
    ensures r != LoadFailed ==> Answers(req, held, r)
    ensures r == Revoked ==>
              && AsAsked(req, held, u) && Protocol.Begin(JobOf(req), held) == Protocol.Go(u)
              && CommittedSince(lc, old(gh.Snap()), gh.Snap(), req.appID, u)
    ensures r != Revoked ==> OthersOnly(old(gh.Snap()), gh.Snap())
    ensures StopsForCause(lc, old(gh.Look()), gh.Look(), req.appID, u, r)
    ensures old(gh.Quiet()) ==>
              && |gh.writes| == |old(gh.writes)| + (if r == Revoked then 1 else 0)
              && match OnDisk(lc, old(gh.Look()), req.appID) {
                   case None => r == LoadFailed
                   case Some(existing) => held == existing && r != LoadFailed && !r.NotWritten?
                 }
    ensures forall m :: gh.IssueOf(m) == old(gh.IssueOf(m))
  {
    var loaded, l, prevSHA := LoadLedger(lc, gh, req.appID);
    u := NOTHING_ASKED;
    if !loaded {
      return LoadFailed, None, u;
    }
    held := Held(l);
    r, u := RevokeSerial(lc, gh, req, serial, l, prevSHA, old(gh.Snap()));
    AskedIsBotChoice(req, held, u);
  }

  /** Steps 3 to 5 on the ledger as loaded. */
  method RevokeSerial(lc: Codec, gh: Client, req: PrivilegedRequest, serial: string, l: LedgerObject?,
                      prevSHA: string, ghost start: Snapshot)
    returns (r: PrivilegedResult, ghost u: Update)
    requires gh.Valid() && OthersOnly(start, gh.Snap()) && serial == Strings.TrimSpace(req.serial)
    requires Holds(lc, gh.ledgers, gh.nextSHA, req.appID, Held(l), prevSHA)
    modifies gh, l
    ensures gh.Valid()
    ensures Decided(lc, req, start, old(gh.Look()), gh.Look(), old(Held(l)), prevSHA, u, r)
    ensures forall m :: gh.IssueOf(m) == old(gh.IssueOf(m))
  {
    ghost var held, look := Held(l), gh.Look();
    u := NOTHING_ASKED;
    if l == null {
      NotTried(lc, req, start, look, held, prevSHA, -1, u, NoLedger);
      return NoLedger, u;
    }
    var idx := Find(l, BySerial(serial));
    if idx < 0 {
      NotTried(lc, req, start, look, held, prevSHA, idx, u, NoSuchSerial);
      return NoSuchSerial, u;
    }
    var notBefore := l.Certs()[idx].notBefore;
    var revokedFrom := notBefore;
    if req.revokedFrom.Some? {
      if req.revokedFrom.value < notBefore {
        NotTried(lc, req, start, look, held, prevSHA, idx, u, TooEarly);
        return TooEarly, u;
      }
      revokedFrom := req.revokedFrom.value;
    }
    var rev := Revocation(req.reason, revokedFrom, req.actor);
    u := Update.Flip(BySerial(serial), rev);
    var result, _ := ApplyRevocation(lc, gh, req.appID, BySerial(serial), rev, l, prevSHA);
    r := if result == Committed then Revoked else NotWritten(result);
    Attempted(lc, req, start, look, gh.Look(), held, prevSHA, idx, u, result);
  }

  /** What became of a privileged request once the ledger was loaded. */
  ghost predicate Decided(lc: Codec, req: PrivilegedRequest, start: Snapshot, a: View, b: View, held: Option<Ledger>,
                          sha: string, u: Update, r: PrivilegedResult) {
    && r != BadInput && r != LoadFailed && Answers(req, held, r)
    && (r == Revoked ==> AsAsked(req, held, u) && CommittedSince(lc, start, b.snap, req.appID, u))
    && (r != Revoked ==> OthersOnly(start, b.snap))
    && (r != Revoked && !r.NotWritten? ==> b == a)
    && (r.NotWritten? ==> LoopSpec(lc, a, b, req.appID, u, held, sha, r.why) && r.why != Committed && Applies(u, held))
    && (a.quiet && OnDisk(lc, a, req.appID) == Some(held) ==>
          !r.NotWritten? && |b.snap.writes| == |a.snap.writes| + if r == Revoked then 1 else 0)
  }

  lemma NotTried(lc: Codec, req: PrivilegedRequest, start: Snapshot, a: View, held: Option<Ledger>, sha: string, i: int,
                 u: Update, r: PrivilegedResult)
    requires OthersOnly(start, a.snap)
    requires i == if held.None? then -1 else FindIn(held.value.Certs(), BySerial(Strings.TrimSpace(req.serial)))
    requires if held.None? then r == NoLedger else if i < 0 then r == NoSuchSerial
             else Early(req, held.value.Certs()[i]) && r == TooEarly
    ensures Decided(lc, req, start, a, a, held, sha, u, r)
  {
    AnswerBy(req, held, i, r);
  }

  lemma Attempted(lc: Codec, req: PrivilegedRequest, start: Snapshot, a: View, b: View, held: Option<Ledger>,
                  sha: string, i: int, u: Update, result: CommitResult)
    requires OthersOnly(start, a.snap) && LoopSpec(lc, a, b, req.appID, u, held, sha, result)
    requires held.Some? && i == FindIn(held.value.Certs(), BySerial(Strings.TrimSpace(req.serial))) && i >= 0
    requires !Early(req, held.value.Certs()[i])
    requires u == Update.Flip(BySerial(Strings.TrimSpace(req.serial)),
                              Revocation(req.reason,
                                         if req.revokedFrom.Some? then req.revokedFrom.value
                                         else held.value.Certs()[i].notBefore,
                                         req.actor))
    ensures Decided(lc, req, start, a, b, held, sha, u, if result == Committed then Revoked else NotWritten(result))
  {
    AnswerBy(req, held, i, if result == Committed then Revoked else NotWritten(result));
    CommitsFrom(lc, start, a.snap, b.snap, req.appID, u, result);
    assert FirstOfSerial(held, Strings.TrimSpace(req.serial), i);
  }

  lemma CommitsFrom(lc: Codec, start: Snapshot, a: Snapshot, b: Snapshot, appID: string, u: Update, r: CommitResult)
    requires OthersOnly(start, a) && CommitSpec(lc, a, b, appID, u, r)
    ensures if r == Committed then CommittedSince(lc, start, b, appID, u) else OthersOnly(start, b)
  {
    if r == Committed {
      OthersThenCommit(lc, start, a, b, appID, u);
      OthersOnlySelf(b);
    } else {
      OthersOnlyTransitive(start, a, b);
    }
  }
}
