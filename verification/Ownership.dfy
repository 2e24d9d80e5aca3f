/** Who owns an appId: what every interleaving keeps, and what holds only when bots run one at a
    time, as the package comment of internal/enroll assumes. */
module Ownership {
  import opened Wrappers
  import opened Ledger
  import opened Updates
  import opened Blobs
  import opened Protocol
  import opened History
  import Timestamp

  // ---- in every interleaving ----

  predicate SameClaim(earlier: Ledger, later: Ledger) {
    later.owner == earlier.owner && later.claimedAt == earlier.claimedAt && later.reserved == earlier.reserved
  }

  predicate CreatedBy(u: Update, l: Ledger) {
    && u.Append?
    && l.owner == Owner(ORIGIN_GITHUB, u.repo)
    && l.claimedAt == Timestamp.Truncated(u.now)
    && !l.reserved
  }

  /** A commit that finds no ledger creates it for its own repo; one that finds a ledger leaves
      ownership, claim and reservation alone. */
  lemma OwnerAfterCommit(lc: Codec, files: Files, log: seq<Commit>, k: nat)
    requires lc.Faithful() && HealthyFiles(lc, files) && SoundLog(lc, files, log) && k < |log|
    ensures var before := LedgerAt(lc, files, log, k, log[k].appID);
            var after := LedgerAt(lc, files, log, k + 1, log[k].appID);
            && after.Some?
            && if before.None?
               then CreatedBy(log[k].update, after.value)
               else SameClaim(before.value, after.value)
  {
    CommitAt(lc, files, log, k);
    ReplayKeepsHistory(lc, files, log[..k]);
    CommitKeepsHistory(lc, Replay(lc, files, log[..k]), log[k]);
    CommitChangesOneEntry(lc, Replay(lc, files, log[..k]), log[k]);
  }

  lemma OtherLedgers(lc: Codec, files: Files, log: seq<Commit>, k: nat, appID: string)
    requires lc.Faithful() && HealthyFiles(lc, files) && SoundLog(lc, files, log) && k < |log|
    requires log[k].appID != appID
    ensures LedgerAt(lc, files, log, k + 1, appID) == LedgerAt(lc, files, log, k, appID)
  {
    CommitAt(lc, files, log, k);
    ReplayKeepsHistory(lc, files, log[..k]);
    CommitKeepsHistory(lc, Replay(lc, files, log[..k]), log[k]);
    AppliedKeys(lc, Replay(lc, files, log[..k]), log[k]);
  }

  /** The create that made a ledger. */
  predicate Creates(lc: Codec, files: Files, log: seq<Commit>, j: nat, appID: string)
    requires j < |log|
  {
    log[j].appID == appID && LedgerAt(lc, files, log, j, appID).None?
  }

  lemma AppearsByCreate(lc: Codec, files: Files, log: seq<Commit>, j: nat, appID: string)
    requires lc.Faithful() && HealthyFiles(lc, files) && SoundLog(lc, files, log) && j < |log|
    requires LedgerAt(lc, files, log, j, appID).None? && LedgerAt(lc, files, log, j + 1, appID).Some?
    ensures Creates(lc, files, log, j, appID)
  {
    if log[j].appID != appID {
      OtherLedgers(lc, files, log, j, appID);
    }
  }

  /** Something that becomes true does so at some step. */
  lemma {:induction false} BecomesTrue(f: nat -> bool, i: nat, k: nat) returns (j: nat)
    requires i <= k && !f(i) && f(k)
    ensures i <= j < k && !f(j) && f(j + 1)
  {
    j := k - 1;
    if f(j) {
      j := BecomesTrue(f, i, j);
    }
  }

  lemma AppearsBetween(lc: Codec, files: Files, log: seq<Commit>, i: nat, k: nat, appID: string) returns (j: nat)
    requires i <= k <= |log|
    requires LedgerAt(lc, files, log, i, appID).None? && LedgerAt(lc, files, log, k, appID).Some?
    ensures i <= j < k && LedgerAt(lc, files, log, j, appID).None? && LedgerAt(lc, files, log, j + 1, appID).Some?
  {
    j := BecomesTrue((n: nat) => n <= |log| && LedgerAt(lc, files, log, n, appID).Some?, i, k);
  }

  /** A ledger that appears between two positions was created there. */
  lemma CreatedBetween(lc: Codec, files: Files, log: seq<Commit>, i: nat, k: nat, appID: string)
    returns (j: nat)
    requires lc.Faithful() && HealthyFiles(lc, files) && SoundLog(lc, files, log)
    requires i <= k <= |log|
    requires LedgerAt(lc, files, log, i, appID).None? && LedgerAt(lc, files, log, k, appID).Some?
    ensures i <= j < k && Creates(lc, files, log, j, appID)
  {
    j := AppearsBetween(lc, files, log, i, k, appID);
    AppearsByCreate(lc, files, log, j, appID);
  }

  lemma LogHistory(lc: Codec, files: Files, log: seq<Commit>, i: nat, j: nat)
    requires lc.Faithful() && HealthyFiles(lc, files) && SoundLog(lc, files, log) && i <= j <= |log|
    ensures forall a :: LedgerAt(lc, files, log, i, a).Some? ==>
              LedgerAt(lc, files, log, j, a).Some? &&
              Extends(LedgerAt(lc, files, log, i, a).value, LedgerAt(lc, files, log, j, a).value)
  {
    PrefixSound(lc, files, log, j);
    HistoryBetween(lc, files, log, i, j);
  }

  lemma OneCreateInLog(lc: Codec, files: Files, log: seq<Commit>, i: nat, j: nat, appID: string)
    requires lc.Faithful() && HealthyFiles(lc, files) && SoundLog(lc, files, log)
    requires i < j < |log| && Creates(lc, files, log, i, appID)
    ensures !Creates(lc, files, log, j, appID)
  {
    OwnerAfterCommit(lc, files, log, i);
    LogHistory(lc, files, log, i + 1, j);
  }

  /** The owner of a ledger at the end of a log: as at the start, or the repo of the one commit
      that created it, for good. */
  lemma OwnerInLog(lc: Codec, files: Files, log: seq<Commit>, appID: string)
    requires lc.Faithful() && HealthyFiles(lc, files) && SoundLog(lc, files, log)
    ensures var start, end := LedgerOf(lc, files, appID), LedgerOf(lc, Replay(lc, files, log), appID);
            && (start.Some? ==> end.Some? && SameClaim(start.value, end.value))
            && (start.None? && end.Some? ==>
                  exists j | 0 <= j < |log| :: Creates(lc, files, log, j, appID) && CreatedBy(log[j].update, end.value))
  {
    assert log[..0] == [] && log[..|log|] == log;
    LogHistory(lc, files, log, 0, |log|);
    var start, end := LedgerOf(lc, files, appID), LedgerOf(lc, Replay(lc, files, log), appID);
    assert start == LedgerAt(lc, files, log, 0, appID) && end == LedgerAt(lc, files, log, |log|, appID);
    if start.None? && end.Some? {
      var j := CreatedBetween(lc, files, log, 0, |log|, appID);
      OwnerAfterCommit(lc, files, log, j);
      LogHistory(lc, files, log, j + 1, |log|);
    }
  }

  /** In every interleaving at most one commit creates the ledger of an appId, and the ledger
      carries the owner, claim time and reservation of that commit, or of the start, ever after. */
  lemma OwnershipIsPermanent(lc: Codec, s: State, acts: seq<Action>, appID: string)
    requires GoodStart(lc, s)
    ensures var log := Run(lc, s, acts).log;
            var start, end := LedgerOf(lc, s.Files(), appID), LedgerOf(lc, Run(lc, s, acts).Files(), appID);
            && (forall i, j :: 0 <= i < j < |log| && Creates(lc, s.Files(), log, i, appID)
                  ==> !Creates(lc, s.Files(), log, j, appID))
            && (start.Some? ==> end.Some? && SameClaim(start.value, end.value))
            && (start.None? && end.Some? ==>
                  exists j | 0 <= j < |log| :: Creates(lc, s.Files(), log, j, appID) &&
                      CreatedBy(log[j].update, end.value))
  {
    RunIsSound(lc, s, acts);
    var log := Run(lc, s, acts).log;
    RefinesSerialLog(lc, s, acts);
    OwnerInLog(lc, s.Files(), log, appID);
    forall i, j | 0 <= i < j < |log| && Creates(lc, s.Files(), log, i, appID)
      ensures !Creates(lc, s.Files(), log, j, appID)
    {
      OneCreateInLog(lc, s.Files(), log, i, j, appID);
    }
  }

  // ---- reservation ----

  lemma ReservedCommit(lc: Codec, files: Files, t: State, k: nat)
    requires lc.Faithful() && HealthyFiles(lc, files) && GoodJobs(t)
    requires Inv(lc, files, t) && SoundLog(lc, files, t.log) && k < |t.log|
    requires LedgerOf(lc, files, t.log[k].appID).Some? && LedgerOf(lc, files, t.log[k].appID).value.reserved
    ensures t.log[k].update.Flip?
  {
    var first := JobOfCommit(lc, files, t, k);
    assert t.log[..0] == [];
    LogHistory(lc, files, t.log, 0, t.bots[t.log[k].bot].first);
    assert LedgerAt(lc, files, t.log, 0, t.log[k].appID) == LedgerOf(lc, files, t.log[k].appID);
  }

  lemma {:induction false} OnlyFlipsKeepCount(lc: Codec, files: Files, log: seq<Commit>, n: nat, appID: string)
    requires lc.Faithful() && HealthyFiles(lc, files) && SoundLog(lc, files, log) && n <= |log|
    requires LedgerOf(lc, files, appID).Some?
    requires forall k :: 0 <= k < n && log[k].appID == appID ==> log[k].update.Flip?
    ensures LedgerAt(lc, files, log, n, appID).Some?
    ensures |LedgerAt(lc, files, log, n, appID).value.Certs()| == |LedgerOf(lc, files, appID).value.Certs()|
  {
    if n == 0 {
      assert log[..0] == [];
    } else {
      OnlyFlipsKeepCount(lc, files, log, n - 1, appID);
      if log[n - 1].appID == appID {
        CommitAt(lc, files, log, n - 1);
        ReplayKeepsHistory(lc, files, log[..n - 1]);
        CommitChangesOneEntry(lc, Replay(lc, files, log[..n - 1]), log[n - 1]);
      } else {
        OtherLedgers(lc, files, log, n - 1, appID);
      }
    }
  }

  /** A ledger that starts reserved never gains a certificate, whatever the bots do. */
  lemma ReservedGainsNothing(lc: Codec, s: State, acts: seq<Action>, appID: string)
    requires GoodStart(lc, s)
    requires LedgerOf(lc, s.Files(), appID).Some? && LedgerOf(lc, s.Files(), appID).value.reserved
    ensures var log := Run(lc, s, acts).log;
            forall k :: 0 <= k < |log| && log[k].appID == appID ==> log[k].update.Flip?
    ensures var end := LedgerOf(lc, Run(lc, s, acts).Files(), appID);
            && end.Some? && end.value.reserved
            && |end.value.Certs()| == |LedgerOf(lc, s.Files(), appID).value.Certs()|
  {
    RunIsSound(lc, s, acts);
    var t := Run(lc, s, acts);
    forall k | 0 <= k < |t.log| && t.log[k].appID == appID
      ensures t.log[k].update.Flip?
    {
      ReservedCommit(lc, s.Files(), t, k);
    }
    OnlyFlipsKeepCount(lc, s.Files(), t.log, |t.log|, appID);
    LedgerNow(lc, s.Files(), t, appID);
    OwnershipIsPermanent(lc, s, acts, appID);
  }

  // ---- whose certificate a commit adds ----

  /** An earlier commit, since the issuer's first load, claimed the appId for another repo. */
  ghost predicate ClaimedMeanwhile(lc: Codec, files: Files, t: State, k: nat)
    requires k < |t.log| && t.log[k].bot in t.bots && t.log[k].update.Append?
  {
    exists j: nat :: t.bots[t.log[k].bot].first <= j < k
      && Creates(lc, files, t.log, j, t.log[k].appID)
      && t.log[j].update.Append? && t.log[j].update.repo != t.log[k].update.repo
  }

  /** The issuer does not ask again who owns the appId after a conflict. So a certificate it adds
      belongs to the owning repo exactly when no other repo's claim landed between the issuer's
      first load and its write. */
  lemma OwnedIffNotClaimedMeanwhile(lc: Codec, files: Files, t: State, k: nat)
    requires lc.Faithful() && HealthyFiles(lc, files) && GoodJobs(t)
    requires Inv(lc, files, t) && SoundLog(lc, files, t.log)
    requires k < |t.log| && t.log[k].bot in t.bots && t.log[k].update.Append?
    ensures LedgerAt(lc, files, t.log, k + 1, t.log[k].appID).Some?
    ensures LedgerAt(lc, files, t.log, k + 1, t.log[k].appID).value.owner.repo == t.log[k].update.repo
            <==> !ClaimedMeanwhile(lc, files, t, k)
  {
    var c := t.log[k];
    var first := JobOfCommit(lc, files, t, k);
    var i := t.bots[c.bot].first;
    OwnerAfterCommit(lc, files, t.log, k);
    LogHistory(lc, files, t.log, i, k);
    if ClaimedMeanwhile(lc, files, t, k) {
      var j: nat :| i <= j < k && Creates(lc, files, t.log, j, c.appID)
                    && t.log[j].update.Append? && t.log[j].update.repo != c.update.repo;
      ClaimDecidesOwner(lc, files, t.log, j, k);
    } else if first.None? && LedgerAt(lc, files, t.log, k, c.appID).Some? {
      var j := CreatedBetween(lc, files, t.log, i, k, c.appID);
      OwnerAfterCommit(lc, files, t.log, j);
      ClaimDecidesOwner(lc, files, t.log, j, k);
    }
  }

  lemma ClaimDecidesOwner(lc: Codec, files: Files, log: seq<Commit>, j: nat, k: nat)
    requires lc.Faithful() && HealthyFiles(lc, files) && SoundLog(lc, files, log)
    requires j < k < |log| && Creates(lc, files, log, j, log[k].appID)
    ensures log[j].update.Append?
    ensures LedgerAt(lc, files, log, k, log[k].appID).Some?
    ensures LedgerAt(lc, files, log, k, log[k].appID).value.owner == Owner(ORIGIN_GITHUB, log[j].update.repo)
  {
    OwnerAfterCommit(lc, files, log, j);
    LogHistory(lc, files, log, j + 1, k);
  }
}
