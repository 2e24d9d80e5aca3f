/** When a self-service revocation overwrites an earlier one: the retry does not look at the status
    again. */
module Overwriting {
  import opened Wrappers
  import opened Ledger
  import opened Updates
  import opened Protocol
  import opened History
  import Ownership

  /** An earlier commit, since the bot's first load, revoked the very certificate that commit `k`
      flips. */
  ghost predicate RevokedMeanwhile(lc: Codec, files: Files, t: State, k: nat)
    requires k < |t.log| && t.log[k].bot in t.bots && t.log[k].update.Flip?
  {
    exists j: nat :: t.bots[t.log[k].bot].first <= j < k && FlipsTheSame(lc, files, t.log, j, k)
  }

  /** Two flips of one ledger that find their targets at the same place. */
  predicate FlipsTheSame(lc: Codec, files: Files, log: seq<Commit>, j: nat, k: nat)
    requires j < |log| && k < |log|
  {
    && log[j].appID == log[k].appID && log[j].update.Flip? && log[k].update.Flip?
    && LedgerAt(lc, files, log, j, log[j].appID).Some? && LedgerAt(lc, files, log, k, log[k].appID).Some?
    && FindIn(LedgerAt(lc, files, log, j, log[j].appID).value.Certs(), log[j].update.target)
       == FindIn(LedgerAt(lc, files, log, k, log[k].appID).value.Certs(), log[k].update.target)
  }

  /** The certificate at place `i` of a ledger is revoked after `n` commits. */
  predicate RevokedBy(lc: Codec, files: Files, log: seq<Commit>, appID: string, i: nat, n: nat) {
    && n <= |log| && LedgerAt(lc, files, log, n, appID).Some?
    && i < |LedgerAt(lc, files, log, n, appID).value.Certs()|
    && LedgerAt(lc, files, log, n, appID).value.Certs()[i].Revoked()
  }

  /** A flip revokes its target for good. */
  lemma FlipStaysRevoked(lc: Codec, files: Files, log: seq<Commit>, j: nat, k: nat)
    requires lc.Faithful() && HealthyFiles(lc, files) && SoundLog(lc, files, log) && j < k <= |log|
    requires log[j].update.Flip?
    ensures LedgerAt(lc, files, log, j, log[j].appID).Some?
    ensures var i := FindIn(LedgerAt(lc, files, log, j, log[j].appID).value.Certs(), log[j].update.target);
            i >= 0 && RevokedBy(lc, files, log, log[j].appID, i, k)
  {
    CommitAt(lc, files, log, j);
    ReplayKeepsHistory(lc, files, log[..j]);
    CommitKeepsHistory(lc, Replay(lc, files, log[..j]), log[j]);
    Ownership.LogHistory(lc, files, log, j + 1, k);
  }

  /** A certificate becomes revoked only by a flip that finds it. */
  lemma RevokedByFlip(lc: Codec, files: Files, log: seq<Commit>, appID: string, i: nat, j: nat)
    requires lc.Faithful() && HealthyFiles(lc, files) && SoundLog(lc, files, log) && j < |log|
    requires LedgerAt(lc, files, log, j, appID).Some? && i < |LedgerAt(lc, files, log, j, appID).value.Certs()|
    requires !RevokedBy(lc, files, log, appID, i, j) && RevokedBy(lc, files, log, appID, i, j + 1)
    ensures log[j].appID == appID && log[j].update.Flip?
    ensures FindIn(LedgerAt(lc, files, log, j, appID).value.Certs(), log[j].update.target) == i
  {
    if log[j].appID != appID {
      Ownership.OtherLedgers(lc, files, log, j, appID);
    } else {
      CommitAt(lc, files, log, j);
      ReplayKeepsHistory(lc, files, log[..j]);
      CommitKeepsHistory(lc, Replay(lc, files, log[..j]), log[j]);
    }
  }

  /** Between two positions, a certificate becomes revoked at some flip. */
  lemma FlipBetween(lc: Codec, files: Files, log: seq<Commit>, appID: string, i: nat, first: nat, k: nat)
    returns (j: nat)
    requires lc.Faithful() && HealthyFiles(lc, files) && SoundLog(lc, files, log) && first <= k <= |log|
    requires LedgerAt(lc, files, log, first, appID).Some? && i < |LedgerAt(lc, files, log, first, appID).value.Certs()|
    requires !RevokedBy(lc, files, log, appID, i, first) && RevokedBy(lc, files, log, appID, i, k)
    ensures first <= j < k && log[j].appID == appID && log[j].update.Flip?
    ensures LedgerAt(lc, files, log, j, appID).Some?
    ensures FindIn(LedgerAt(lc, files, log, j, appID).value.Certs(), log[j].update.target) == i
  {
    j := Ownership.BecomesTrue((n: nat) => RevokedBy(lc, files, log, appID, i, n), first, k);
    Ownership.LogHistory(lc, files, log, first, j);
    RevokedByFlip(lc, files, log, appID, i, j);
  }

  /** What a self-service bot flips has the place it had on the bot's first load, where it was active. */
  lemma ActiveAtFirst(lc: Codec, files: Files, t: State, k: nat) returns (i: nat)
    requires lc.Faithful() && HealthyFiles(lc, files) && Inv(lc, files, t) && SoundLog(lc, files, t.log)
    requires k < |t.log| && t.log[k].bot in t.bots && t.bots[t.log[k].bot].job.SelfRevoke?
    ensures var c, first := t.log[k], t.bots[t.log[k].bot].first;
            && first <= k && c.update.Flip?
            && LedgerAt(lc, files, t.log, first, c.appID).Some? && LedgerAt(lc, files, t.log, k, c.appID).Some?
            && i < |LedgerAt(lc, files, t.log, first, c.appID).value.Certs()|
            && !LedgerAt(lc, files, t.log, first, c.appID).value.Certs()[i].Revoked()
            && FindIn(LedgerAt(lc, files, t.log, k, c.appID).value.Certs(), c.update.target) == i
  {
    var c := t.log[k];
    var existing := JobOfCommit(lc, files, t, k);
    i := FindIn(existing.value.Certs(), c.update.target);
    Ownership.LogHistory(lc, files, t.log, t.bots[c.bot].first, k);
    FirstMatchIsStable(existing.value.Certs(), LedgerAt(lc, files, t.log, k, c.appID).value.Certs(), c.update.target);
  }

  /** In every interleaving, a self-service commit flips an active certificate if and only if no other
      commit revoked that certificate between the bot's first load and its write. */
  lemma FlipsActiveIffNotRevokedMeanwhile(lc: Codec, files: Files, t: State, k: nat)
    requires lc.Faithful() && HealthyFiles(lc, files) && Inv(lc, files, t) && SoundLog(lc, files, t.log)
    requires k < |t.log| && t.log[k].bot in t.bots && t.bots[t.log[k].bot].job.SelfRevoke?
    ensures t.log[k].update.Flip? && LedgerAt(lc, files, t.log, k, t.log[k].appID).Some?
    ensures var cs := LedgerAt(lc, files, t.log, k, t.log[k].appID).value.Certs();
            var i := FindIn(cs, t.log[k].update.target);
            i >= 0 && (!cs[i].Revoked() <==> !RevokedMeanwhile(lc, files, t, k))
  {
    var c, first := t.log[k], t.bots[t.log[k].bot].first;
    var i := ActiveAtFirst(lc, files, t, k);
    if RevokedMeanwhile(lc, files, t, k) {
      var j: nat :| first <= j < k && FlipsTheSame(lc, files, t.log, j, k);
      FlipStaysRevoked(lc, files, t.log, j, k);
    }
    if RevokedBy(lc, files, t.log, c.appID, i, k) {
      var j := FlipBetween(lc, files, t.log, c.appID, i, first, k);
      assert FlipsTheSame(lc, files, t.log, j, k);
    }
  }

  /** The same for the commits of a run. */
  lemma OverwritesIffRevokedMeanwhile(lc: Codec, s: State, acts: seq<Action>, k: nat)
    requires GoodStart(lc, s) && k < |Run(lc, s, acts).log|
    requires Run(lc, s, acts).log[k].bot in Run(lc, s, acts).bots
    requires Run(lc, s, acts).bots[Run(lc, s, acts).log[k].bot].job.SelfRevoke?
    ensures var t := Run(lc, s, acts);
            && t.log[k].update.Flip? && LedgerAt(lc, s.Files(), t.log, k, t.log[k].appID).Some?
            && var cs := LedgerAt(lc, s.Files(), t.log, k, t.log[k].appID).value.Certs();
               var i := FindIn(cs, t.log[k].update.target);
               i >= 0 && (cs[i].Revoked() <==> RevokedMeanwhile(lc, s.Files(), t, k))
  {
    RunIsSound(lc, s, acts);
    FlipsActiveIffNotRevokedMeanwhile(lc, s.Files(), Run(lc, s, acts), k);
  }
}
