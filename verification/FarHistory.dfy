/** What every interleaving keeps when privileged revocations may carry any date: the results of
    History and Ownership hold on every ledger that no far date has spoilt, and on no other. */
module FarHistory {
  import opened Wrappers
  import opened Ledger
  import opened Updates
  import opened Blobs
  import opened Protocol
  import opened History
  import opened FarDates
  import Ownership
  import Timestamp

  /** The run without far dates that shows the same. */
  ghost function Shadow(lc: Codec, s: State, acts: seq<Action>): State {
    Run(lc, Tamed(s), TameActions(lc, s, acts))
  }

  lemma TameStart(lc: Codec, s: State)
    requires AnyStart(lc, s)
    ensures Tamed(s).Files() == s.Files()
  {}

  lemma {:induction false} TamePrefix(lc: Codec, s: State, acts: seq<Action>, n: nat)
    requires n <= |acts|
    ensures TameActions(lc, s, acts[..n]) == TameActions(lc, s, acts)[..n]
  {
    if n == |acts| {
      assert acts[..n] == acts;
    } else {
      var init := acts[..|acts| - 1];
      TamePrefix(lc, s, init, n);
      assert init[..n] == acts[..n];
    }
  }

  /** The shadow of a run is a run like those of History. */
  lemma ShadowFacts(lc: Codec, s: State, acts: seq<Action>)
    requires AnyStart(lc, s)
    ensures Shadows(lc, Run(lc, s, acts), Shadow(lc, s, acts))
    ensures GoodStart(lc, Tamed(s)) && HealthyFiles(lc, Shadow(lc, s, acts).Files())
  {
    RunShadow(lc, s, acts);
    TamedIsGood(lc, s);
    RunIsSound(lc, Tamed(s), TameActions(lc, s, acts));
  }

  /** What a ledger reads as. */
  lemma LedgerInShadow(lc: Codec, s: State, t: State, appID: string)
    requires Shadows(lc, s, t)
    ensures if Spoilt(s.log, appID) then appID in s.Files() && LedgerOf(lc, s.Files(), appID).None?
            else
              && LedgerOf(lc, s.Files(), appID) == LedgerOf(lc, t.Files(), appID)
              && (appID in s.Files() <==> appID in t.Files())
  {
    assert LedgerShadow(lc, s, t, appID);
  }

  // ---- readable or spoilt ----

  /** After any interleaving of bots with any dates, a ledger cannot be read if and only if a commit
      to it carried a far date. One that can be read is as bots leave it. */
  lemma ReadableIffNear(lc: Codec, s: State, acts: seq<Action>, appID: string)
    requires AnyStart(lc, s)
    ensures var t := Run(lc, s, acts);
            && (appID in t.Files() && LedgerOf(lc, t.Files(), appID).None? <==> Spoilt(t.log, appID))
            && (LedgerOf(lc, t.Files(), appID).Some? ==> Healthy(LedgerOf(lc, t.Files(), appID).value))
  {
    ShadowFacts(lc, s, acts);
    LedgerInShadow(lc, Run(lc, s, acts), Shadow(lc, s, acts), appID);
  }

  /** From any point to any later one: a ledger that can be read then either extends what it was, or
      has been spoilt since. */
  lemma HistoryUnlessSpoilt(lc: Codec, s: State, acts: seq<Action>, n: nat, appID: string)
    requires AnyStart(lc, s) && n <= |acts|
    ensures var m, t := Run(lc, s, acts[..n]), Run(lc, s, acts);
            var earlier, later := LedgerOf(lc, m.Files(), appID), LedgerOf(lc, t.Files(), appID);
            earlier.Some? ==>
              if Spoilt(t.log, appID) then later.None? && !Spoilt(m.log, appID)
              else later.Some? && Extends(earlier.value, later.value)
  {
    ShadowFacts(lc, s, acts);
    ShadowFacts(lc, s, acts[..n]);
    LedgerInShadow(lc, Run(lc, s, acts), Shadow(lc, s, acts), appID);
    LedgerInShadow(lc, Run(lc, s, acts[..n]), Shadow(lc, s, acts[..n]), appID);
    TamePrefix(lc, s, acts, n);
    AppendOnlyHistory(lc, Tamed(s), TameActions(lc, s, acts), n, appID);
    LogGrows(lc, s, acts, n, appID);
  }

  lemma LogGrows(lc: Codec, s: State, acts: seq<Action>, n: nat, appID: string)
    requires n <= |acts|
    ensures Run(lc, s, acts[..n]).log <= Run(lc, s, acts).log
    ensures Spoilt(Run(lc, s, acts[..n]).log, appID) ==> Spoilt(Run(lc, s, acts).log, appID)
  {
    RunLogGrows(lc, s, acts, n);
    if Spoilt(Run(lc, s, acts[..n]).log, appID) {
      SpoiltStays(Run(lc, s, acts[..n]).log, Run(lc, s, acts).log, appID);
    }
  }

  /** No step touches a ledger that cannot be read. */
  lemma BrokenStays(lc: Codec, files: Files, t: State, a: Action, appID: string)
    requires Inv(lc, files, t) && Broken(lc, t, appID)
    ensures appID in Step(lc, t, a).blobs && Step(lc, t, a).blobs[appID] == t.blobs[appID]
    ensures forall c :: Step(lc, t, a).log == t.log + [c] ==> c.appID != appID
  {
    if a.Put? && a.bot in t.bots {
      if Lands(lc, t, a.bot, a.refused) {
        if t.bots[a.bot].job.appID == appID {
          NothingLandsOnSpoilt(lc, files, t, a.bot, a.refused);
        } else {
          PutLands(lc, t, a.bot, a.refused);
          assert forall c :: t.log + [Commit(a.bot, t.bots[a.bot].job.appID, t.bots[a.bot].phase.update)] == t.log + [c]
                   ==> (t.log + [c])[|t.log|].appID == t.bots[a.bot].job.appID;
        }
      } else {
        PutMoves(lc, t, a.bot, a.refused);
        assert forall c :: t.log + [c] != t.log;
      }
    } else {
      OtherStepsWriteNothing(lc, t, a);
      assert forall c :: t.log + [c] != t.log;
    }
  }

  lemma OtherStepsWriteNothing(lc: Codec, t: State, a: Action)
    requires !a.Put? || a.bot !in t.bots
    ensures Step(lc, t, a).blobs == t.blobs && Step(lc, t, a).log == t.log
  {}

  lemma StepLeavesSpoilt(lc: Codec, s: State, acts: seq<Action>, a: Action, appID: string)
    requires AnyStart(lc, s) && Spoilt(Run(lc, s, acts).log, appID)
    ensures var t := Run(lc, s, acts);
            appID in t.blobs && appID in Step(lc, t, a).blobs && Step(lc, t, a).blobs[appID] == t.blobs[appID]
    ensures forall c :: Step(lc, Run(lc, s, acts), a).log == Run(lc, s, acts).log + [c] ==> c.appID != appID
  {
    ShadowFacts(lc, s, acts);
    RunInv(lc, s, acts);
    assert LedgerShadow(lc, Run(lc, s, acts), Shadow(lc, s, acts), appID);
    BrokenStays(lc, s.Files(), Run(lc, s, acts), a, appID);
  }

  /** A spoilt ledger stays as it is for good. */
  lemma {:induction false} SpoiltForGood(lc: Codec, s: State, acts: seq<Action>, n: nat, appID: string)
    requires AnyStart(lc, s) && n <= |acts| && Spoilt(Run(lc, s, acts[..n]).log, appID)
    ensures appID in Run(lc, s, acts[..n]).blobs && appID in Run(lc, s, acts).blobs
    ensures Run(lc, s, acts).blobs[appID] == Run(lc, s, acts[..n]).blobs[appID]
  {
    if n == |acts| {
      assert acts[..n] == acts;
      ShadowFacts(lc, s, acts);
      LedgerInShadow(lc, Run(lc, s, acts), Shadow(lc, s, acts), appID);
    } else {
      var init := acts[..|acts| - 1];
      assert init[..n] == acts[..n];
      SpoiltForGood(lc, s, init, n, appID);
      LogGrows(lc, s, init, n, appID);
      StepLeavesSpoilt(lc, s, init, acts[|acts| - 1], appID);
    }
  }

  /** A far date is the last thing ever committed to its ledger. */
  lemma {:induction false} FarCommitIsLast(lc: Codec, s: State, acts: seq<Action>, k: nat, j: nat)
    requires AnyStart(lc, s) && k < j < |Run(lc, s, acts).log| && FarUpdate(Run(lc, s, acts).log[k].update)
    ensures Run(lc, s, acts).log[j].appID != Run(lc, s, acts).log[k].appID
  {
    if acts == [] {
      assert false;
    } else {
      var init, a := acts[..|acts| - 1], acts[|acts| - 1];
      var m, t := Run(lc, s, init), Run(lc, s, acts);
      StepLog(lc, m, a);
      if j < |m.log| {
        FarCommitIsLast(lc, s, init, k, j);
      } else {
        assert SpoiltAt(m.log, k, m.log[k].appID);
        StepLeavesSpoilt(lc, s, init, a, m.log[k].appID);
        assert t.log == m.log + [t.log[j]];
      }
    }
  }

  // ---- one step ----

  /** The file cannot be read any more, and no other file has changed. */
  ghost predicate CommitSpoils(lc: Codec, files: Files, after: Files, appID: string) {
    && LedgerOf(lc, files, appID).Some? && appID in after && LedgerOf(lc, after, appID).None?
    && after.Keys == files.Keys
    && forall x :: x in files && x != appID ==> after[x] == files[x]
  }

  /** One commit is put in place. */
  ghost predicate CommitLeft(lc: Codec, t: State, t': State, c: Commit) {
    && t'.log == t.log + [c]
    && if FarUpdate(c.update) then CommitSpoils(lc, t.Files(), t'.Files(), c.appID)
         else CommitTook(lc, t.Files(), t'.Files(), c)
  }

  function CommitBy(t: State, b: nat): Commit
    requires b in t.bots && t.bots[b].phase.Holding?
  {
    Commit(b, t.bots[b].job.appID, t.bots[b].phase.update)
  }

  lemma FarLands(lc: Codec, files: Files, t: State, b: nat)
    requires lc.Faithful() && Inv(lc, files, t) && b in t.bots && Lands(lc, t, b, false)
    requires FarUpdate(t.bots[b].phase.update)
    ensures CommitSpoils(lc, t.Files(), AfterCommit(t, b, Revised(lc, t.bots[b]).value).Files(), t.bots[b].job.appID)
  {
    var app := t.bots[b].job.appID;
    var text := Revised(lc, t.bots[b]).value;
    assert Holds(lc, BotsConsistent, files, t);
    assert BotInv(lc, files, t, t.bots[b]);
    FarIsUnreadable(lc, t.bots[b]);
    TextsUpdate(t.blobs, app, Blob(text, MintedName(t.minted + 1)));
  }

  /** A commit that the shadow makes too. */
  lemma NearLands(lc: Codec, t: State, b: nat, u: State)
    requires b in t.bots && Lands(lc, t, b, false)
    requires var t' := AfterCommit(t, b, Revised(lc, t.bots[b]).value);
             var app := t.bots[b].job.appID;
             && CommitTook(lc, u.Files(), Step(lc, u, Put(b, false)).Files(), CommitBy(t, b))
             && LedgerOf(lc, t.Files(), app) == LedgerOf(lc, u.Files(), app)
             && LedgerOf(lc, t'.Files(), app) == LedgerOf(lc, Step(lc, u, Put(b, false)).Files(), app)
    ensures CommitTook(lc, t.Files(), AfterCommit(t, b, Revised(lc, t.bots[b]).value).Files(), CommitBy(t, b))
  {
    var app := t.bots[b].job.appID;
    TextsUpdate(t.blobs, app, Blob(Revised(lc, t.bots[b]).value, MintedName(t.minted + 1)));
  }

  lemma LastsAlike(log: seq<Commit>, c: Commit, tame: seq<Commit>, later: seq<Commit>)
    requires AlikeLogs(log, tame) && AlikeLogs(log + [c], later) && !FarUpdate(c.update)
    ensures later != tame && |later| == |tame| + 1 && later[|tame|] == c
  {
    assert AlikeCommit((log + [c])[|log|], later[|log|]);
  }

  lemma NearStep(lc: Codec, s: State, acts: seq<Action>, b: nat)
    requires AnyStart(lc, s) && b in Run(lc, s, acts).bots && Lands(lc, Run(lc, s, acts), b, false)
    requires !FarUpdate(Run(lc, s, acts).bots[b].phase.update)
    ensures var t := Run(lc, s, acts);
            CommitTook(lc, t.Files(), AfterCommit(t, b, Revised(lc, t.bots[b]).value).Files(), CommitBy(t, b))
  {
    var t, u, a := Run(lc, s, acts), Shadow(lc, s, acts), Put(b, false);
    var app, c := t.bots[b].job.appID, CommitBy(t, b);
    RunInv(lc, s, acts);
    ShadowFacts(lc, s, acts);
    LedgerInShadow(lc, t, u, app);
    if Spoilt(t.log, app) {
      NothingLandsOnSpoilt(lc, s.Files(), t, b, false);
    }
    StepShadow(lc, s.Files(), t, u, a);
    PutLands(lc, t, b, false);
    SpoiltOneMore(t.log, c, app);
    LedgerInShadow(lc, Step(lc, t, a), Step(lc, u, a), app);
    EachStepIsOneUpdate(lc, Tamed(s), TameActions(lc, s, acts), a);
    LastsAlike(t.log, c, u.log, Step(lc, u, a).log);
    NearLands(lc, t, b, u);
  }

  /** Every step leaves all files alone, or is one commit that changes one entry of one file, or is
      one commit with a far date that makes one file unreadable. */
  lemma StepUnlessSpoilt(lc: Codec, s: State, acts: seq<Action>, a: Action)
    requires AnyStart(lc, s)
    ensures var t := Run(lc, s, acts);
            var t' := Step(lc, t, a);
            (t'.log == t.log && t'.Files() == t.Files()) || exists c :: CommitLeft(lc, t, t', c)
  {
    var t := Run(lc, s, acts);
    if a.Put? && a.bot in t.bots {
      if Lands(lc, t, a.bot, a.refused) {
        PutLands(lc, t, a.bot, a.refused);
        RunInv(lc, s, acts);
        if FarUpdate(t.bots[a.bot].phase.update) {
          FarLands(lc, s.Files(), t, a.bot);
        } else {
          NearStep(lc, s, acts, a.bot);
        }
        assert CommitLeft(lc, t, Step(lc, t, a), CommitBy(t, a.bot));
      } else {
        PutMoves(lc, t, a.bot, a.refused);
      }
    } else {
      OtherStepsWriteNothing(lc, t, a);
    }
  }

  // ---- what bots report ----

  lemma BotInShadow(lc: Codec, s: State, t: State, b: nat)
    requires Shadows(lc, s, t) && b in s.bots && !Spoilt(s.log, s.bots[b].job.appID)
    ensures b in t.bots && Alike(s.bots[b], t.bots[b])
  {
    assert BotShadow(s, t, b);
  }

  /** The "vanished during retry" and parse errors occur on spoilt ledgers only. */
  lemma LostOnlyIfSpoilt(lc: Codec, s: State, acts: seq<Action>, b: nat)
    requires AnyStart(lc, s) && b in Run(lc, s, acts).bots
    requires Run(lc, s, acts).bots[b].phase in {Done(Vanished), Done(ParseFailed)}
    ensures Spoilt(Run(lc, s, acts).log, Run(lc, s, acts).bots[b].job.appID)
  {
    var t := Run(lc, s, acts);
    ShadowFacts(lc, s, acts);
    NeverVanished(lc, Tamed(s), TameActions(lc, s, acts));
    if !Spoilt(t.log, t.bots[b].job.appID) {
      BotInShadow(lc, t, Shadow(lc, s, acts), b);
    }
  }

  /** And every load of a spoilt ledger ends in the parse error. */
  lemma LoadOfSpoiltFails(lc: Codec, s: State, acts: seq<Action>, b: nat)
    requires AnyStart(lc, s) && b in Run(lc, s, acts).bots
    requires Spoilt(Run(lc, s, acts).log, Run(lc, s, acts).bots[b].job.appID)
    requires Run(lc, s, acts).bots[b].phase.Start? || Run(lc, s, acts).bots[b].phase.Reloading?
    ensures b in Step(lc, Run(lc, s, acts), Get(b)).bots
    ensures Step(lc, Run(lc, s, acts), Get(b)).bots[b].phase == Done(ParseFailed)
  {
    var t := Run(lc, s, acts);
    ShadowFacts(lc, s, acts);
    LedgerInShadow(lc, t, Shadow(lc, s, acts), t.bots[b].job.appID);
    GetMoves(lc, t, b);
    UnreadableLoad(lc, t, t.bots[b]);
  }

  lemma UnreadableLoad(lc: Codec, t: State, x: Bot)
    requires x.job.appID in t.Files() && LedgerOf(lc, t.Files(), x.job.appID).None?
    requires (x.phase.Start? || x.phase.Reloading?)
    ensures AfterGet(lc, t, x).phase == Done(ParseFailed)
  {}

  lemma TameAchieves(job: Job, l: Ledger)
    ensures Achieved(Tame(job), l) <==> Achieved(job, l)
  {}

  /** What a successful bot set out to record is recorded in every later state, unless its ledger has
      been spoilt. */
  lemma SuccessUnlessSpoilt(lc: Codec, s: State, acts: seq<Action>, n: nat, b: nat)
    requires AnyStart(lc, s) && n <= |acts|
    requires b in s.bots && b in Run(lc, s, acts[..n]).bots && Run(lc, s, acts[..n]).bots[b].phase == Done(Committed)
    ensures var l := LedgerOf(lc, Run(lc, s, acts).Files(), s.bots[b].job.appID);
            if Spoilt(Run(lc, s, acts).log, s.bots[b].job.appID) then l.None?
                else l.Some? && Achieved(s.bots[b].job, l.value)
  {
    var app := s.bots[b].job.appID;
    ShadowFacts(lc, s, acts);
    LedgerInShadow(lc, Run(lc, s, acts), Shadow(lc, s, acts), app);
    if !Spoilt(Run(lc, s, acts).log, app) {
      LogGrows(lc, s, acts, n, app);
      SameSuccess(lc, s, acts[..n], b);
      TamePrefix(lc, s, acts, n);
      SuccessIsPermanent(lc, Tamed(s), TameActions(lc, s, acts), n, b);
      TameAchieves(s.bots[b].job, LedgerOf(lc, Run(lc, s, acts).Files(), app).value);
    }
  }

  lemma SameSuccess(lc: Codec, s: State, acts: seq<Action>, b: nat)
    requires AnyStart(lc, s) && b in s.bots && !Spoilt(Run(lc, s, acts).log, s.bots[b].job.appID)
    requires b in Run(lc, s, acts).bots && Run(lc, s, acts).bots[b].phase == Done(Committed)
    ensures b in Tamed(s).bots && Tamed(s).bots[b].job == Tame(s.bots[b].job)
    ensures b in Shadow(lc, s, acts).bots && Shadow(lc, s, acts).bots[b].phase == Done(Committed)
  {
    RunKeepsJobs(lc, s, acts);
    ShadowFacts(lc, s, acts);
    BotInShadow(lc, Run(lc, s, acts), Shadow(lc, s, acts), b);
  }

  /** A bot that found its certificate revoked was right and stays right, unless the ledger has been
      spoilt. */
  lemma AlreadyRevokedUnlessSpoilt(lc: Codec, s: State, acts: seq<Action>, b: nat)
    requires AnyStart(lc, s) && b in Run(lc, s, acts).bots && Run(lc, s, acts).bots[b].phase == Done(AlreadyRevoked)
    ensures var t := Run(lc, s, acts); Spoilt(t.log, t.bots[b].job.appID) || SeesRevoked(lc, t, t.bots[b].job)
  {
    var t := Run(lc, s, acts);
    var app := t.bots[b].job.appID;
    ShadowFacts(lc, s, acts);
    LedgerInShadow(lc, t, Shadow(lc, s, acts), app);
    if !Spoilt(t.log, app) {
      BotInShadow(lc, t, Shadow(lc, s, acts), b);
      AlreadyRevokedIsPermanent(lc, Tamed(s), TameActions(lc, s, acts));
    }
  }

  // ---- ownership ----

  /** Up to any position a ledger that is never spoilt reads the same in both logs. */
  lemma {:induction false} SameReplay(lc: Codec, files: Files, log: seq<Commit>, tame: seq<Commit>, k: nat,
                                      appID: string)
    requires AlikeLogs(log, tame) && !Spoilt(log, appID) && k <= |log|
    ensures TextOf(Replay(lc, files, log[..k]), appID) == TextOf(Replay(lc, files, tame[..k]), appID)
  {
    if k == 0 {
      assert log[..0] == [] && tame[..0] == [];
    } else {
      SameReplay(lc, files, log, tame, k - 1, appID);
      ReplayUpTo(lc, files, log, k);
      ReplayUpTo(lc, files, tame, k);
      SameUpdate(log, tame, k - 1, appID);
      var before, tameBefore := Replay(lc, files, log[..k - 1]), Replay(lc, files, tame[..k - 1]);
      SameApplied(lc, before, tameBefore, log[k - 1], tame[k - 1], appID);
    }
  }

  lemma ReplayUpTo(lc: Codec, files: Files, log: seq<Commit>, k: nat)
    requires 0 < k <= |log|
    ensures Replay(lc, files, log[..k]) == Applied(lc, Replay(lc, files, log[..k - 1]), log[k - 1])
  {
    assert log[..k] == log[..k - 1] + [log[k - 1]];
    ReplayOneMore(lc, files, log[..k - 1], log[k - 1]);
  }

  lemma SameUpdate(log: seq<Commit>, tame: seq<Commit>, k: nat, appID: string)
    requires AlikeLogs(log, tame) && !Spoilt(log, appID) && k < |log|
    ensures tame[k].appID == log[k].appID && (log[k].appID == appID ==> tame[k] == log[k])
  {
    assert AlikeCommit(log[k], tame[k]) && !SpoiltAt(log, k, appID);
  }

  lemma SameApplied(lc: Codec, f: Files, g: Files, c: Commit, d: Commit, appID: string)
    requires TextOf(f, appID) == TextOf(g, appID) && d.appID == c.appID && (c.appID == appID ==> d == c)
    ensures TextOf(Applied(lc, f, c), appID) == TextOf(Applied(lc, g, d), appID)
  {}

  lemma SameCreates(lc: Codec, files: Files, log: seq<Commit>, tame: seq<Commit>, j: nat, appID: string)
    requires AlikeLogs(log, tame) && !Spoilt(log, appID) && j < |log|
    ensures Ownership.Creates(lc, files, log, j, appID) <==> Ownership.Creates(lc, files, tame, j, appID)
    ensures log[j].appID == appID ==> tame[j] == log[j]
  {
    SameReplay(lc, files, log, tame, j, appID);
    SameUpdate(log, tame, j, appID);
  }

  /** A bot that holds a ledger still finds its target where it found it first, with a date no earlier
      than the notBefore there. */
  predicate FindsAgain(lc: Codec, files: Files, log: seq<Commit>, bot: Bot) {
    bot.phase.Holding? && bot.phase.update.Flip? ==>
      && bot.first <= |log| && bot.phase.held.Some?
      && var first := LedgerAt(lc, files, log, bot.first, bot.job.appID);
         var i := FindIn(bot.phase.held.value.Certs(), bot.phase.update.target);
         && first.Some? && i >= 0 && i == FindIn(first.value.Certs(), bot.phase.update.target)
         && bot.phase.held.value.Certs()[i].notBefore <= bot.phase.update.revocation.revokedFrom
  }

  lemma FindsAgainAlike(lc: Codec, files: Files, log: seq<Commit>, tame: seq<Commit>, x: Bot, y: Bot)
    requires Alike(x, y) && x.phase.Holding? && AlikeLogs(log, tame) && !Spoilt(log, x.job.appID)
    requires FindsAgain(lc, files, tame, y) && (y.phase.held.Some? ==> Healthy(y.phase.held.value))
    ensures FindsAgain(lc, files, log, x)
  {
    if x.phase.update.Flip? {
      SameReplay(lc, files, log, tame, x.first, x.job.appID);
      StoredCerts(y.phase.held.value, FindIn(y.phase.held.value.Certs(), x.phase.update.target));
    }
  }

  /** What a bot holds of a ledger is healthy. */
  lemma HeldIsHealthy(lc: Codec, files: Files, t: State, b: nat)
    requires lc.Faithful() && HealthyFiles(lc, files) && Inv(lc, files, t) && SoundLog(lc, files, t.log)
    requires b in t.bots && t.bots[b].phase.Holding?
    ensures t.bots[b].phase.held.Some? ==> Healthy(t.bots[b].phase.held.value)
  {
    assert Holds(lc, BotsConsistent, files, t);
    assert BotInv(lc, files, t, t.bots[b]);
    PrefixSound(lc, files, t.log, t.bots[b].latest);
    ReplayKeepsHistory(lc, files, t.log[..t.bots[b].latest]);
  }

  /** In every interleaving, after any number of reloads. */
  lemma IndexUnlessSpoilt(lc: Codec, s: State, acts: seq<Action>, b: nat)
    requires AnyStart(lc, s) && b in Run(lc, s, acts).bots && Run(lc, s, acts).bots[b].phase.Holding?
    requires !Spoilt(Run(lc, s, acts).log, Run(lc, s, acts).bots[b].job.appID)
    ensures FindsAgain(lc, s.Files(), Run(lc, s, acts).log, Run(lc, s, acts).bots[b])
  {
    var t, u := Run(lc, s, acts), Shadow(lc, s, acts);
    ShadowFacts(lc, s, acts);
    TameStart(lc, s);
    BotInShadow(lc, t, u, b);
    RunIsSound(lc, Tamed(s), TameActions(lc, s, acts));
    HeldStaysSound(lc, s.Files(), u, b);
    HeldIsHealthy(lc, s.Files(), u, b);
    FindsAgainAlike(lc, s.Files(), t.log, u.log, t.bots[b], u.bots[b]);
  }

  /** What Ownership.OwnershipIsPermanent says of a log and the ledger it leads to. */
  ghost predicate OneClaim(lc: Codec, files: Files, log: seq<Commit>, appID: string, end: Option<Ledger>) {
    var start := LedgerOf(lc, files, appID);
    && (forall i, j :: 0 <= i < j < |log| && Ownership.Creates(lc, files, log, i, appID)
          ==> !Ownership.Creates(lc, files, log, j, appID))
    && (start.Some? ==> end.Some? && Ownership.SameClaim(start.value, end.value))
    && (start.None? && end.Some? ==>
          exists j | 0 <= j < |log| :: Ownership.Creates(lc, files, log, j, appID) &&
              Ownership.CreatedBy(log[j].update, end.value))
  }

  lemma SameClaims(lc: Codec, files: Files, log: seq<Commit>, tame: seq<Commit>, appID: string, end: Option<Ledger>)
    requires AlikeLogs(log, tame) && !Spoilt(log, appID) && OneClaim(lc, files, tame, appID, end)
    ensures OneClaim(lc, files, log, appID, end)
  {
    forall j | 0 <= j < |log|
      ensures Ownership.Creates(lc, files, log, j, appID) <==> Ownership.Creates(lc, files, tame, j, appID)
      ensures log[j].appID == appID ==> tame[j] == log[j]
    {
      SameCreates(lc, files, log, tame, j, appID);
    }
    if LedgerOf(lc, files, appID).None? && end.Some? {
      var j :| 0 <= j < |tame| && Ownership.Creates(lc, files, tame, j, appID) &&
          Ownership.CreatedBy(tame[j].update, end.value);
      assert Ownership.Creates(lc, files, log, j, appID) && Ownership.CreatedBy(log[j].update, end.value);
    }
  }

  /** At most one commit creates a ledger, and owner, claim time and reservation stay those of that
      commit, or of the start, for as long as the ledger can be read. */
  lemma OwnershipUnlessSpoilt(lc: Codec, s: State, acts: seq<Action>, appID: string)
    requires AnyStart(lc, s)
    ensures var t := Run(lc, s, acts);
            Spoilt(t.log, appID) || OneClaim(lc, s.Files(), t.log, appID, LedgerOf(lc, t.Files(), appID))
  {
    var t, u := Run(lc, s, acts), Shadow(lc, s, acts);
    if !Spoilt(t.log, appID) {
      ShadowFacts(lc, s, acts);
      TameStart(lc, s);
      LedgerInShadow(lc, t, u, appID);
      Ownership.OwnershipIsPermanent(lc, Tamed(s), TameActions(lc, s, acts), appID);
      SameClaims(lc, s.Files(), t.log, u.log, appID, LedgerOf(lc, u.Files(), appID));
    }
  }

  /** A ledger that starts reserved receives only revocations, and gains no certificate for as long as
      it can be read. */
  lemma ReservedUnlessSpoilt(lc: Codec, s: State, acts: seq<Action>, appID: string)
    requires AnyStart(lc, s)
    requires LedgerOf(lc, s.Files(), appID).Some? && LedgerOf(lc, s.Files(), appID).value.reserved
    ensures var log := Run(lc, s, acts).log;
            forall k :: 0 <= k < |log| && log[k].appID == appID ==> log[k].update.Flip?
    ensures var end := LedgerOf(lc, Run(lc, s, acts).Files(), appID);
            if Spoilt(Run(lc, s, acts).log, appID) then end.None?
            else
              && end.Some? && end.value.reserved
              && |end.value.Certs()| == |LedgerOf(lc, s.Files(), appID).value.Certs()|
  {
    var t, u := Run(lc, s, acts), Shadow(lc, s, acts);
    ShadowFacts(lc, s, acts);
    TameStart(lc, s);
    LedgerInShadow(lc, t, u, appID);
    Ownership.ReservedGainsNothing(lc, Tamed(s), TameActions(lc, s, acts), appID);
    forall k | 0 <= k < |t.log| && t.log[k].appID == appID
      ensures t.log[k].update.Flip?
    {
      assert AlikeCommit(t.log[k], u.log[k]);
    }
  }

  // ---- the run that spoils a ledger ----

  /** Privileged bot `x` revokes with a far date; bot `y` then tries to load the ledger. */
  function Spoiling(x: nat, y: nat): seq<Action> {
    [Get(x), Put(x, false), Get(y)]
  }

  lemma SpoilingSteps(lc: Codec, s: State, x: nat, y: nat)
    ensures Run(lc, s, Spoiling(x, y)) == Step(lc, Step(lc, Step(lc, s, Get(x)), Put(x, false)), Get(y))
  {
    RunOneMore(lc, s, [], Get(x));
    RunOneMore(lc, s, [Get(x)], Put(x, false));
    RunOneMore(lc, s, [Get(x), Put(x, false)], Get(y));
    assert [] + [Get(x)] == [Get(x)] && [Get(x)] + [Put(x, false)] == [Get(x), Put(x, false)];
    assert [Get(x), Put(x, false)] + [Get(y)] == Spoiling(x, y);
    assert Run(lc, s, []) == s;
  }

  /** From any start: a privileged request with a far date that finds its certificate is committed, its
      ledger cannot be read, and the next bot on that ledger reports the parse error. */
  lemma FarDateSpoils(lc: Codec, s: State, x: nat, y: nat)
    requires AnyStart(lc, s) && x in s.bots && y in s.bots && x != y && s.bots[x].job.appID == s.bots[y].job.appID
    requires FarJob(s.bots[x].job)
    requires var l := LedgerOf(lc, s.Files(), s.bots[x].job.appID);
             l.Some? && FindIn(l.value.Certs(), BySerial(s.bots[x].job.serial)) >= 0
    ensures var t := Run(lc, s, Spoiling(x, y));
            && x in t.bots && t.bots[x].phase == Done(Committed)
            && s.bots[x].job.appID in t.Files() && LedgerOf(lc, t.Files(), s.bots[x].job.appID).None?
            && y in t.bots && t.bots[y].phase == Done(ParseFailed)
  {
    var app := s.bots[x].job.appID;
    var s1 := Step(lc, s, Get(x));
    SpoilingSteps(lc, s, x, y);
    FarLoads(lc, s, x);
    FarCommits(lc, s1, x);
    GetMoves(lc, Step(lc, s1, Put(x, false)), y);
    UnreadableLoad(lc, Step(lc, s1, Put(x, false)), s.bots[y]);
  }

  lemma FarLoads(lc: Codec, s: State, x: nat)
    requires HealthyFiles(lc, s.Files()) && x in s.bots && s.bots[x].phase.Start? && FarJob(s.bots[x].job)
    requires var l := LedgerOf(lc, s.Files(), s.bots[x].job.appID);
             l.Some? && FindIn(l.value.Certs(), BySerial(s.bots[x].job.serial)) >= 0
    ensures var t := Step(lc, s, Get(x));
            && t.blobs == s.blobs && t.bots == s.bots[x := t.bots[x]] && t.bots[x].job == s.bots[x].job
            && Lands(lc, t, x, false) && FarUpdate(t.bots[x].phase.update)
  {
    var l := LedgerOf(lc, s.Files(), s.bots[x].job.appID).value;
    LoadedText(lc, s.Files(), s.bots[x].job.appID);
    StoredCerts(l, FindIn(l.Certs(), BySerial(s.bots[x].job.serial)));
    CurrentIsAccepted(s.blobs, s.bots[x].job.appID);
  }

  lemma FarCommits(lc: Codec, s: State, x: nat)
    requires lc.Faithful() && x in s.bots && Lands(lc, s, x, false) && FarUpdate(s.bots[x].phase.update)
    ensures var t := Step(lc, s, Put(x, false));
            && t.bots == s.bots[x := t.bots[x]] && t.bots[x].phase == Done(Committed)
            && s.bots[x].job.appID in t.Files() && LedgerOf(lc, t.Files(), s.bots[x].job.appID).None?
  {
    PutLands(lc, s, x, false);
    FarIsUnreadable(lc, s.bots[x]);
  }
}
