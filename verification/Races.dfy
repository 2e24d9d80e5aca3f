/** What goes wrong without the lock, as concrete runs of two bots: both load, one writes, the other
    meets the conflict, reloads and writes what it decided before. */
module Races {
  import opened Wrappers
  import opened Ledger
  import opened Updates
  import opened Blobs
  import opened Protocol
  import opened History
  import Ownership

  lemma FirstGet(lc: Codec, s: State, b: nat, u: Update)
    requires b in s.bots && s.bots[b].phase.Start? && HealthyFiles(lc, s.Files())
    requires Begin(s.bots[b].job, LedgerOf(lc, s.Files(), s.bots[b].job.appID)) == Go(u)
    ensures Step(lc, s, Get(b)) == WithPhase(s, b,
              Bot(s.bots[b].job, Holding(u, LedgerOf(lc, s.Files(), s.bots[b].job.appID),
                                         ShaOf(s.blobs, s.bots[b].job.appID), 0),
                  |s.log|, |s.log|, s.bots[b].tried))
  {
    LoadedText(lc, s.Files(), s.bots[b].job.appID);
  }

  lemma AcceptedPut(lc: Codec, s: State, b: nat)
    requires b in s.bots && s.bots[b].phase.Holding?
    requires Accepts(BlobOf(s.blobs, s.bots[b].job.appID), s.bots[b].phase.sha)
    requires Revised(lc, s.bots[b]).Some?
    ensures Step(lc, s, Put(b, false)) == AfterCommit(s, b, Revised(lc, s.bots[b]).value)
  {}

  lemma StalePut(lc: Codec, s: State, b: nat)
    requires b in s.bots && s.bots[b].phase.Holding?
    requires !Accepts(BlobOf(s.blobs, s.bots[b].job.appID), s.bots[b].phase.sha)
    requires Revised(lc, s.bots[b]).Some?
    ensures Step(lc, s, Put(b, false)) ==
            WithPhase(s, b, s.bots[b].(phase := Reloading(s.bots[b].phase.update, s.bots[b].phase.conflicts + 1),
                                       tried := |s.log|))
  {}

  lemma Reget(lc: Codec, s: State, b: nat)
    requires b in s.bots && s.bots[b].phase.Reloading? && s.bots[b].phase.conflicts < MAX_RETRIES
    requires HealthyFiles(lc, s.Files())
    ensures Step(lc, s, Get(b)) == WithPhase(s, b, s.bots[b].(
              phase := Holding(s.bots[b].phase.update, LedgerOf(lc, s.Files(), s.bots[b].job.appID),
                               ShaOf(s.blobs, s.bots[b].job.appID), s.bots[b].phase.conflicts),
              latest := |s.log|))
  {
    LoadedText(lc, s.Files(), s.bots[b].job.appID);
  }

  /** What a bot that holds the current ledger writes. */
  lemma CurrentIsRevised(lc: Codec, files: Files, b: nat, bot: Bot, u: Update)
    requires lc.Faithful() && HealthyFiles(lc, files)
    requires bot.phase.Holding? && bot.phase.update == u && bot.phase.held == LedgerOf(lc, files, bot.job.appID)
    requires Sound(LedgerOf(lc, files, bot.job.appID), bot.job.appID, u)
    ensures Revised(lc, bot).Some?
    ensures Applied(lc, files, Commit(b, bot.job.appID, u)) == files[bot.job.appID := Revised(lc, bot).value]
  {
    var app := bot.job.appID;
    LoadedText(lc, files, app);
    WrittenReadsBack(lc, TextOf(files, app), app, u);
    RevisedIsWritten(lc, TextOf(files, app), bot);
    AppliedWrites(lc, files, Commit(b, app, u), Revised(lc, bot).value);
  }

  /** A bot that loads and writes with nobody in between commits its update. */
  lemma SoloCommit(lc: Codec, s: State, b: nat, u: Update) returns (t: State)
    requires lc.Faithful() && HealthyFiles(lc, s.Files()) && b in s.bots && s.bots[b].phase.Start?
    requires Begin(s.bots[b].job, LedgerOf(lc, s.Files(), s.bots[b].job.appID)) == Go(u)
    requires Sound(LedgerOf(lc, s.Files(), s.bots[b].job.appID), s.bots[b].job.appID, u)
    ensures t == Step(lc, Step(lc, s, Get(b)), Put(b, false))
    ensures b in t.bots && t.bots[b].phase == Done(Committed)
    ensures forall x :: x in s.bots && x != b ==> x in t.bots && t.bots[x] == s.bots[x]
    ensures t.Files() == Applied(lc, s.Files(), Commit(b, s.bots[b].job.appID, u))
    ensures s.bots[b].job.appID in t.blobs && t.blobs[s.bots[b].job.appID].sha == MintedName(s.minted + 1)
  {
    var app := s.bots[b].job.appID;
    FirstGet(lc, s, b, u);
    var s1 := Step(lc, s, Get(b));
    CurrentIsAccepted(s.blobs, app);
    CurrentIsRevised(lc, s.Files(), b, s1.bots[b], u);
    AcceptedPut(lc, s1, b);
    t := Step(lc, s1, Put(b, false));
    TextsUpdate(s.blobs, app, Blob(Revised(lc, s1.bots[b]).value, MintedName(s.minted + 1)));
  }

  lemma HoldsRevisable(lc: Codec, s: State, acts: seq<Action>, b: nat)
    requires GoodStart(lc, s) && b in Run(lc, s, acts).bots && Run(lc, s, acts).bots[b].phase.Holding?
    ensures Revised(lc, Run(lc, s, acts).bots[b]).Some?
  {
    RunIsSound(lc, s, acts);
    HeldStaysSound(lc, s.Files(), Run(lc, s, acts), b);
  }

  /** Bots `x` and `y` both load; `x` writes; `y` conflicts, reloads and writes. */
  function Race(x: nat, y: nat): seq<Action> {
    [Get(x), Get(y), Put(x, false)] + [Put(y, false), Get(y), Put(y, false)]
  }

  lemma BothLoaded(lc: Codec, s: State, x: nat, y: nat, ux: Update, uy: Update) returns (t: State)
    requires GoodStart(lc, s) && x in s.bots && y in s.bots && x != y
    requires s.bots[x].job.appID == s.bots[y].job.appID
    requires Begin(s.bots[x].job, LedgerOf(lc, s.Files(), s.bots[x].job.appID)) == Go(ux)
    requires Begin(s.bots[y].job, LedgerOf(lc, s.Files(), s.bots[x].job.appID)) == Go(uy)
    ensures t == Run(lc, s, [Get(x), Get(y)])
    ensures t.blobs == s.blobs && t.minted == s.minted && t.log == [] && x in t.bots && y in t.bots
    ensures var app := s.bots[x].job.appID;
            && t.bots[x] == Bot(s.bots[x].job, Holding(ux, LedgerOf(lc, s.Files(), app), ShaOf(s.blobs, app), 0), 0,
                                0, s.bots[x].tried)
            && t.bots[y] == Bot(s.bots[y].job, Holding(uy, LedgerOf(lc, s.Files(), app), ShaOf(s.blobs, app), 0), 0,
                                0, s.bots[y].tried)
  {
    RunOneMore(lc, s, [], Get(x));
    RunOneMore(lc, s, [Get(x)], Get(y));
    assert [] + [Get(x)] == [Get(x)] && [Get(x)] + [Get(y)] == [Get(x), Get(y)];
    FirstGet(lc, s, x, ux);
    var s1 := Step(lc, s, Get(x));
    assert Run(lc, s, []) == s;
    FirstGet(lc, s1, y, uy);
    t := Step(lc, s1, Get(y));
  }

  lemma FirstWrites(lc: Codec, s: State, x: nat, y: nat, ux: Update, uy: Update) returns (t: State)
    requires GoodStart(lc, s) && x in s.bots && y in s.bots && x != y
    requires s.bots[x].job.appID == s.bots[y].job.appID
    requires Begin(s.bots[x].job, LedgerOf(lc, s.Files(), s.bots[x].job.appID)) == Go(ux)
    requires Begin(s.bots[y].job, LedgerOf(lc, s.Files(), s.bots[x].job.appID)) == Go(uy)
    ensures t == Run(lc, s, [Get(x), Get(y), Put(x, false)])
    ensures t.log == [Commit(x, s.bots[x].job.appID, ux)]
    ensures y in t.bots && t.bots[y].job == s.bots[y].job && t.bots[y].phase.Holding?
    ensures t.bots[y].phase.update == uy && t.bots[y].phase.conflicts == 0
    ensures !Accepts(BlobOf(t.blobs, s.bots[y].job.appID), t.bots[y].phase.sha)
  {
    var app := s.bots[x].job.appID;
    var s2 := BothLoaded(lc, s, x, y, ux, uy);
    assert [Get(x), Get(y)] + [Put(x, false)] == [Get(x), Get(y), Put(x, false)];
    RunOneMore(lc, s, [Get(x), Get(y)], Put(x, false));
    HoldsRevisable(lc, s, [Get(x), Get(y)], x);
    CurrentIsAccepted(s.blobs, app);
    AcceptedPut(lc, s2, x);
    t := Step(lc, s2, Put(x, false));
    FreshSha(s.minted, ShaOf(s.blobs, app));
  }

  lemma SecondWrites(lc: Codec, s: State, acts: seq<Action>, y: nat)
    requires GoodStart(lc, s) && y in Run(lc, s, acts).bots
    requires Run(lc, s, acts).bots[y].phase.Holding? && Run(lc, s, acts).bots[y].phase.conflicts == 0
    requires !Accepts(BlobOf(Run(lc, s, acts).blobs, Run(lc, s, acts).bots[y].job.appID),
                      Run(lc, s, acts).bots[y].phase.sha)
    ensures var t := Run(lc, s, acts + [Put(y, false), Get(y), Put(y, false)]);
            t.log == Run(lc, s, acts).log + [Commit(y, Run(lc, s, acts).bots[y].job.appID,
                                                    Run(lc, s, acts).bots[y].phase.update)]
  {
    var s3 := Run(lc, s, acts);
    RunOneMore(lc, s, acts, Put(y, false));
    RunOneMore(lc, s, acts + [Put(y, false)], Get(y));
    RunOneMore(lc, s, acts + [Put(y, false)] + [Get(y)], Put(y, false));
    assert acts + [Put(y, false)] + [Get(y)] + [Put(y, false)] == acts + [Put(y, false), Get(y), Put(y, false)];
    HoldsRevisable(lc, s, acts, y);
    StalePut(lc, s3, y);
    var s4 := Step(lc, s3, Put(y, false));
    RunIsSound(lc, s, acts);
    Reget(lc, s4, y);
    var s5 := Step(lc, s4, Get(y));
    HoldsRevisable(lc, s, acts + [Put(y, false)] + [Get(y)], y);
    CurrentIsAccepted(s4.blobs, s3.bots[y].job.appID);
    AcceptedPut(lc, s5, y);
  }

  /** Both bots of a race commit what they decided on the ledger as it was before either wrote. */
  lemma RaceLog(lc: Codec, s: State, x: nat, y: nat, ux: Update, uy: Update)
    requires GoodStart(lc, s) && x in s.bots && y in s.bots && x != y
    requires s.bots[x].job.appID == s.bots[y].job.appID
    requires Begin(s.bots[x].job, LedgerOf(lc, s.Files(), s.bots[x].job.appID)) == Go(ux)
    requires Begin(s.bots[y].job, LedgerOf(lc, s.Files(), s.bots[x].job.appID)) == Go(uy)
    ensures Run(lc, s, Race(x, y)).log == [Commit(x, s.bots[x].job.appID, ux), Commit(y, s.bots[x].job.appID, uy)]
  {
    var t := FirstWrites(lc, s, x, y, ux, uy);
    SecondWrites(lc, s, [Get(x), Get(y), Put(x, false)], y);
  }

  /** Without the lock first come, first served fails: of two issuers that both find an appId
      unclaimed, the second records its certificate in the ledger the first one's repo owns. */
  lemma UnlockedIssuersBreakOwnership(lc: Codec, s: State, x: nat, y: nat)
    requires GoodStart(lc, s) && x in s.bots && y in s.bots && x != y
    requires s.bots[x].job.Issue? && s.bots[y].job.Issue? && s.bots[x].job.appID == s.bots[y].job.appID
    requires s.bots[x].job.repo != s.bots[y].job.repo
    requires s.bots[x].job.appID !in s.blobs
    ensures var end := LedgerOf(lc, Run(lc, s, Race(x, y)).Files(), s.bots[x].job.appID);
            && end.Some?
            && HasEntry(end.value, s.bots[y].job.entry)
            && end.value.owner.repo == s.bots[x].job.repo
  {
    var app := s.bots[x].job.appID;
    var ux := Append(s.bots[x].job.repo, s.bots[x].job.now, s.bots[x].job.entry);
    var uy := Append(s.bots[y].job.repo, s.bots[y].job.now, s.bots[y].job.entry);
    RaceLog(lc, s, x, y, ux, uy);
    var t := Run(lc, s, Race(x, y));
    RunIsSound(lc, s, Race(x, y));
    assert t.log[..0] == [];
    Ownership.OwnerAfterCommit(lc, s.Files(), t.log, 0);
    Ownership.LogHistory(lc, s.Files(), t.log, 1, 2);
    RecordedAt(lc, s.Files(), t.log, 1);
    LedgerNow(lc, s.Files(), t, app);
  }

  /** Without the lock a self-service retry overwrites a privileged revocation that landed first:
      the certificate stays revoked, but reason, actor and date are the self-service ones. */
  lemma UnlockedRetryOverwritesPrivileged(lc: Codec, s: State, x: nat, y: nat, i: nat)
    requires GoodStart(lc, s) && x in s.bots && y in s.bots && x != y
    requires s.bots[x].job.Privileged? && s.bots[y].job.SelfRevoke? && s.bots[x].job.appID == s.bots[y].job.appID
    requires var l := LedgerOf(lc, s.Files(), s.bots[x].job.appID);
             && l.Some? && i < |l.value.Certs()| && !l.value.Certs()[i].Revoked()
             && (s.bots[x].job.from.Some? ==> l.value.Certs()[i].notBefore <= s.bots[x].job.from.value)
             && FindIn(l.value.Certs(), BySerial(s.bots[x].job.serial)) == i
             && FindIn(l.value.Certs(), ByFingerprint(s.bots[y].job.fingerprint)) == i
    ensures var log := Run(lc, s, Race(x, y)).log;
            && |log| == 2 && log[0].bot == x && log[0].update.Flip?
            && log[0].update.revocation.reason == s.bots[x].job.reason &&
                 log[0].update.revocation.actor == s.bots[x].job.actor
    ensures var end := LedgerOf(lc, Run(lc, s, Race(x, y)).Files(), s.bots[x].job.appID);
            && end.Some? && i < |end.value.Certs()| && end.value.Certs()[i].Revoked()
            && end.value.Certs()[i].reason == "self-service" && end.value.Certs()[i].actor == ""
  {
    var app := s.bots[x].job.appID;
    var l := LedgerOf(lc, s.Files(), app).value;
    var from := if s.bots[x].job.from.Some? then s.bots[x].job.from.value else l.Certs()[i].notBefore;
    var ux := Flip(BySerial(s.bots[x].job.serial), Revocation(s.bots[x].job.reason, from, s.bots[x].job.actor));
    var uy := Flip(ByFingerprint(s.bots[y].job.fingerprint), Revocation("self-service", l.Certs()[i].notBefore, ""));
    RaceLog(lc, s, x, y, ux, uy);
    var t := Run(lc, s, Race(x, y));
    RunIsSound(lc, s, Race(x, y));
    SecondFlip(lc, s.Files(), t.log, app, l, i);
    LedgerNow(lc, s.Files(), t, app);
  }

  lemma FlipLands(lc: Codec, files: Files, c: Commit, i: nat)
    requires lc.Faithful() && HealthyFiles(lc, files) && SoundCommit(lc, files, c) && c.update.Flip?
    requires LedgerOf(lc, files, c.appID).Some?
    requires FindIn(LedgerOf(lc, files, c.appID).value.Certs(), c.update.target) == i
    ensures LedgerOf(lc, Applied(lc, files, c), c.appID).Some?
    ensures var cs := LedgerOf(lc, Applied(lc, files, c), c.appID).value.Certs();
            && i < |cs| && cs[i].Revoked()
            && cs[i].reason == c.update.revocation.reason && cs[i].actor == c.update.revocation.actor
  {
    CommitKeepsHistory(lc, files, c);
  }

  lemma SecondFlip(lc: Codec, files: Files, log: seq<Commit>, appID: string, l: Ledger, i: nat)
    requires lc.Faithful() && HealthyFiles(lc, files) && SoundLog(lc, files, log)
    requires |log| == 2 && log[0].appID == appID && log[1].appID == appID && log[1].update.Flip?
    requires LedgerOf(lc, files, appID) == Some(l) && FindIn(l.Certs(), log[1].update.target) == i
    ensures var end := LedgerAt(lc, files, log, 2, appID);
            && end.Some? && i < |end.value.Certs()| && end.value.Certs()[i].Revoked()
            && end.value.Certs()[i].reason == log[1].update.revocation.reason
            && end.value.Certs()[i].actor == log[1].update.revocation.actor
  {
    assert log[..0] == [];
    Ownership.LogHistory(lc, files, log, 0, 1);
    var middle := LedgerAt(lc, files, log, 1, appID);
    assert LedgerAt(lc, files, log, 0, appID) == Some(l);
    FirstMatchIsStable(l.Certs(), middle.value.Certs(), log[1].update.target);
    CommitAt(lc, files, log, 1);
    ReplayKeepsHistory(lc, files, log[..1]);
    FlipLands(lc, Replay(lc, files, log[..1]), log[1], i);
  }

  // ---- the bound on retries is tight ----

  /** Bot `b` loads; then each of the others commits just before `b` tries to write. */
  function Overtaking(b: nat, others: seq<nat>): (acts: seq<Action>)
    ensures forall i :: 0 <= i < |acts| && acts[i].Put? ==> !acts[i].refused
  {
    if others == [] then [Get(b)]
    else
      var x := others[|others| - 1];
      Overtaking(b, others[..|others| - 1]) + [Get(x), Put(x, false)] + [Put(b, false), Get(b)]
  }

  /** An issuer for a repo that the ledger lets in. */
  predicate Welcome(lc: Codec, s: State, b: nat, appID: string, repo: string) {
    && b in s.bots && s.bots[b].job.Issue? && s.bots[b].job.appID == appID && s.bots[b].job.repo == repo
    && Decide(LedgerOf(lc, s.Files(), appID), repo) in {NewClaim, Allowed}
  }

  /** Bot `b` holds what it loaded last, current, after `k` conflicts. */
  predicate HoldsCurrent(s: State, b: nat, k: nat) {
    && b in s.bots && s.bots[b].phase.Holding? && s.bots[b].phase.conflicts == k
    && s.bots[b].phase.sha == ShaOf(s.blobs, s.bots[b].job.appID)
  }

  lemma RunTwoMore(lc: Codec, s: State, acts: seq<Action>, a: Action, a': Action)
    ensures Run(lc, s, acts + [a, a']) == Step(lc, Step(lc, Run(lc, s, acts), a), a')
  {
    RunOneMore(lc, s, acts, a);
    RunOneMore(lc, s, acts + [a], a');
    assert acts + [a] + [a'] == acts + [a, a'];
  }

  /** `x` commits while `b` holds the ledger: what `b` holds is stale. */
  lemma Overtake(lc: Codec, s: State, acts: seq<Action>, b: nat, x: nat, k: nat, appID: string, repo: string)
    requires GoodStart(lc, s) && b != x
    requires var m := Run(lc, s, acts);
             && Welcome(lc, m, b, appID, repo) && Welcome(lc, m, x, appID, repo) && m.bots[x].phase.Start?
             && HoldsCurrent(m, b, k)
    ensures var m, t := Run(lc, s, acts), Run(lc, s, acts + [Get(x), Put(x, false)]);
            && b in t.bots && t.bots[b] == m.bots[b] && Welcome(lc, t, b, appID, repo)
            && !Accepts(BlobOf(t.blobs, appID), t.bots[b].phase.sha)
            && (forall y :: y in m.bots && y != x ==> y in t.bots && t.bots[y] == m.bots[y])
  {
    var m := Run(lc, s, acts);
    RunIsSound(lc, s, acts);
    CurrentShaMinted(lc, s.Files(), m, appID);
    var t := OvertakeIn(lc, m, b, x, appID, repo);
    RunTwoMore(lc, s, acts, Get(x), Put(x, false));
  }

  lemma OvertakeIn(lc: Codec, m: State, b: nat, x: nat, appID: string, repo: string) returns (t: State)
    requires lc.Faithful() && HealthyFiles(lc, m.Files()) && b != x
    requires Welcome(lc, m, b, appID, repo) && Welcome(lc, m, x, appID, repo) && m.bots[x].phase.Start?
    requires GoodJob(m.bots[x].job)
    requires m.bots[b].phase.Holding? && m.bots[b].phase.sha == ShaOf(m.blobs, appID)
    requires ShaOf(m.blobs, appID) == "" || Minted(ShaOf(m.blobs, appID), m.minted)
    ensures t == Step(lc, Step(lc, m, Get(x)), Put(x, false))
    ensures b in t.bots && t.bots[b] == m.bots[b] && Welcome(lc, t, b, appID, repo)
    ensures !Accepts(BlobOf(t.blobs, appID), t.bots[b].phase.sha)
    ensures forall y :: y in m.bots && y != x ==> y in t.bots && t.bots[y] == m.bots[y]
  {
    var u := Append(repo, m.bots[x].job.now, m.bots[x].job.entry);
    t := SoloCommit(lc, m, x, u);
    StillWelcome(lc, m, t, x, appID, repo, u);
    FreshSha(m.minted, ShaOf(m.blobs, appID));
  }

  lemma CurrentShaMinted(lc: Codec, files: Files, m: State, appID: string)
    requires Inv(lc, files, m)
    ensures ShaOf(m.blobs, appID) == "" || Minted(ShaOf(m.blobs, appID), m.minted)
  {
    assert Holds(lc, ShasMinted, files, m);
  }

  /** `b` meets the conflict and reloads, or gives up. */
  lemma MeetsConflict(lc: Codec, s: State, acts: seq<Action>, b: nat, k: nat, appID: string, repo: string)
    requires GoodStart(lc, s)
    requires var t := Run(lc, s, acts);
             && Welcome(lc, t, b, appID, repo) && t.bots[b].phase.Holding? && t.bots[b].phase.conflicts == k
             && !Accepts(BlobOf(t.blobs, appID), t.bots[b].phase.sha)
    ensures var t, t' := Run(lc, s, acts), Run(lc, s, acts + [Put(b, false), Get(b)]);
            && Welcome(lc, t', b, appID, repo)
            && (if k + 1 < MAX_RETRIES then HoldsCurrent(t', b, k + 1) else t'.bots[b].phase == Done(Conflicted))
            && (forall y :: y in t.bots && y != b ==> y in t'.bots && t'.bots[y] == t.bots[y])
  {
    var t := Run(lc, s, acts);
    RunIsSound(lc, s, acts);
    HoldsRevisable(lc, s, acts, b);
    StalePut(lc, t, b);
    RunTwoMore(lc, s, acts, Put(b, false), Get(b));
    GivesUpOrReloads(lc, Step(lc, t, Put(b, false)), b);
  }

  /** One round: `x` commits, `b` meets the conflict and reloads. */
  lemma OneRound(lc: Codec, s: State, acts: seq<Action>, b: nat, x: nat, k: nat, appID: string, repo: string)
    requires GoodStart(lc, s) && b != x
    requires var m := Run(lc, s, acts);
             && Welcome(lc, m, b, appID, repo) && Welcome(lc, m, x, appID, repo) && m.bots[x].phase.Start?
             && HoldsCurrent(m, b, k)
    ensures var m := Run(lc, s, acts);
            var t := Run(lc, s, acts + [Get(x), Put(x, false)] + [Put(b, false), Get(b)]);
            && Welcome(lc, t, b, appID, repo)
            && (if k + 1 < MAX_RETRIES then HoldsCurrent(t, b, k + 1) else t.bots[b].phase == Done(Conflicted))
            && (forall y :: y in m.bots && y != b && y != x ==> y in t.bots && t.bots[y] == m.bots[y])
  {
    Overtake(lc, s, acts, b, x, k, appID, repo);
    MeetsConflict(lc, s, acts + [Get(x), Put(x, false)], b, k, appID, repo);
  }

  lemma StillWelcome(lc: Codec, m: State, t: State, x: nat, appID: string, repo: string, u: Update)
    requires lc.Faithful() && HealthyFiles(lc, m.Files()) && Welcome(lc, m, x, appID, repo) && GoodJob(m.bots[x].job)
    requires u == Append(repo, m.bots[x].job.now, m.bots[x].job.entry)
    requires t.Files() == Applied(lc, m.Files(), Commit(x, appID, u))
    ensures Decide(LedgerOf(lc, t.Files(), appID), repo) == Allowed
  {
    CommitKeepsHistory(lc, m.Files(), Commit(x, appID, u));
  }

  lemma GivesUpOrReloads(lc: Codec, s: State, b: nat)
    requires b in s.bots && s.bots[b].phase.Reloading? && HealthyFiles(lc, s.Files())
    ensures var t := Step(lc, s, Get(b));
            && t.blobs == s.blobs && b in t.bots && t.bots[b].job == s.bots[b].job
            && (forall y :: y in s.bots && y != b ==> y in t.bots && t.bots[y] == s.bots[y])
            && (if s.bots[b].phase.conflicts < MAX_RETRIES then HoldsCurrent(t, b, s.bots[b].phase.conflicts)
                else t.bots[b].phase == Done(Conflicted))
  {
    LoadedText(lc, s.Files(), s.bots[b].job.appID);
  }

  lemma {:induction false} AfterRounds(lc: Codec, s: State, b: nat, others: seq<nat>, appID: string, repo: string)
    requires GoodStart(lc, s) && Welcome(lc, s, b, appID, repo)
    requires |others| <= MAX_RETRIES && b !in others
    requires forall i, j :: 0 <= i < j < |others| ==> others[i] != others[j]
    requires forall i :: 0 <= i < |others| ==> Welcome(lc, s, others[i], appID, repo)
    ensures var t := Run(lc, s, Overtaking(b, others));
            && Welcome(lc, t, b, appID, repo)
            && (if |others| < MAX_RETRIES then HoldsCurrent(t, b, |others|) else t.bots[b].phase == Done(Conflicted))
            && (forall y :: y in s.bots && y != b && y !in others ==> y in t.bots && t.bots[y] == s.bots[y])
  {
    if others == [] {
      RunOneMore(lc, s, [], Get(b));
      assert [] + [Get(b)] == [Get(b)] && Run(lc, s, []) == s;
      FirstGet(lc, s, b, Append(repo, s.bots[b].job.now, s.bots[b].job.entry));
    } else {
      var init, x := others[..|others| - 1], others[|others| - 1];
      assert forall i :: 0 <= i < |init| ==> init[i] == others[i];
      AfterRounds(lc, s, b, init, appID, repo);
      assert x !in init;
      OneRound(lc, s, Overtaking(b, init), b, x, |init|, appID, repo);
    }
  }

  /** Five others are enough: with six bots on one ledger there is an interleaving, without any
      refusal, in which one of them gives up. */
  lemma SixthContenderCanGiveUp(lc: Codec, s: State, b: nat, others: seq<nat>, appID: string, repo: string)
    requires GoodStart(lc, s) && Welcome(lc, s, b, appID, repo)
    requires |others| == 5 && b !in others
    requires forall i, j :: 0 <= i < j < |others| ==> others[i] != others[j]
    requires forall i :: 0 <= i < |others| ==> Welcome(lc, s, others[i], appID, repo)
    ensures b in Run(lc, s, Overtaking(b, others)).bots
    ensures Run(lc, s, Overtaking(b, others)).bots[b].phase == Done(Conflicted)
  {
    AfterRounds(lc, s, b, others, appID, repo);
  }
}
