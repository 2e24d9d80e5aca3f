/** What a privileged revocation dated in the year 10000 or later does. The write succeeds, and the
    ledger cannot be read from then on. It harms no other ledger: on each of those a run shows what
    the same run shows without such dates. */
module FarDates {
  import opened Wrappers
  import opened Ledger
  import opened Updates
  import opened Blobs
  import opened Protocol
  import opened History
  import Ownership
  import Timestamp

  predicate FarUpdate(u: Update) {
    u.Flip? && u.revocation.revokedFrom >= Timestamp.MAX_INSTANT
  }

  /** A commit to this ledger carried a far date. */
  ghost predicate Spoilt(log: seq<Commit>, appID: string) {
    exists k :: 0 <= k < |log| && SpoiltAt(log, k, appID)
  }

  predicate SpoiltAt(log: seq<Commit>, k: nat, appID: string)
    requires k < |log|
  {
    log[k].appID == appID && FarUpdate(log[k].update)
  }

  lemma SpoiltOneMore(log: seq<Commit>, c: Commit, appID: string)
    ensures Spoilt(log + [c], appID) <==> Spoilt(log, appID) || (c.appID == appID && FarUpdate(c.update))
  {
    if c.appID == appID && FarUpdate(c.update) {
      assert SpoiltAt(log + [c], |log|, appID);
    }
    if Spoilt(log, appID) {
      var k :| 0 <= k < |log| && SpoiltAt(log, k, appID);
      assert SpoiltAt(log + [c], k, appID);
    }
    if Spoilt(log + [c], appID) {
      var k :| 0 <= k < |log + [c]| && SpoiltAt(log + [c], k, appID);
      assert k < |log| ==> SpoiltAt(log, k, appID);
    }
  }

  lemma {:induction false} SpoiltStays(log: seq<Commit>, later: seq<Commit>, appID: string)
    requires log <= later && Spoilt(log, appID)
    ensures Spoilt(later, appID)
  {
    var k :| 0 <= k < |log| && SpoiltAt(log, k, appID);
    assert SpoiltAt(later, k, appID);
  }

  // ---- one write ----

  const FAR_DATE := "9999-12-31T23:59:59-01:00"

  /** REVOKED_FROM is any RFC 3339 date with four year digits. With an offset it can lie in the next
      millennium, and then no ledger with it can be read back. */
  lemma FarDateIsAccepted()
    ensures Timestamp.ParseTimestamp(FAR_DATE) == Some(Timestamp.MAX_INSTANT + 3_599_000_000_000)
  {
    assert FAR_DATE[19..] == "-01:00";
    assert Timestamp.Zone("-01:00") == Some(-3600);
    assert Timestamp.Date(9999, 12, 31).Valid() && Timestamp.Date(9999, 12, 31).Days() == 3652058;
  }

  /** A flip leaves its ledger readable if and only if its date is one that can be printed. */
  lemma FlipReadableIffNear(lc: Codec, text: Option<string>, appID: string, u: Update)
    requires lc.Faithful() && u.Flip?
    requires Load(lc, text).Some? && Load(lc, text).value.Some? && Healthy(Load(lc, text).value.value)
    requires var cs := Load(lc, text).value.value.Certs();
             FindIn(cs, u.target) >= 0 && cs[FindIn(cs, u.target)].notBefore <= u.revocation.revokedFrom
    ensures Written(lc, text, appID, u).Some?
    ensures lc.parse(Written(lc, text, appID, u).value).Some? <==> !FarUpdate(u)
  {
    var l := Load(lc, text).value.value;
    var i := FindIn(l.Certs(), u.target);
    var revised := Revise(Some(l), appID, u).value;
    assert lc.RoundTrips(revised);
    StoredCerts(l, i);
    assert revised.Certs()[i] == RevokedCert(l.Certs()[i], u.revocation);
    if !FarUpdate(u) {
      forall k | 0 <= k < |revised.Certs()|
        ensures revised.Certs()[k].WellFormed() && revised.Certs()[k].InRange()
      {
        StoredCerts(l, k);
      }
    }
  }

  /** The same for a commit among healthy files. */
  lemma CommitReadableIffNear(lc: Codec, files: Files, c: Commit)
    requires lc.Faithful() && HealthyFiles(lc, files) && c.update.Flip?
    requires var l := LedgerOf(lc, files, c.appID);
             && l.Some? && FindIn(l.value.Certs(), c.update.target) >= 0
             && l.value.Certs()[FindIn(l.value.Certs(), c.update.target)].notBefore <= c.update.revocation.revokedFrom
    ensures LedgerOf(lc, Applied(lc, files, c), c.appID).Some? <==>
              c.update.revocation.revokedFrom < Timestamp.MAX_INSTANT
    ensures forall a :: a in files && a != c.appID ==> Applied(lc, files, c)[a] == files[a]
  {
    LoadedText(lc, files, c.appID);
    FlipReadableIffNear(lc, TextOf(files, c.appID), c.appID, c.update);
    AppliedWrites(lc, files, c, Written(lc, TextOf(files, c.appID), c.appID, c.update).value);
  }

  // ---- the same run without far dates ----

  function Tame(job: Job): Job {
    if FarJob(job) then job.(from := None) else job
  }

  function Tamed(s: State): State {
    s.(bots := map b | b in s.bots :: s.bots[b].(job := Tame(s.bots[b].job)))
  }

  lemma TamedIsGood(lc: Codec, s: State)
    requires AnyStart(lc, s)
    ensures GoodStart(lc, Tamed(s))
  {}

  /** Updates, phases and bots that differ in a far date only. */
  predicate AlikeUpdate(job: Job, u: Update, v: Update) {
    if FarJob(job) then FarUpdate(u) && v.Flip? && v.target == u.target else v == u
  }

  predicate AlikePhase(job: Job, p: Phase, q: Phase) {
    match p
    case Start => q.Start?
    case Holding(u, held, sha, n) => q.Holding? && AlikeUpdate(job, u, q.update) && q == Holding(q.update, held, sha, n)
    case Reloading(u, n) => q.Reloading? && AlikeUpdate(job, u, q.update) && q.conflicts == n
    case Done(_) => q == p
  }

  predicate Alike(x: Bot, y: Bot) {
    && y.job == Tame(x.job) && AlikePhase(x.job, x.phase, y.phase)
    && y.first == x.first && y.latest == x.latest && y.tried == x.tried
  }

  predicate AlikeCommit(c: Commit, d: Commit) {
    d.bot == c.bot && d.appID == c.appID && d.update.Flip? == c.update.Flip? && (!FarUpdate(c.update) ==> d == c)
  }

  predicate AlikeLogs(log: seq<Commit>, tame: seq<Commit>) {
    |tame| == |log| && forall k :: 0 <= k < |log| ==> AlikeCommit(log[k], tame[k])
  }

  /** A spoilt ledger cannot be read; any other is the same in both states. */
  ghost predicate LedgerShadow(lc: Codec, s: State, t: State, appID: string) {
    if Spoilt(s.log, appID) then Broken(lc, s, appID) else BlobOf(t.blobs, appID) == BlobOf(s.blobs, appID)
  }

  predicate Broken(lc: Codec, s: State, appID: string) {
    appID in s.blobs && lc.parse(s.blobs[appID].content).None?
  }

  /** So are the bots at work on it. */
  ghost predicate BotShadow(s: State, t: State, b: nat)
    requires b in s.bots && b in t.bots
  {
    && t.bots[b].job == Tame(s.bots[b].job)
    && (!Spoilt(s.log, s.bots[b].job.appID) ==> Alike(s.bots[b], t.bots[b]))
  }

  /** `t` is `s` as it would be without far dates, on every ledger that is not spoilt. */
  ghost predicate Shadows(lc: Codec, s: State, t: State) {
    && t.minted == s.minted && t.bots.Keys == s.bots.Keys && AlikeLogs(s.log, t.log)
    && (forall a :: LedgerShadow(lc, s, t, a))
    && (forall b :: b in s.bots ==> BotShadow(s, t, b))
  }

  /** Nothing more is written to a ledger once it is spoilt. */
  ghost function TameAction(m: State, a: Action): Action {
    if a.Put? && a.bot in m.bots && Spoilt(m.log, m.bots[a.bot].job.appID) then Put(a.bot, true) else a
  }

  ghost function TameActions(lc: Codec, s: State, acts: seq<Action>): (r: seq<Action>)
    ensures |r| == |acts|
  {
    if acts == [] then []
    else
      var init, a := acts[..|acts| - 1], acts[|acts| - 1];
      TameActions(lc, s, init) + [TameAction(Run(lc, s, init), a)]
  }

  lemma StartShadow(lc: Codec, s: State)
    requires AnyStart(lc, s)
    ensures Shadows(lc, s, Tamed(s))
  {}

  lemma MoveShadow(lc: Codec, s: State, t: State, b: nat, x: Bot, y: Bot)
    requires Shadows(lc, s, t) && b in s.bots && x.job == s.bots[b].job && y.job == t.bots[b].job
    requires Spoilt(s.log, x.job.appID) || Alike(x, y)
    ensures Shadows(lc, WithPhase(s, b, x), WithPhase(t, b, y))
  {
    var s', t' := WithPhase(s, b, x), WithPhase(t, b, y);
    forall a
      ensures LedgerShadow(lc, s', t', a)
    {
      assert LedgerShadow(lc, s, t, a);
    }
    forall z | z in s'.bots
      ensures BotShadow(s', t', z)
    {
      assert BotShadow(s, t, z);
    }
  }

  lemma Stays(s: State, b: nat)
    requires b in s.bots
    ensures WithPhase(s, b, s.bots[b]) == s
  {
    assert s.bots[b := s.bots[b]] == s.bots;
  }

  // ---- its steps ----

  lemma SameText(lc: Codec, s: State, t: State, appID: string)
    requires LedgerShadow(lc, s, t, appID) && !Spoilt(s.log, appID)
    ensures TextOf(t.Files(), appID) == TextOf(s.Files(), appID) && ShaOf(t.blobs, appID) == ShaOf(s.blobs, appID)
  {}

  /** A far date is no earlier than the notBefore of any certificate, so the choice differs in the
      date only. */
  lemma AlikeChoice(job: Job, existing: Option<Ledger>)
    requires existing.Some? ==> Healthy(existing.value)
    ensures match Begin(job, existing)
            case Stop(outcome) => Begin(Tame(job), existing) == Stop(outcome)
            case Go(u) => Begin(Tame(job), existing).Go? && AlikeUpdate(job, u, Begin(Tame(job), existing).update)
  {
    if FarJob(job) && existing.Some? {
      var i := FindIn(existing.value.Certs(), BySerial(job.serial));
      if i >= 0 {
        StoredCerts(existing.value, i);
      }
    }
  }

  lemma FirstLoadShadow(lc: Codec, s: State, t: State, x: Bot, y: Bot)
    requires Alike(x, y) && x.phase.Start? && |t.log| == |s.log|
    requires TextOf(t.Files(), x.job.appID) == TextOf(s.Files(), x.job.appID)
    requires ShaOf(t.blobs, x.job.appID) == ShaOf(s.blobs, x.job.appID)
    requires HealthyFiles(lc, t.Files())
    ensures Alike(FirstLoad(lc, s, x), FirstLoad(lc, t, y))
  {
    LoadedText(lc, t.Files(), x.job.appID);
    AlikeChoice(x.job, LedgerOf(lc, t.Files(), x.job.appID));
  }

  lemma ReloadShadow(lc: Codec, s: State, t: State, x: Bot, y: Bot)
    requires Alike(x, y) && x.phase.Reloading? && |t.log| == |s.log|
    requires TextOf(t.Files(), x.job.appID) == TextOf(s.Files(), x.job.appID)
    requires ShaOf(t.blobs, x.job.appID) == ShaOf(s.blobs, x.job.appID)
    ensures Alike(Reload(lc, s, x), Reload(lc, t, y))
  {}

  lemma AlikeGet(lc: Codec, s: State, t: State, x: Bot, y: Bot)
    requires Alike(x, y) && |t.log| == |s.log| && HealthyFiles(lc, t.Files())
    requires LedgerShadow(lc, s, t, x.job.appID) && !Spoilt(s.log, x.job.appID)
    ensures Alike(AfterGet(lc, s, x), AfterGet(lc, t, y))
  {
    SameText(lc, s, t, x.job.appID);
    if x.phase.Start? {
      FirstLoadShadow(lc, s, t, x, y);
    } else if x.phase.Reloading? {
      ReloadShadow(lc, s, t, x, y);
    }
  }

  lemma GetShadow(lc: Codec, s: State, t: State, b: nat)
    requires Shadows(lc, s, t) && HealthyFiles(lc, t.Files()) && b in s.bots
    ensures Shadows(lc, Step(lc, s, Get(b)), Step(lc, t, Get(b)))
  {
    var x, y := s.bots[b], t.bots[b];
    assert BotShadow(s, t, b) && LedgerShadow(lc, s, t, x.job.appID);
    GetMoves(lc, s, b);
    GetMoves(lc, t, b);
    if !Spoilt(s.log, x.job.appID) {
      AlikeGet(lc, s, t, x, y);
    }
    MoveShadow(lc, s, t, b, AfterGet(lc, s, x), AfterGet(lc, t, y));
  }

  lemma GetMoves(lc: Codec, s: State, b: nat)
    requires b in s.bots
    ensures Step(lc, s, Get(b)) == WithPhase(s, b, AfterGet(lc, s, s.bots[b]))
  {
    Stays(s, b);
  }

  function AfterGet(lc: Codec, s: State, x: Bot): Bot {
    if x.phase.Start? then FirstLoad(lc, s, x) else if x.phase.Reloading? then Reload(lc, s, x) else x
  }

  lemma FaultShadow(lc: Codec, s: State, t: State, b: nat)
    requires Shadows(lc, s, t) && b in s.bots
    ensures Shadows(lc, Step(lc, s, Fault(b)), Step(lc, t, Fault(b)))
  {
    var x, y := s.bots[b], t.bots[b];
    assert BotShadow(s, t, b);
    Stays(s, b);
    Stays(t, b);
    MoveShadow(lc, s, t, b, AfterFault(x), AfterFault(y));
  }

  function AfterFault(x: Bot): Bot {
    if x.phase.Done? then x else x.(phase := Done(Faulted))
  }

  /** A write that does not land. */
  function AfterRefusal(s: State, x: Bot, text: Option<string>): Bot {
    if !x.phase.Holding? then x
    else if text.None? then x.(phase := Done(Vanished))
    else x.(phase := Reloading(x.phase.update, x.phase.conflicts + 1), tried := |s.log|)
  }

  function TextBy(lc: Codec, x: Bot): Option<string> {
    if x.phase.Holding? then Revised(lc, x) else None
  }

  predicate Lands(lc: Codec, s: State, b: nat, refused: bool)
    requires b in s.bots
  {
    && s.bots[b].phase.Holding? && Revised(lc, s.bots[b]).Some?
    && !refused && Accepts(BlobOf(s.blobs, s.bots[b].job.appID), s.bots[b].phase.sha)
  }

  lemma PutMoves(lc: Codec, s: State, b: nat, refused: bool)
    requires b in s.bots && !Lands(lc, s, b, refused)
    ensures Step(lc, s, Put(b, refused)) == WithPhase(s, b, AfterRefusal(s, s.bots[b], TextBy(lc, s.bots[b])))
  {
    Stays(s, b);
  }

  lemma PutLands(lc: Codec, s: State, b: nat, refused: bool)
    requires b in s.bots && Lands(lc, s, b, refused)
    ensures Step(lc, s, Put(b, refused)) == AfterCommit(s, b, Revised(lc, s.bots[b]).value)
  {}

  /** Nothing lands on a ledger that cannot be read: whoever holds its SHA has read it. */
  lemma NothingLandsOnSpoilt(lc: Codec, files: Files, s: State, b: nat, refused: bool)
    requires Inv(lc, files, s) && b in s.bots && Broken(lc, s, s.bots[b].job.appID)
    ensures !Lands(lc, s, b, refused)
  {
    assert Holds(lc, BotsConsistent, files, s);
    assert BotInv(lc, files, s, s.bots[b]);
  }

  lemma AlikeRevision(lc: Codec, x: Bot, y: Bot)
    requires Alike(x, y) && x.phase.Holding?
    ensures Revised(lc, x).Some? <==> Revised(lc, y).Some?
    ensures !FarJob(x.job) ==> Revised(lc, x) == Revised(lc, y)
  {}

  lemma PutShadow(lc: Codec, files: Files, s: State, t: State, b: nat, refused: bool)
    requires lc.Faithful() && Inv(lc, files, s) && Shadows(lc, s, t) && b in s.bots
    ensures Shadows(lc, Step(lc, s, Put(b, refused)), Step(lc, t, TameAction(s, Put(b, refused))))
  {
    var x, y := s.bots[b], t.bots[b];
    assert BotShadow(s, t, b) && LedgerShadow(lc, s, t, x.job.appID);
    if Spoilt(s.log, x.job.appID) {
      NothingLandsOnSpoilt(lc, files, s, b, refused);
      RefusalShadow(lc, s, t, b, refused, true);
    } else {
      AlikeAttempt(lc, s, t, b, refused);
      if Lands(lc, s, b, refused) {
        PutLands(lc, s, b, refused);
        PutLands(lc, t, b, refused);
        CommitShadow(lc, s, t, b);
      } else {
        RefusalShadow(lc, s, t, b, refused, refused);
      }
    }
  }

  lemma AlikeAttempt(lc: Codec, s: State, t: State, b: nat, refused: bool)
    requires b in s.bots && b in t.bots && Alike(s.bots[b], t.bots[b])
    requires BlobOf(t.blobs, s.bots[b].job.appID) == BlobOf(s.blobs, s.bots[b].job.appID) && |t.log| == |s.log|
    ensures Lands(lc, s, b, refused) <==> Lands(lc, t, b, refused)
    ensures var x, y := s.bots[b], t.bots[b];
            !Lands(lc, s, b, refused) ==> Alike(AfterRefusal(s, x, TextBy(lc, x)), AfterRefusal(t, y, TextBy(lc, y)))
  {
    if s.bots[b].phase.Holding? {
      AlikeRevision(lc, s.bots[b], t.bots[b]);
    }
  }

  lemma RefusalShadow(lc: Codec, s: State, t: State, b: nat, refused: bool, tame: bool)
    requires Shadows(lc, s, t) && b in s.bots && !Lands(lc, s, b, refused) && !Lands(lc, t, b, tame)
    requires var x, y := s.bots[b], t.bots[b];
             || Spoilt(s.log, x.job.appID)
             || Alike(AfterRefusal(s, x, TextBy(lc, x)), AfterRefusal(t, y, TextBy(lc, y)))
    ensures Shadows(lc, Step(lc, s, Put(b, refused)), Step(lc, t, Put(b, tame)))
  {
    var x, y := s.bots[b], t.bots[b];
    PutMoves(lc, s, b, refused);
    PutMoves(lc, t, b, tame);
    MoveShadow(lc, s, t, b, AfterRefusal(s, x, TextBy(lc, x)), AfterRefusal(t, y, TextBy(lc, y)));
  }

  /** What a far date makes of a ledger cannot be read. */
  lemma FarIsUnreadable(lc: Codec, x: Bot)
    requires lc.Faithful() && x.phase.Holding? && FarUpdate(x.phase.update) && Revised(lc, x).Some?
    ensures lc.parse(Revised(lc, x).value).None?
  {
    var l := Revise(x.phase.held, x.job.appID, x.phase.update).value;
    assert lc.RoundTrips(l);
    var i := FindIn(x.phase.held.value.Certs(), x.phase.update.target);
    assert l.Certs()[i] == RevokedCert(x.phase.held.value.Certs()[i], x.phase.update.revocation);
  }

  lemma WrittenShadow(lc: Codec, s: State, t: State, b: nat, a: string)
    requires lc.Faithful() && LedgerShadow(lc, s, t, a) && b in s.bots && b in t.bots && Alike(s.bots[b], t.bots[b])
    requires Lands(lc, s, b, false) && Lands(lc, t, b, false) && t.minted == s.minted
    requires !Spoilt(s.log, s.bots[b].job.appID)
    ensures LedgerShadow(lc, AfterCommit(s, b, Revised(lc, s.bots[b]).value),
                         AfterCommit(t, b, Revised(lc, t.bots[b]).value), a)
  {
    var x := s.bots[b];
    AlikeRevision(lc, x, t.bots[b]);
    SpoiltOneMore(s.log, Commit(b, x.job.appID, x.phase.update), a);
    if FarUpdate(x.phase.update) {
      FarIsUnreadable(lc, x);
    }
  }

  lemma WriterShadow(lc: Codec, s: State, t: State, b: nat, z: nat)
    requires b in s.bots && b in t.bots && z in s.bots && z in t.bots && BotShadow(s, t, z)
    requires Lands(lc, s, b, false) && Lands(lc, t, b, false) && BotShadow(s, t, b)
    ensures BotShadow(AfterCommit(s, b, Revised(lc, s.bots[b]).value),
                      AfterCommit(t, b, Revised(lc, t.bots[b]).value), z)
  {
    var x := s.bots[b];
    SpoiltOneMore(s.log, Commit(b, x.job.appID, x.phase.update), s.bots[z].job.appID);
  }

  lemma CommitShadow(lc: Codec, s: State, t: State, b: nat)
    requires lc.Faithful() && Shadows(lc, s, t) && b in s.bots && Lands(lc, s, b, false) && Lands(lc, t, b, false)
    requires !Spoilt(s.log, s.bots[b].job.appID)
    ensures Shadows(lc, AfterCommit(s, b, Revised(lc, s.bots[b]).value),
                    AfterCommit(t, b, Revised(lc, t.bots[b]).value))
  {
    var x, y := s.bots[b], t.bots[b];
    assert BotShadow(s, t, b);
    AlikeRevision(lc, x, y);
    var s', t' := AfterCommit(s, b, Revised(lc, x).value), AfterCommit(t, b, Revised(lc, y).value);
    forall a
      ensures LedgerShadow(lc, s', t', a)
    {
      assert LedgerShadow(lc, s, t, a);
      WrittenShadow(lc, s, t, b, a);
    }
    forall z | z in s'.bots
      ensures BotShadow(s', t', z)
    {
      assert BotShadow(s, t, z);
      WriterShadow(lc, s, t, b, z);
    }
  }

  lemma StepShadow(lc: Codec, files: Files, s: State, t: State, a: Action)
    requires lc.Faithful() && Inv(lc, files, s) && HealthyFiles(lc, t.Files()) && Shadows(lc, s, t)
    ensures Shadows(lc, Step(lc, s, a), Step(lc, t, TameAction(s, a)))
  {
    if a.bot in s.bots {
      match a
      case Get(b) => GetShadow(lc, s, t, b);
      case Put(b, refused) => PutShadow(lc, files, s, t, b, refused);
      case Fault(b) => FaultShadow(lc, s, t, b);
    }
  }

  /** Every run with far dates has a run without them that shows the same on every ledger that is
      not spoilt, and in every bot at work on one. */
  lemma {:induction false} RunShadow(lc: Codec, s: State, acts: seq<Action>)
    requires AnyStart(lc, s)
    ensures Shadows(lc, Run(lc, s, acts), Run(lc, Tamed(s), TameActions(lc, s, acts)))
  {
    var tame := TameActions(lc, s, acts);
    if acts == [] {
      StartShadow(lc, s);
    } else {
      var init := acts[..|acts| - 1];
      RunShadow(lc, s, init);
      assert tame[..|tame| - 1] == TameActions(lc, s, init);
      TamedIsGood(lc, s);
      RunIsSound(lc, Tamed(s), TameActions(lc, s, init));
      RunInv(lc, s, init);
      StepShadow(lc, s.Files(), Run(lc, s, init), Run(lc, Tamed(s), TameActions(lc, s, init)), acts[|acts| - 1]);
    }
  }
}
