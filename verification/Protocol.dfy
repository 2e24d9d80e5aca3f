/** The ledger protocol with any number of bots interleaved at every read and every write: each
    bot loads a ledger, decides, and then tries up to five times to write it back by
    compare-and-swap, reloading after each conflict (commitLedger and applyRevocation). A run is
    any sequence of actions; a write may also be refused for no reason, and a bot may be cut off
    at any point. The log is a history of the successful writes. */
module Protocol {
  import opened Wrappers
  import opened Ledger
  import opened Updates
  import opened Blobs

  const MAX_RETRIES := 5

  /** What a bot was started for. The issuer's certificate is already signed; its clock reading is
      what a new claim would record. */
  datatype Job =
    | Issue(appID: string, repo: string, now: int, entry: Certificate)
    | SelfRevoke(appID: string, fingerprint: string)
    | Privileged(appID: string, serial: string, reason: string, actor: string, from: Option<int>)

  datatype Outcome =
    | Committed
    | Rejected(decision: Decision)
    | NotFound
    | AlreadyRevoked
    | BadDate
    | Vanished
    | Conflicted
    | ParseFailed
    | Faulted

  /** Where a bot stands: about to load, about to write what it holds, about to reload after
      `conflicts` conflicts, or finished. */
  datatype Phase =
    | Start
    | Holding(update: Update, held: Option<Ledger>, sha: string, conflicts: nat)
    | Reloading(update: Update, conflicts: nat)
    | Done(outcome: Outcome)

  /** The numbers are positions in the log: at the first load, at the latest load, and at the
      latest attempt to write. */
  datatype Bot = Bot(job: Job, phase: Phase, first: nat, latest: nat, tried: nat)

  datatype State = State(blobs: BlobMap, minted: nat, bots: map<nat, Bot>, log: seq<Commit>) {
    function Files(): Files { Texts(blobs) }
  }

  datatype Action =
    | Get(bot: nat)
    | Put(bot: nat, refused: bool)
    | Fault(bot: nat)

  datatype Choice = Go(update: Update) | Stop(outcome: Outcome)

  /** What a bot does with the ledger it loaded first: the ownership check of enroll.Process, or
      the lookup, status check and date of revoke.Process and PrivilegedProcess. */
  function Begin(job: Job, existing: Option<Ledger>): Choice {
    match job
    case Issue(_, repo, now, entry) =>
      (match Decide(existing, repo)
       case NewClaim => Go(Append(repo, now, entry))
       case Allowed => Go(Append(repo, now, entry))
       case d => Stop(Rejected(d)))
    case SelfRevoke(_, fp) =>
      if existing.None? then Stop(NotFound)
      else
        var cs := existing.value.Certs();
        var i := FindIn(cs, ByFingerprint(fp));
        if i < 0 then Stop(NotFound)
        else if cs[i].Revoked() then Stop(AlreadyRevoked)
        else Go(Flip(ByFingerprint(fp), Revocation("self-service", cs[i].notBefore, "")))
    case Privileged(_, serial, reason, actor, from) =>
      if existing.None? then Stop(NotFound)
      else
        var cs := existing.value.Certs();
        var i := FindIn(cs, BySerial(serial));
        if i < 0 then Stop(NotFound)
        else if from.Some? && from.value < cs[i].notBefore then Stop(BadDate)
        else Go(Flip(BySerial(serial), Revocation(reason, if from.Some? then from.value else cs[i].notBefore, actor)))
  }

  function WithPhase(s: State, b: nat, bot: Bot): State {
    s.(bots := s.bots[b := bot])
  }

  function Loaded(lc: Codec, s: State, bot: Bot): Option<Option<Ledger>> {
    Load(lc, TextOf(s.Files(), bot.job.appID))
  }

  function FirstLoad(lc: Codec, s: State, bot: Bot): Bot {
    match Loaded(lc, s, bot)
    case None => bot.(phase := Done(ParseFailed))
    case Some(existing) =>
      (match Begin(bot.job, existing)
       case Stop(outcome) => bot.(phase := Done(outcome))
       case Go(u) =>
         bot.(phase := Holding(u, existing, ShaOf(s.blobs, bot.job.appID), 0),
              first := |s.log|, latest := |s.log|))
  }

  /** The reload after a conflict comes before the loop gives up. */
  function Reload(lc: Codec, s: State, bot: Bot): Bot
    requires bot.phase.Reloading?
  {
    var Reloading(u, n) := bot.phase;
    match Loaded(lc, s, bot)
    case None => bot.(phase := Done(ParseFailed))
    case Some(existing) =>
      if n >= MAX_RETRIES then bot.(phase := Done(Conflicted))
      else bot.(phase := Holding(u, existing, ShaOf(s.blobs, bot.job.appID), n), latest := |s.log|)
  }

  /** The state after bot `b` has written `text`. */
  function AfterCommit(s: State, b: nat, text: string): State
    requires b in s.bots && s.bots[b].phase.Holding?
  {
    var bot := s.bots[b];
    var app := bot.job.appID;
    State(s.blobs[app := Blob(text, MintedName(s.minted + 1))],
          s.minted + 1,
          s.bots[b := bot.(phase := Done(Committed))],
          s.log + [Commit(b, app, bot.phase.update)])
  }

  /** The text a bot writes: the revised copy, marshalled. None when its target is gone. */
  function Revised(lc: Codec, bot: Bot): Option<string>
    requires bot.phase.Holding?
  {
    var l :- Revise(bot.phase.held, bot.job.appID, bot.phase.update);
    Some(lc.marshal(l))
  }

  /** One compare-and-swap of that text. */
  function Attempt(s: State, b: nat, refused: bool, text: Option<string>): State
    requires b in s.bots && s.bots[b].phase.Holding?
  {
    var bot := s.bots[b];
    var Holding(u, _, sha, n) := bot.phase;
    match text
    case None => WithPhase(s, b, bot.(phase := Done(Vanished)))
    case Some(written) =>
      if refused || !Accepts(BlobOf(s.blobs, bot.job.appID), sha)
      then WithPhase(s, b, bot.(phase := Reloading(u, n + 1), tried := |s.log|))
      else AfterCommit(s, b, written)
  }

  /** One action; one that is not enabled changes nothing. */
  function Step(lc: Codec, s: State, a: Action): State {
    if a.bot !in s.bots then s
    else
      var bot := s.bots[a.bot];
      match a
      case Get(b) =>
        if bot.phase.Start? then WithPhase(s, b, FirstLoad(lc, s, bot))
        else if bot.phase.Reloading? then WithPhase(s, b, Reload(lc, s, bot))
        else s
      case Put(b, refused) =>
        if bot.phase.Holding? then Attempt(s, b, refused, Revised(lc, bot)) else s
      case Fault(b) =>
        if bot.phase.Done? then s else WithPhase(s, b, bot.(phase := Done(Faulted)))
  }

  function Run(lc: Codec, s: State, acts: seq<Action>): State {
    if acts == [] then s
    else Step(lc, Run(lc, s, acts[..|acts| - 1]), acts[|acts| - 1])
  }

  lemma RunOneMore(lc: Codec, s: State, acts: seq<Action>, a: Action)
    ensures Run(lc, s, acts + [a]) == Step(lc, Run(lc, s, acts), a)
  {
    assert (acts + [a])[..|acts + [a]| - 1] == acts;
  }

  /** Nothing committed yet, no bot under way, every SHA minted. */
  ghost predicate Initial(s: State) {
    && s.log == []
    && (forall b :: b in s.bots ==> s.bots[b].phase.Start?)
    && (forall a :: a in s.blobs ==> Minted(s.blobs[a].sha, s.minted))
  }

  // ---- the invariant of every interleaving ----

  function CommitsBy(log: seq<Commit>, b: nat): nat {
    if log == [] then 0
    else CommitsBy(log[..|log| - 1], b) + (if log[|log| - 1].bot == b then 1 else 0)
  }

  /** The ledger of an appId after the first `k` commits. */
  function LedgerAt(lc: Codec, files: Files, log: seq<Commit>, k: nat, appID: string): Option<Ledger>
    requires k <= |log|
  {
    LedgerOf(lc, Replay(lc, files, log[..k]), appID)
  }

  predicate UnderWay(p: Phase) { p.Holding? || p.Reloading? }

  /** A bot under way carries the update it chose on its first load, and holds the ledger of its
      latest load. If its SHA would still be accepted, nothing has changed since. */
  ghost predicate BotInv(lc: Codec, files: Files, s: State, bot: Bot) {
    var app := bot.job.appID;
    && (UnderWay(bot.phase) ==>
          && bot.first <= bot.latest <= |s.log|
          && Begin(bot.job, LedgerAt(lc, files, s.log, bot.first, app)) == Go(bot.phase.update))
    && (bot.phase.Holding? ==>
          && bot.phase.held == LedgerAt(lc, files, s.log, bot.latest, app)
          && (bot.phase.sha == "" || Minted(bot.phase.sha, s.minted))
          && (Accepts(BlobOf(s.blobs, app), bot.phase.sha) ==> Loaded(lc, s, bot) == Some(bot.phase.held)))
  }

  /** A commit in the log was made by a bot of that appId that has reported success, with the
      update it chose on its first load. */
  ghost predicate LogInv(lc: Codec, files: Files, s: State, k: nat)
    requires k < |s.log|
  {
    var c := s.log[k];
    && c.bot in s.bots
    && var bot := s.bots[c.bot];
       && bot.phase == Done(Committed)
       && bot.job.appID == c.appID
       && bot.first <= k
       && Begin(bot.job, LedgerAt(lc, files, s.log, bot.first, c.appID)) == Go(c.update)
  }

  /** The clauses of the invariant, named so that a proof can ask for the one it needs. */
  datatype Clause = FilesReplay | ShasMinted | BotsConsistent | OneCommitEach | LogJustified

  ghost predicate Holds(lc: Codec, k: Clause, files: Files, s: State) {
    match k
    case FilesReplay => s.Files() == Replay(lc, files, s.log)
    case ShasMinted => forall a :: a in s.blobs ==> Minted(s.blobs[a].sha, s.minted)
    case BotsConsistent => forall b :: b in s.bots ==> BotInv(lc, files, s, s.bots[b])
    case OneCommitEach =>
      forall b :: b in s.bots ==> CommitsBy(s.log, b) == if s.bots[b].phase == Done(Committed) then 1 else 0
    case LogJustified => forall i :: 0 <= i < |s.log| ==> LogInv(lc, files, s, i)
  }

  ghost predicate Inv(lc: Codec, files: Files, s: State) {
    forall k: Clause :: Holds(lc, k, files, s)
  }

  lemma InitialInv(lc: Codec, s: State)
    requires Initial(s)
    ensures Inv(lc, s.Files(), s)
  {
    forall k: Clause
      ensures Holds(lc, k, s.Files(), s)
    {}
  }

  /** A longer log does not change what earlier positions show. */
  lemma LedgerAtPrefix(lc: Codec, files: Files, log: seq<Commit>, c: Commit, k: nat, appID: string)
    requires k <= |log|
    ensures LedgerAt(lc, files, log + [c], k, appID) == LedgerAt(lc, files, log, k, appID)
  {
    assert (log + [c])[..k] == log[..k];
  }

  /** A bot that moves without committing. */
  lemma MoveInv(lc: Codec, files: Files, s: State, b: nat, moved: Bot)
    requires Inv(lc, files, s) && b in s.bots
    requires s.bots[b].phase != Done(Committed) && moved.phase != Done(Committed)
    requires BotInv(lc, files, s, moved)
    ensures Inv(lc, files, WithPhase(s, b, moved))
  {
    var t := WithPhase(s, b, moved);
    forall k: Clause
      ensures Holds(lc, k, files, t)
    {
      assert Holds(lc, k, files, s);
      match k
      case BotsConsistent =>
        forall x | x in t.bots
          ensures BotInv(lc, files, t, t.bots[x])
        {
          assert BotInv(lc, files, s, if x == b then moved else s.bots[x]);
        }
      case LogJustified =>
        forall i | 0 <= i < |t.log|
          ensures LogInv(lc, files, t, i)
        {
          assert LogInv(lc, files, s, i);
        }
      case _ =>
    }
  }

  lemma LoadedLedger(lc: Codec, files: Files, s: State, bot: Bot)
    requires s.Files() == Replay(lc, files, s.log)
    requires Loaded(lc, s, bot).Some?
    ensures Loaded(lc, s, bot).value == LedgerAt(lc, files, s.log, |s.log|, bot.job.appID)
  {
    assert s.log[..|s.log|] == s.log;
  }

  lemma GetInv(lc: Codec, files: Files, s: State, b: nat)
    requires Inv(lc, files, s) && b in s.bots
    requires s.bots[b].phase.Start? || s.bots[b].phase.Reloading?
    ensures Inv(lc, files, WithPhase(s, b, if s.bots[b].phase.Start? then FirstLoad(lc, s, s.bots[b])
                                     else Reload(lc, s, s.bots[b])))
  {
    var bot := s.bots[b];
    assert Holds(lc, FilesReplay, files, s) && Holds(lc, ShasMinted, files, s) && Holds(lc, BotsConsistent, files, s);
    if Loaded(lc, s, bot).Some? {
      LoadedLedger(lc, files, s, bot);
    }
    assert BotInv(lc, files, s, bot);
    if bot.phase.Start? {
      FirstLoadInv(lc, files, s, bot);
      MoveInv(lc, files, s, b, FirstLoad(lc, s, bot));
    } else {
      ReloadInv(lc, files, s, bot);
      MoveInv(lc, files, s, b, Reload(lc, s, bot));
    }
  }

  lemma FirstLoadInv(lc: Codec, files: Files, s: State, bot: Bot)
    requires bot.phase.Start?
    requires bot.job.appID in s.blobs ==> Minted(s.blobs[bot.job.appID].sha, s.minted)
    requires Loaded(lc, s, bot).Some? ==> Loaded(lc, s, bot).value == LedgerAt(lc, files, s.log, |s.log|, bot.job.appID)
    ensures BotInv(lc, files, s, FirstLoad(lc, s, bot)) && FirstLoad(lc, s, bot).phase != Done(Committed)
  {}

  lemma ReloadInv(lc: Codec, files: Files, s: State, bot: Bot)
    requires bot.phase.Reloading? && BotInv(lc, files, s, bot)
    requires bot.job.appID in s.blobs ==> Minted(s.blobs[bot.job.appID].sha, s.minted)
    requires Loaded(lc, s, bot).Some? ==> Loaded(lc, s, bot).value == LedgerAt(lc, files, s.log, |s.log|, bot.job.appID)
    ensures BotInv(lc, files, s, Reload(lc, s, bot)) && Reload(lc, s, bot).phase != Done(Committed)
  {}

  lemma CommitsByAppend(log: seq<Commit>, c: Commit, b: nat)
    ensures CommitsBy(log + [c], b) == CommitsBy(log, b) + (if c.bot == b then 1 else 0)
  {
    assert (log + [c])[..|log + [c]| - 1] == log;
  }

  lemma RevisedIsWritten(lc: Codec, text: Option<string>, bot: Bot)
    requires bot.phase.Holding? && Load(lc, text) == Some(bot.phase.held)
    ensures Revised(lc, bot) == Written(lc, text, bot.job.appID, bot.phase.update)
  {}

  lemma AppliedWrites(lc: Codec, files: Files, c: Commit, text: string)
    requires Written(lc, TextOf(files, c.appID), c.appID, c.update) == Some(text)
    ensures Applied(lc, files, c) == files[c.appID := text]
  {}

  lemma ReplayOneMore(lc: Codec, files: Files, log: seq<Commit>, c: Commit)
    ensures Replay(lc, files, log + [c]) == Applied(lc, Replay(lc, files, log), c)
  {
    assert (log + [c])[..|log + [c]| - 1] == log;
  }

  /** An accepted write is the atomic update of the file as it is now: no update is lost. */
  lemma CommitIsAtomic(lc: Codec, files: Files, s: State, b: nat, text: string)
    requires Inv(lc, files, s) && b in s.bots && s.bots[b].phase.Holding?
    requires Accepts(BlobOf(s.blobs, s.bots[b].job.appID), s.bots[b].phase.sha)
    requires Revised(lc, s.bots[b]) == Some(text)
    ensures AfterCommit(s, b, text).Files() == Replay(lc, files, AfterCommit(s, b, text).log)
  {
    var bot := s.bots[b];
    var app := bot.job.appID;
    var c := Commit(b, app, bot.phase.update);
    assert Holds(lc, FilesReplay, files, s) && Holds(lc, BotsConsistent, files, s);
    assert BotInv(lc, files, s, bot);
    RevisedIsWritten(lc, TextOf(s.Files(), app), bot);
    AppliedWrites(lc, s.Files(), c, text);
    TextsUpdate(s.blobs, app, Blob(text, MintedName(s.minted + 1)));
    ReplayOneMore(lc, files, s.log, c);
  }

  /** A commit spoils every SHA held for that appId and touches no other. */
  lemma OthersAfterCommit(lc: Codec, files: Files, s: State, b: nat, text: string, x: nat)
    requires b in s.bots && s.bots[b].phase.Holding?
    requires x in s.bots && x != b && BotInv(lc, files, s, s.bots[x])
    ensures BotInv(lc, files, AfterCommit(s, b, text), s.bots[x])
  {
    var t := AfterCommit(s, b, text);
    var bot := s.bots[x];
    var app := bot.job.appID;
    if UnderWay(bot.phase) {
      LedgerAtPrefix(lc, files, s.log, t.log[|s.log|], bot.first, app);
      LedgerAtPrefix(lc, files, s.log, t.log[|s.log|], bot.latest, app);
    }
    if bot.phase.Holding? {
      FreshSha(s.minted, bot.phase.sha);
      if bot.phase.sha != "" {
        MintedLater(bot.phase.sha, s.minted, t.minted);
      }
      if app != s.bots[b].job.appID {
        assert BlobOf(t.blobs, app) == BlobOf(s.blobs, app);
        assert TextOf(t.Files(), app) == TextOf(s.Files(), app);
      }
    }
  }

  lemma LogAfterCommit(lc: Codec, files: Files, s: State, b: nat, text: string, k: nat)
    requires Inv(lc, files, s) && b in s.bots && s.bots[b].phase.Holding?
    requires k <= |s.log|
    ensures LogInv(lc, files, AfterCommit(s, b, text), k)
  {
    var t := AfterCommit(s, b, text);
    var bot := s.bots[b];
    if k < |s.log| {
      assert Holds(lc, LogJustified, files, s);
      assert LogInv(lc, files, s, k);
      LedgerAtPrefix(lc, files, s.log, t.log[|s.log|], s.bots[s.log[k].bot].first, s.log[k].appID);
    } else {
      assert Holds(lc, BotsConsistent, files, s);
      assert BotInv(lc, files, s, bot);
      LedgerAtPrefix(lc, files, s.log, t.log[|s.log|], bot.first, bot.job.appID);
    }
  }

  lemma CommitInv(lc: Codec, files: Files, s: State, b: nat, text: string)
    requires Inv(lc, files, s) && b in s.bots && s.bots[b].phase.Holding?
    requires AfterCommit(s, b, text).Files() == Replay(lc, files, AfterCommit(s, b, text).log)
    ensures Inv(lc, files, AfterCommit(s, b, text))
  {
    var t := AfterCommit(s, b, text);
    forall k: Clause
      ensures Holds(lc, k, files, t)
    {
      assert Holds(lc, k, files, s);
      match k
      case FilesReplay =>
      case ShasMinted =>
        forall a | a in t.blobs
          ensures Minted(t.blobs[a].sha, t.minted)
        {
          if a in s.blobs {
            MintedLater(s.blobs[a].sha, s.minted, t.minted);
          }
        }
      case BotsConsistent =>
        forall x | x in t.bots
          ensures BotInv(lc, files, t, t.bots[x])
        {
          if x != b {
            OthersAfterCommit(lc, files, s, b, text, x);
          }
        }
      case OneCommitEach =>
        forall x | x in t.bots
          ensures CommitsBy(t.log, x) == if t.bots[x].phase == Done(Committed) then 1 else 0
        {
          CommitsByAppend(s.log, t.log[|s.log|], x);
        }
      case LogJustified =>
        forall i | 0 <= i < |t.log|
          ensures LogInv(lc, files, t, i)
        {
          LogAfterCommit(lc, files, s, b, text, i);
        }
    }
  }

  lemma RefusedInv(lc: Codec, files: Files, s: State, b: nat, phase: Phase, tried: nat)
    requires Inv(lc, files, s) && b in s.bots && s.bots[b].phase.Holding?
    requires phase == Done(Vanished) || (phase.Reloading? && phase.update == s.bots[b].phase.update)
    ensures Inv(lc, files, WithPhase(s, b, s.bots[b].(phase := phase, tried := tried)))
  {
    assert Holds(lc, BotsConsistent, files, s);
    assert BotInv(lc, files, s, s.bots[b]);
    MoveInv(lc, files, s, b, s.bots[b].(phase := phase, tried := tried));
  }

  lemma AttemptInv(lc: Codec, files: Files, s: State, b: nat, refused: bool, text: Option<string>)
    requires Inv(lc, files, s) && b in s.bots && s.bots[b].phase.Holding?
    requires text.Some? && Accepts(BlobOf(s.blobs, s.bots[b].job.appID), s.bots[b].phase.sha) ==>
               AfterCommit(s, b, text.value).Files() == Replay(lc, files, AfterCommit(s, b, text.value).log)
    ensures Inv(lc, files, Attempt(s, b, refused, text))
  {
    var bot := s.bots[b];
    if text.None? {
      RefusedInv(lc, files, s, b, Done(Vanished), bot.tried);
    } else if refused || !Accepts(BlobOf(s.blobs, bot.job.appID), bot.phase.sha) {
      RefusedInv(lc, files, s, b, Reloading(bot.phase.update, bot.phase.conflicts + 1), |s.log|);
    } else {
      CommitInv(lc, files, s, b, text.value);
    }
  }

  lemma PutInv(lc: Codec, files: Files, s: State, b: nat, refused: bool)
    requires Inv(lc, files, s) && b in s.bots && s.bots[b].phase.Holding?
    ensures Inv(lc, files, Attempt(s, b, refused, Revised(lc, s.bots[b])))
  {
    var text := Revised(lc, s.bots[b]);
    if text.Some? && Accepts(BlobOf(s.blobs, s.bots[b].job.appID), s.bots[b].phase.sha) {
      CommitIsAtomic(lc, files, s, b, text.value);
    }
    AttemptInv(lc, files, s, b, refused, text);
  }

  lemma StepInv(lc: Codec, files: Files, s: State, a: Action)
    requires Inv(lc, files, s)
    ensures Inv(lc, files, Step(lc, s, a))
  {
    if a.bot in s.bots {
      var bot := s.bots[a.bot];
      match a
      case Get(b) =>
        if bot.phase.Start? || bot.phase.Reloading? {
          GetInv(lc, files, s, b);
        }
      case Put(b, refused) =>
        if bot.phase.Holding? {
          PutInv(lc, files, s, b, refused);
        }
      case Fault(b) =>
        if !bot.phase.Done? {
          MoveInv(lc, files, s, b, bot.(phase := Done(Faulted)));
        }
    }
  }

  lemma {:induction false} RunInv(lc: Codec, s: State, acts: seq<Action>)
    requires Initial(s)
    ensures Inv(lc, s.Files(), Run(lc, s, acts))
  {
    if acts == [] {
      InitialInv(lc, s);
    } else {
      RunInv(lc, s, acts[..|acts| - 1]);
      StepInv(lc, s.Files(), Run(lc, s, acts[..|acts| - 1]), acts[|acts| - 1]);
    }
  }

  // ---- refinement ----

  /** No lost update. After any interleaving of any bots the files are what a serial replay of
      atomic updates, in the order of the successful writes, makes of the files at the start;
      and each bot has contributed exactly one of them if it reported success, none otherwise. */
  lemma RefinesSerialLog(lc: Codec, s: State, acts: seq<Action>)
    requires Initial(s)
    ensures Run(lc, s, acts).Files() == Replay(lc, s.Files(), Run(lc, s, acts).log)
    ensures forall b :: b in Run(lc, s, acts).bots ==>
              CommitsBy(Run(lc, s, acts).log, b) == if Run(lc, s, acts).bots[b].phase == Done(Committed) then 1 else 0
  {
    RunInv(lc, s, acts);
    assert Holds(lc, FilesReplay, s.Files(), Run(lc, s, acts)) && Holds(lc, OneCommitEach, s.Files(), Run(lc, s, acts));
  }
}
