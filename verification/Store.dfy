/** internal/ghclient/fake: the in-memory GitHub. Before every call the rest of the world may act:
    a script of events, arbitrary and consumed from the front, writes ledgers, changes files and
    arms the one-shot conflict; and the call itself may fail without effect. */
module Store {
  import opened Wrappers
  import opened Ledger
  import opened Updates
  import opened Blobs
  import opened Challenge

  datatype Foreign =
    | WriteLedger(appID: string, content: string)
    | WriteFile(repo: string, path: string, content: string)
    | RemoveFile(repo: string, path: string)

  /** What happens before one call: `foreign` writes, a forced conflict, a failure of the call. */
  datatype Event = Event(foreign: seq<Foreign>, conflict: bool, fault: bool)

  datatype Fetched = Found(content: string, sha: string) | NotFound | GetFailed

  datatype PutResult = Stored | Conflict | PutFailed

  /** A ledger write that took place. */
  datatype Write = Write(own: bool, appID: string, text: string)

  /** What a bot does to an issue. */
  datatype Effect =
    | PostComment(body: string)
    | SetLabels(add: set<string>, remove: set<string>)
    | CloseIssue

  /** What an issue shows: the bot's comments, the labels, and whether it is closed. */
  datatype IssueState = IssueState(comments: seq<Comment>, labels: set<string>, closed: bool)

  function Perform(s: IssueState, e: Effect, now: int): IssueState {
    match e
    case PostComment(body) => s.(comments := s.comments + [Comment(body, now)])
    case SetLabels(add, remove) => s.(labels := s.labels - remove + add)
    case CloseIssue => s.(closed := true)
  }

  function PerformAll(s: IssueState, es: seq<Effect>, now: int): IssueState {
    if es == [] then s else Perform(PerformAll(s, es[..|es| - 1], now), es[|es| - 1], now)
  }

  // ---- histories of writes ----

  function FilesAfter(files: Files, ws: seq<Write>): Files {
    if ws == [] then files
    else FilesAfter(files, ws[..|ws| - 1])[ws[|ws| - 1].appID := ws[|ws| - 1].text]
  }

  predicate NoOwn(ws: seq<Write>) {
    forall i :: 0 <= i < |ws| ==> !ws[i].own
  }

  /** The writes end in one of ours, which is the atomic update `u` of the file as it was then. */
  predicate AtomicCommit(lc: Codec, files: Files, ws: seq<Write>, appID: string, u: Update) {
    && ws != []
    && NoOwn(ws[..|ws| - 1])
    && ws[|ws| - 1].own && ws[|ws| - 1].appID == appID
    && Written(lc, TextOf(FilesAfter(files, ws[..|ws| - 1]), appID), appID, u) == Some(ws[|ws| - 1].text)
  }

  lemma {:induction false} FilesAfterAppend(files: Files, a: seq<Write>, b: seq<Write>)
    ensures FilesAfter(files, a + b) == FilesAfter(FilesAfter(files, a), b)
  {
    if b == [] {
      assert a + b == a;
    } else {
      assert (a + b)[..|a + b| - 1] == a + b[..|b| - 1];
      FilesAfterAppend(files, a, b[..|b| - 1]);
    }
  }

  lemma CommitAfterForeign(lc: Codec, files: Files, a: seq<Write>, b: seq<Write>, appID: string, u: Update)
    requires NoOwn(a) && AtomicCommit(lc, FilesAfter(files, a), b, appID, u)
    ensures AtomicCommit(lc, files, a + b, appID, u)
  {
    assert (a + b)[..|a + b| - 1] == a + b[..|b| - 1];
    FilesAfterAppend(files, a, b[..|b| - 1]);
  }

  // ---- how blobs evolve ----

  /** Every blob is as it was or was minted since. */
  ghost predicate Evolved(before: BlobMap, n: nat, after: BlobMap, m: nat) {
    n <= m && forall a :: BlobOf(after, a) == BlobOf(before, a) || (a in after && MintedSince(after[a].sha, n, m))
  }

  ghost predicate MintedSince(sha: string, n: nat, m: nat) {
    exists k: nat :: n < k <= m && sha == MintedName(k)
  }

  ghost predicate AllMinted(blobs: BlobMap, n: nat) {
    forall a :: a in blobs ==> Minted(blobs[a].sha, n)
  }

  lemma EvolvedTransitive(a: BlobMap, i: nat, b: BlobMap, j: nat, c: BlobMap, k: nat)
    requires Evolved(a, i, b, j) && Evolved(b, j, c, k)
    ensures Evolved(a, i, c, k)
  {
    forall x
      ensures BlobOf(c, x) == BlobOf(a, x) || (x in c && MintedSince(c[x].sha, i, k))
    {
      if BlobOf(c, x) != BlobOf(b, x) {
        var n: nat :| j < n <= k && c[x].sha == MintedName(n);
        assert MintedSince(c[x].sha, i, k);
      } else if BlobOf(b, x) != BlobOf(a, x) {
        var n: nat :| i < n <= j && b[x].sha == MintedName(n);
        assert BlobOf(c, x).Some?;
        assert MintedSince(c[x].sha, i, k);
      }
    }
  }

  lemma EvolvedByWrite(blobs: BlobMap, n: nat, appID: string, content: string)
    ensures Evolved(blobs, n, blobs[appID := Blob(content, MintedName(n + 1))], n + 1)
  {
    assert MintedSince(MintedName(n + 1), n, n + 1);
  }

  lemma WriteKeepsMinted(blobs: BlobMap, n: nat, appID: string, content: string)
    requires AllMinted(blobs, n)
    ensures AllMinted(blobs[appID := Blob(content, MintedName(n + 1))], n + 1)
  {
    var after := blobs[appID := Blob(content, MintedName(n + 1))];
    forall a | a in after
      ensures Minted(after[a].sha, n + 1)
    {
      if a != appID {
        MintedLater(blobs[a].sha, n, n + 1);
      }
    }
  }

  /** A SHA that a caller holds together with the ledger it stands for. */
  ghost predicate Holds(lc: Codec, blobs: BlobMap, n: nat, appID: string, held: Option<Ledger>, sha: string) {
    && (sha == "" || Minted(sha, n))
    && (Accepts(BlobOf(blobs, appID), sha) ==> Load(lc, TextOf(Texts(blobs), appID)) == Some(held))
  }

  lemma MintedTwice(sha: string, n: nat, m: nat)
    requires sha == "" || Minted(sha, n)
    requires n <= m
    ensures !MintedSince(sha, n, m)
  {
    if MintedSince(sha, n, m) {
      var k: nat :| n < k <= m && sha == MintedName(k);
      if sha != "" {
        MintedLater(sha, n, k - 1);
      }
      FreshSha(k - 1, sha);
    }
  }

  /** However the store evolves, a held SHA stands for the held ledger or is refused. */
  lemma HoldsStays(lc: Codec, before: BlobMap, n: nat, after: BlobMap, m: nat, appID: string, held: Option<Ledger>,
                   sha: string)
    requires Evolved(before, n, after, m) && Holds(lc, before, n, appID, held, sha)
    ensures Holds(lc, after, m, appID, held, sha)
  {
    MintedTwice(sha, n, m);
    if sha != "" {
      MintedLater(sha, n, m);
    }
    assert BlobOf(after, appID) == BlobOf(before, appID) ==>
        TextOf(Texts(after), appID) == TextOf(Texts(before), appID);
  }

  // ---- what the rest of the world does ----

  /** The ledger side of a client at one moment. */
  datatype Snapshot = Snapshot(blobs: BlobMap, minted: nat, writes: seq<Write>)

  /** From `a` to `b` others may have written, and we have not. */
  ghost predicate OthersOnly(a: Snapshot, b: Snapshot) {
    && Evolved(a.blobs, a.minted, b.blobs, b.minted)
    && a.writes <= b.writes
    && NoOwn(b.writes[|a.writes|..])
    && Texts(b.blobs) == FilesAfter(Texts(a.blobs), b.writes[|a.writes|..])
  }

  lemma OthersOnlySelf(a: Snapshot)
    ensures OthersOnly(a, a)
  {
    assert a.writes[|a.writes|..] == [];
  }

  lemma OthersOnlyTransitive(a: Snapshot, b: Snapshot, c: Snapshot)
    requires OthersOnly(a, b) && OthersOnly(b, c)
    ensures OthersOnly(a, c)
  {
    EvolvedTransitive(a.blobs, a.minted, b.blobs, b.minted, c.blobs, c.minted);
    var ab, bc := b.writes[|a.writes|..], c.writes[|b.writes|..];
    assert c.writes[|a.writes|..] == ab + bc;
    FilesAfterAppend(Texts(a.blobs), ab, bc);
  }

  /** Between `a` and `b` we wrote once, last, and it was the atomic update `u` of the file as it
      was then. */
  ghost predicate CommittedOnce(lc: Codec, a: Snapshot, b: Snapshot, appID: string, u: Update) {
    && a.writes <= b.writes
    && AtomicCommit(lc, Texts(a.blobs), b.writes[|a.writes|..], appID, u)
    && Texts(b.blobs) == FilesAfter(Texts(a.blobs), b.writes[|a.writes|..])
  }

  lemma OthersThenCommit(lc: Codec, a: Snapshot, b: Snapshot, c: Snapshot, appID: string, u: Update)
    requires OthersOnly(a, b) && CommittedOnce(lc, b, c, appID, u)
    ensures CommittedOnce(lc, a, c, appID, u)
  {
    var ab, bc := b.writes[|a.writes|..], c.writes[|b.writes|..];
    assert c.writes[|a.writes|..] == ab + bc;
    FilesAfterAppend(Texts(a.blobs), ab, bc);
    CommitAfterForeign(lc, Texts(a.blobs), ab, bc, appID, u);
  }

  /** `after` is `before` with our write of one file. */
  predicate Wrote(before: Snapshot, after: Snapshot, appID: string, content: string) {
    && after.blobs == before.blobs[appID := Blob(content, MintedName(before.minted + 1))]
    && after.minted == before.minted + 1
    && after.writes == before.writes + [Write(true, appID, content)]
  }

  /** What decides the fate of a write: whether nobody else is about, whether a conflict is pending,
      and the ledgers; with the number of writes tried and of calls that failed so far. */
  datatype View = View(quiet: bool, pending: bool, snap: Snapshot, puts: nat, faults: nat) {
    /** The next write with this SHA is a conflict: one is pending, or the SHA is not current. */
    predicate Conflicts(appID: string, sha: string) {
      pending || !Accepts(BlobOf(snap.blobs, appID), sha)
    }
  }

  /** A write with nobody else about: a conflict, which uses up the pending one and changes nothing
      else, or a success. */
  predicate PutAlone(a: View, b: View, appID: string, sha: string, r: PutResult) {
    && b.quiet && !b.pending && b.puts == a.puts + 1 && b.faults == a.faults
    && r == (if a.Conflicts(appID, sha) then Conflict else Stored)
    && (if r == Conflict then b.snap == a.snap else |b.snap.writes| == |a.snap.writes| + 1)
  }

  // ---- the client ----

  class Client {
    var ledgers: BlobMap
    var files: map<(string, string), string>
    var inaccessibleRepos: set<string>
    var ownComments: map<int, seq<Comment>>
    var labels: map<int, set<string>>
    var closed: set<int>
    var failNextPutWithConflict: bool
    var nextSHA: nat
    /** The time the injected clock shows; a poll reads the same time throughout. */
    var clock: int
    var script: seq<Event>
    /** All ledger writes so far, the number of writes tried, and of calls that failed. */
    ghost var writes: seq<Write>
    ghost var puts: nat
    ghost var faults: nat

    constructor (now: int, events: seq<Event>)
      ensures Valid()
      ensures ledgers == map[] && files == map[] && inaccessibleRepos == {} && ownComments == map[] && labels == map[]
      ensures closed == {} && clock == now && script == events && writes == [] && puts == 0 && faults == 0
    {
      ledgers, files, inaccessibleRepos, ownComments, labels, closed := map[], map[], {}, map[], map[], {};
      failNextPutWithConflict, nextSHA, clock, script := false, 0, now, events;
      writes, puts, faults := [], 0, 0;
    }

    ghost predicate Valid()
      reads this`ledgers, this`nextSHA
    {
      AllMinted(ledgers, nextSHA)
    }

    function CommentsOn(issue: int): seq<Comment>
      reads this`ownComments
    {
      if issue in ownComments then ownComments[issue] else []
    }

    function LabelsOf(issue: int): set<string>
      reads this`labels
    {
      if issue in labels then labels[issue] else {}
    }

    function IssueOf(issue: int): IssueState
      reads this`ownComments, this`labels, this`closed
    {
      IssueState(CommentsOn(issue), LabelsOf(issue), issue in closed)
    }

    method MintSHA() returns (sha: string)
      modifies this`nextSHA
      ensures nextSHA == old(nextSHA) + 1 && sha == MintedName(nextSHA)
    {
      nextSHA := nextSHA + 1;
      sha := MintedName(nextSHA);
    }

    /** Nobody else acts any more, and no call fails; a conflict may still be pending. */
    predicate Quiet()
      reads this`script
    {
      script == []
    }

    ghost function Look(): View
      reads this`script, this`failNextPutWithConflict, this`puts, this`faults, this`ledgers, this`nextSHA, this`writes
    {
      View(Quiet(), failNextPutWithConflict, Snap(), puts, faults)
    }

    /** One call since then, and whether it failed. */
    twostate predicate Counted(fault: bool)
      reads this`faults
    {
      faults == old(faults) + if fault then 1 else 0
    }

    ghost function Snap(): Snapshot
      reads this`ledgers, this`nextSHA, this`writes
    {
      Snapshot(ledgers, nextSHA, writes)
    }

    /** Stores a ledger under a fresh SHA. */
    method StoreLedger(own: bool, appID: string, content: string)
      requires Valid()
      modifies this`ledgers, this`nextSHA, this`writes
      ensures Valid()
      ensures ledgers == old(ledgers)[appID := Blob(content, MintedName(nextSHA))] && nextSHA == old(nextSHA) + 1
      ensures writes == old(writes) + [Write(own, appID, content)]
      ensures Texts(ledgers) == FilesAfter(Texts(old(ledgers)), [Write(own, appID, content)])
      ensures Evolved(old(ledgers), old(nextSHA), ledgers, nextSHA)
    {
      WriteKeepsMinted(ledgers, nextSHA, appID, content);
      EvolvedByWrite(ledgers, nextSHA, appID, content);
      TextsUpdate(ledgers, appID, Blob(content, MintedName(nextSHA + 1)));
      var sha := MintSHA();
      ledgers := ledgers[appID := Blob(content, sha)];
      writes := writes + [Write(own, appID, content)];
      assert [Write(own, appID, content)][..0] == [];
    }

    /** One action of somebody else. */
    method Act(f: Foreign)
      requires Valid()
      modifies this`ledgers, this`nextSHA, this`files, this`writes
      ensures Valid() && OthersOnly(old(Snap()), Snap())
    {
      match f
      case WriteLedger(appID, content) =>
        StoreLedger(false, appID, content);
        assert writes[|old(writes)|..] == [Write(false, appID, content)];
      case WriteFile(repo, path, content) =>
        files := files[(repo, path) := content];
      case RemoveFile(repo, path) =>
        files := files - {(repo, path)};
    }

    /** The rest of the world acts: the next event of the script, or nothing when it is used up.
        The result says whether the call that follows fails. */
    method Interfere() returns (fault: bool)
      requires Valid()
      modifies this`ledgers, this`nextSHA, this`files, this`failNextPutWithConflict, this`script, this`faults,
               this`writes
      ensures Valid() && OthersOnly(old(Snap()), Snap())
      ensures old(script) == [] ==> !fault && ledgers == old(ledgers) && files == old(files) && script == []
      ensures old(script) == [] ==> failNextPutWithConflict == old(failNextPutWithConflict) && Snap() == old(Snap())
      ensures Counted(fault)
    {
      if script == [] {
        return false;
      }
      var event := script[0];
      script := script[1..];
      var i := 0;
      while i < |event.foreign|
        invariant 0 <= i <= |event.foreign|
        invariant Valid() && OthersOnly(old(Snap()), Snap()) && faults == old(faults)
      {
        ghost var before := Snap();
        Act(event.foreign[i]);
        OthersOnlyTransitive(old(Snap()), before, Snap());
        i := i + 1;
      }
      if event.conflict {
        failNextPutWithConflict := true;
      }
      if event.fault {
        faults := faults + 1;
      }
      return event.fault;
    }

    // ---- the calls of the GitHub interface ----

    method GetLedger(appID: string) returns (r: Fetched)
      requires Valid()
      modifies this`ledgers, this`nextSHA, this`files, this`failNextPutWithConflict, this`script, this`faults,
               this`writes
      ensures Valid() && OthersOnly(old(Snap()), Snap())
      ensures r != GetFailed ==> r == if appID in ledgers then Found(ledgers[appID].content, ledgers[appID].sha)
                else NotFound
      ensures Counted(r == GetFailed)
      ensures old(Quiet()) ==> r != GetFailed && Look() == old(Look()) && files == old(files)
    {
      var fault := Interfere();
      if fault {
        return GetFailed;
      }
      if appID !in ledgers {
        return NotFound;
      }
      return Found(ledgers[appID].content, ledgers[appID].sha);
    }

    /** checkPrevSHA: false is a conflict. It uses up the one-shot forced conflict. */
    method CheckPrevSHA(existing: Option<Blob>, prevSHA: string) returns (ok: bool)
      modifies this`failNextPutWithConflict
      ensures ok <==> !old(failNextPutWithConflict) && Accepts(existing, prevSHA)
      ensures !failNextPutWithConflict
    {
      if failNextPutWithConflict {
        failNextPutWithConflict := false;
        return false;
      }
      if existing.None? && prevSHA != "" {
        return false;
      }
      if existing.Some? && existing.value.sha != prevSHA {
        return false;
      }
      return true;
    }

    /** The guarded write itself. */
    method CheckAndStore(appID: string, content: string, prevSHA: string) returns (ok: bool)
      requires Valid()
      modifies this`ledgers, this`nextSHA, this`failNextPutWithConflict, this`writes
      ensures Valid()
      ensures ok <==> !old(failNextPutWithConflict) && Accepts(BlobOf(old(ledgers), appID), prevSHA)
      ensures if ok then Wrote(old(Snap()), Snap(), appID, content) else Snap() == old(Snap())
      ensures !failNextPutWithConflict
    {
      ok := CheckPrevSHA(BlobOf(ledgers, appID), prevSHA);
      if ok {
        StoreLedger(true, appID, content);
      }
    }

    /** A write takes place exactly when the SHA is still current and nothing refuses it; all that
        others do lies before it. */
    method PutLedger(appID: string, content: string, prevSHA: string) returns (r: PutResult, ghost before: Snapshot)
      requires Valid()
      modifies this`ledgers, this`nextSHA, this`files, this`failNextPutWithConflict, this`script, this`faults,
               this`writes, this`puts
      ensures Valid() && OthersOnly(old(Snap()), before)
      ensures r == Stored ==> Accepts(BlobOf(before.blobs, appID), prevSHA) && Wrote(before, Snap(), appID, content)
      ensures r != Stored ==> Snap() == before
      ensures puts == old(puts) + 1
      ensures Counted(r == PutFailed)
      ensures old(Quiet()) ==> before == old(Snap()) && PutAlone(old(Look()), Look(), appID, prevSHA, r)
    {
      puts := puts + 1;
      var fault := Interfere();
      before := Snap();
      if fault {
        return PutFailed, before;
      }
      var ok := CheckAndStore(appID, content, prevSHA);
      return if ok then Stored else Conflict, before;
    }

    /** The bot's own comments on an issue, oldest first. */
    method OwnComments(issue: int) returns (r: Option<seq<Comment>>)
      requires Valid()
      modifies this`ledgers, this`nextSHA, this`files, this`failNextPutWithConflict, this`script, this`faults,
               this`writes
      ensures Valid() && OthersOnly(old(Snap()), Snap())
      ensures r.Some? ==> r.value == CommentsOn(issue)
      ensures Counted(r.None?)
      ensures old(Quiet()) ==> Quiet() && Snap() == old(Snap()) && r.Some? && files == old(files)
    {
      var fault := Interfere();
      if fault {
        return None;
      }
      return Some(CommentsOn(issue));
    }

    method PostComment(issue: int, body: string) returns (ok: bool)
      requires Valid()
      modifies this`ledgers, this`nextSHA, this`files, this`failNextPutWithConflict, this`script, this`faults,
               this`writes
      modifies this`ownComments
      ensures Valid() && OthersOnly(old(Snap()), Snap())
      ensures ok ==> IssueOf(issue) == Perform(old(IssueOf(issue)), Effect.PostComment(body), clock)
      ensures !ok ==> ownComments == old(ownComments)
      ensures forall n :: n != issue ==> CommentsOn(n) == old(CommentsOn(n))
      ensures Counted(!ok)
      ensures old(Quiet()) ==> Quiet() && Snap() == old(Snap()) && ok
    {
      var fault := Interfere();
      if fault {
        return false;
      }
      ownComments := ownComments[issue := CommentsOn(issue) + [Comment(body, clock)]];
      return true;
    }

    method SetLabels(issue: int, add: set<string>, remove: set<string>) returns (ok: bool)
      requires Valid()
      modifies this`ledgers, this`nextSHA, this`files, this`failNextPutWithConflict, this`script, this`faults,
               this`writes
      modifies this`labels
      ensures Valid() && OthersOnly(old(Snap()), Snap())
      ensures ok ==> IssueOf(issue) == Perform(old(IssueOf(issue)), Effect.SetLabels(add, remove), clock)
      ensures !ok ==> labels == old(labels)
      ensures forall n :: n != issue ==> LabelsOf(n) == old(LabelsOf(n))
      ensures Counted(!ok)
      ensures old(Quiet()) ==> Quiet() && Snap() == old(Snap()) && ok
    {
      var fault := Interfere();
      if fault {
        return false;
      }
      labels := labels[issue := LabelsOf(issue) - remove + add];
      return true;
    }

    method CloseIssue(issue: int) returns (ok: bool)
      requires Valid()
      modifies this`ledgers, this`nextSHA, this`files, this`failNextPutWithConflict, this`script, this`faults,
               this`writes
      modifies this`closed
      ensures Valid() && OthersOnly(old(Snap()), Snap())
      ensures ok ==> IssueOf(issue) == Perform(old(IssueOf(issue)), Effect.CloseIssue, clock)
      ensures !ok ==> closed == old(closed)
      ensures forall n :: n != issue ==> (n in closed <==> n in old(closed))
      ensures Counted(!ok)
      ensures old(Quiet()) ==> Quiet() && Snap() == old(Snap()) && ok
    {
      var fault := Interfere();
      if fault {
        return false;
      }
      closed := closed + {issue};
      return true;
    }

    /** A file of a repo the token cannot see reads as absent. */
    method GetFile(repo: string, path: string) returns (r: Fetched)
      requires Valid()
      modifies this`ledgers, this`nextSHA, this`files, this`failNextPutWithConflict, this`script, this`faults,
               this`writes
      ensures Valid() && OthersOnly(old(Snap()), Snap())
      ensures r.Found? ==> repo !in inaccessibleRepos && (repo, path) in files && r.content == files[(repo, path)]
      ensures r == NotFound ==> repo in inaccessibleRepos || (repo, path) !in files
      ensures Counted(r == GetFailed)
      ensures old(Quiet()) ==> Quiet() && Snap() == old(Snap()) && r != GetFailed && files == old(files)
    {
      var fault := Interfere();
      if fault {
        return GetFailed;
      }
      if repo in inaccessibleRepos || (repo, path) !in files {
        return NotFound;
      }
      return Found(files[(repo, path)], "");
    }

    method RepoAccessible(repo: string) returns (r: Option<bool>)
      requires Valid()
      modifies this`ledgers, this`nextSHA, this`files, this`failNextPutWithConflict, this`script, this`faults,
               this`writes
      ensures Valid() && OthersOnly(old(Snap()), Snap())
      ensures r.Some? ==> r.value == (repo !in inaccessibleRepos)
      ensures Counted(r.None?)
      ensures old(Quiet()) ==> Quiet() && Snap() == old(Snap()) && r.Some? && files == old(files)
    {
      var fault := Interfere();
      if fault {
        return None;
      }
      return Some(repo !in inaccessibleRepos);
    }
  }
}
