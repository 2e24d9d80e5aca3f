/** The optimistic-concurrency rule of the Contents API as internal/ghclient/fake states it:
    versioned blobs, minted SHAs, and the check that guards a write. */
module Blobs {
  import opened Wrappers
  import opened Updates
  import Digits

  datatype Blob = Blob(content: string, sha: string)

  type BlobMap = map<string, Blob>

  function Texts(blobs: BlobMap): Files {
    map a | a in blobs :: blobs[a].content
  }

  function BlobOf(blobs: BlobMap, appID: string): Option<Blob> {
    if appID in blobs then Some(blobs[appID]) else None
  }

  /** The SHA handed out with an absent file is empty. */
  function ShaOf(blobs: BlobMap, appID: string): string {
    if appID in blobs then blobs[appID].sha else ""
  }

  /** `fmt.Sprintf("sha%d", n)` */
  function MintedName(n: nat): string {
    "sha" + Digits.Decimal(n)
  }

  /** One of the first `n` SHAs minted. */
  ghost predicate Minted(sha: string, n: nat) {
    exists k: nat :: 1 <= k <= n && sha == MintedName(k)
  }

  /** checkPrevSHA without the forced conflict: creating needs no prevSHA, updating needs the
      current one. */
  predicate Accepts(existing: Option<Blob>, prevSHA: string) {
    match existing
    case None => prevSHA == ""
    case Some(blob) => blob.sha == prevSHA
  }

  /** A new SHA is none of the earlier ones, and never empty. */
  lemma FreshSha(n: nat, sha: string)
    requires sha == "" || Minted(sha, n)
    ensures MintedName(n + 1) != sha && MintedName(n + 1) != ""
  {
    if sha != "" && MintedName(n + 1) == sha {
      var k: nat :| 1 <= k <= n && sha == MintedName(k);
      assert Digits.Decimal(n + 1) == MintedName(n + 1)[3..] && Digits.Decimal(k) == MintedName(k)[3..];
      Digits.DecimalInjective(n + 1, k);
      assert false;
    }
  }

  lemma MintedLater(sha: string, n: nat, m: nat)
    requires Minted(sha, n) && n <= m
    ensures Minted(sha, m)
  {}

  lemma TextsUpdate(blobs: BlobMap, appID: string, blob: Blob)
    ensures Texts(blobs[appID := blob]) == Texts(blobs)[appID := blob.content]
  {}

  lemma CurrentIsAccepted(blobs: BlobMap, appID: string)
    ensures Accepts(BlobOf(blobs, appID), ShaOf(blobs, appID))
  {}
}
