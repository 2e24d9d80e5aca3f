/** internal/ledger: the schema of one appId's ledger file, the first-come-first-served rule, and
    the two updates the bots make to a ledger value. */
module Ledger {
  import opened Wrappers
  import AppId
  import Timestamp

  const ORIGIN_GITHUB := "github"
  const STATUS_ACTIVE := "active"
  const STATUS_REVOKED := "revoked"

  type Int64 = x: int | -0x8000_0000_0000_0000 <= x < 0x8000_0000_0000_0000

  datatype Owner = Owner(origin: string, repo: string)

  datatype Requester = Requester(origin: string, login: string, userId: Int64)

  /** Instants are nanoseconds since the epoch. The revocation fields are absent or empty while
      the certificate is active. */
  datatype Certificate = Certificate(
    serial: string,
    fingerprint: string,
    notBefore: int,
    notAfter: int,
    requester: Requester,
    issueRef: string,
    status: string,
    revokedFrom: Option<int>,
    reason: string,
    actor: string)
  {
    predicate Revoked() { status == STATUS_REVOKED }

    /** What Parse asks of one certificate. */
    predicate WellFormed() {
      status == STATUS_ACTIVE || (Revoked() && revokedFrom.Some?)
    }

    predicate InRange() {
      Timestamp.InRange(notBefore) && Timestamp.InRange(notAfter) &&
      (revokedFrom.Some? ==> Timestamp.InRange(revokedFrom.value))
    }

    /** The certificate as it reads back from a file: every instant cut to its second. */
    function Normal(): Certificate {
      this.(notBefore := Timestamp.Truncated(notBefore),
            notAfter := Timestamp.Truncated(notAfter),
            revokedFrom := if revokedFrom.Some? then Some(Timestamp.Truncated(revokedFrom.value)) else None)
    }

    /** The fields that say which certificate this is. */
    predicate SameIdentity(other: Certificate) {
      && serial == other.serial && fingerprint == other.fingerprint
      && notBefore == other.notBefore && notAfter == other.notAfter
      && requester == other.requester && issueRef == other.issueRef
    }
  }

  /** `certificates` is None for Go's nil slice, which prints as null. */
  datatype Ledger = Ledger(
    appID: string,
    owner: Owner,
    claimedAt: int,
    reserved: bool,
    certificates: Option<seq<Certificate>>)
  {
    function Certs(): seq<Certificate> {
      match certificates
      case Some(cs) => cs
      case None => []
    }

    /** The invariants Parse enforces. */
    predicate WellFormed() {
      AppId.Valid(appID) && forall i :: 0 <= i < |Certs()| ==> Certs()[i].WellFormed()
    }

    predicate InRange() {
      Timestamp.InRange(claimedAt) && forall i :: 0 <= i < |Certs()| ==> Certs()[i].InRange()
    }

    function Normal(): Ledger {
      this.(claimedAt := Timestamp.Truncated(claimedAt),
            certificates := if certificates.Some? then Some(NormalCerts(certificates.value)) else None)
    }
  }

  function NormalCerts(cs: seq<Certificate>): (r: seq<Certificate>)
    ensures |r| == |cs|
  {
    seq(|cs|, i requires 0 <= i < |cs| => cs[i].Normal())
  }

  /** A ledger as the bots leave it on disk: valid, printable, and already cut to seconds. */
  predicate Stored(l: Ledger) {
    l.WellFormed() && l.InRange() && l.Normal() == l
  }

  /** How ledgers are printed and read back: ledger.Marshal and ledger.Parse. The layers that only
      move ledgers around take the pair as a parameter. */
  datatype Codec = Codec(marshal: Ledger -> string, parse: string -> Option<Ledger>) {
    predicate RoundTrips(l: Ledger) {
      parse(marshal(l)) == if l.WellFormed() && l.InRange() then Some(l.Normal()) else None
    }

    /** Marshal then Parse gives the ledger cut to seconds, and refuses what is not valid or not
        printable. */
    ghost predicate Faithful() {
      forall l: Ledger :: RoundTrips(l)
    }
  }

  lemma NormalFacts(l: Ledger)
    ensures l.Normal().Normal() == l.Normal()
    ensures l.WellFormed() ==> l.Normal().WellFormed()
    ensures l.InRange() ==> l.Normal().InRange()
    ensures l.Normal().Certs() == NormalCerts(l.Certs())
  {
    forall i | 0 <= i < |l.Certs()|
      ensures l.Certs()[i].Normal().Normal() == l.Certs()[i].Normal()
      ensures l.Certs()[i].InRange() ==> l.Certs()[i].Normal().InRange()
    {
      NormalCertFacts(l.Certs()[i]);
    }
    Timestamp.TruncatedFacts(l.claimedAt, l.claimedAt);
    Timestamp.TruncatedInRange(l.claimedAt);
    assert NormalCerts(NormalCerts(l.Certs())) == NormalCerts(l.Certs());
  }

  lemma NormalCertFacts(c: Certificate)
    ensures c.Normal().Normal() == c.Normal()
    ensures c.InRange() ==> c.Normal().InRange()
  {
    Timestamp.TruncatedFacts(c.notBefore, c.notBefore);
    Timestamp.TruncatedFacts(c.notAfter, c.notAfter);
    Timestamp.TruncatedInRange(c.notBefore);
    Timestamp.TruncatedInRange(c.notAfter);
    if c.revokedFrom.Some? {
      Timestamp.TruncatedFacts(c.revokedFrom.value, c.revokedFrom.value);
      Timestamp.TruncatedInRange(c.revokedFrom.value);
    }
  }

  // ---- ownership ----

  datatype Decision = NewClaim | Allowed | RejectedMismatch | RejectedReserved

  /** ledger.Decide: `existing` is None when no file exists for the appId. */
  function Decide(existing: Option<Ledger>, targetRepo: string): Decision {
    if existing.None? then NewClaim
    else if existing.value.reserved then RejectedReserved
    else if existing.value.owner.repo == targetRepo then Allowed
    else RejectedMismatch
  }

  // ---- finding a certificate ----

  /** The two finders of internal/revoke: by fingerprint and by serial. */
  datatype Target = ByFingerprint(fingerprint: string) | BySerial(serial: string) {
    predicate Matches(c: Certificate) {
      match this
      case ByFingerprint(fp) => c.fingerprint == fp
      case BySerial(serial) => c.serial == serial
    }
  }

  /** Index of the first match, or -1. */
  function FindIn(cs: seq<Certificate>, t: Target): (i: int)
    ensures -1 <= i < |cs|
    ensures i >= 0 ==> t.Matches(cs[i]) && forall k :: 0 <= k < i ==> !t.Matches(cs[k])
    ensures i < 0 ==> forall k :: 0 <= k < |cs| ==> !t.Matches(cs[k])
  {
    if cs == [] then -1
    else if t.Matches(cs[0]) then 0
    else
      var i := FindIn(cs[1..], t);
      if i < 0 then -1 else i + 1
  }

  // ---- updates ----

  datatype Revocation = Revocation(reason: string, revokedFrom: int, actor: string)

  /** What a bot wants done to a ledger: record a new certificate for a proven repo (claiming the
      appId at `now` if nobody has), or mark one certificate revoked. */
  datatype Update =
    | Append(repo: string, now: int, entry: Certificate)
    | Flip(target: Target, revocation: Revocation)

  function RevokedCert(c: Certificate, r: Revocation): Certificate {
    c.(status := STATUS_REVOKED, revokedFrom := Some(r.revokedFrom), reason := r.reason, actor := r.actor)
  }

  /** The update on a ledger value in memory. None when there is nothing to flip. */
  function Revise(existing: Option<Ledger>, appID: string, u: Update): Option<Ledger> {
    match u
    case Append(repo, now, entry) =>
      var l := if existing.Some? then existing.value
               else Ledger(appID, Owner(ORIGIN_GITHUB, repo), now, false, None);
      Some(l.(certificates := Some(l.Certs() + [entry])))
    case Flip(target, revocation) =>
      if existing.None? then None
      else
        var l := existing.value;
        var i := FindIn(l.Certs(), target);
        if i < 0 then None
        else Some(l.(certificates := Some(l.Certs()[i := RevokedCert(l.Certs()[i], revocation)])))
  }
}
