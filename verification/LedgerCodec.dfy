/** ledger.Marshal and ledger.Parse: the ledger file as canonical JSON and back. */
module LedgerCodec {
  import opened Wrappers
  import opened Ledger
  import AppId
  import Digits
  import Json
  import Timestamp

  // ---- Marshal ----

  /** How instants are spelled: encoding/json calls ledger.Timestamp's own MarshalJSON and
      UnmarshalJSON through an interface, so the codec takes the pair as a parameter. */
  datatype TimeCodec = TimeCodec(write: int -> string, read: string -> Option<int>)

  const RFC3339 := TimeCodec(t => Timestamp.FormatTimestamp(t), s => Timestamp.ParseTimestamp(s))

  function Text(name: string, s: string): Json.Member {
    Json.Member(name, Json.Str(s))
  }

  function Time(tc: TimeCodec, name: string, t: int): Json.Member {
    Text(name, tc.write(t))
  }

  /** A string field tagged omitempty. */
  function OptionalText(name: string, s: string): seq<Json.Member> {
    if s == "" then [] else [Text(name, s)]
  }

  function OwnerJson(o: Owner): Json.Value {
    Json.Obj([Text("origin", o.origin), Text("repo", o.repo)])
  }

  function RequesterJson(r: Requester): Json.Value {
    Json.Obj([Text("origin", r.origin), Text("login", r.login),
              Json.Member("userId", Json.Number(Digits.Decimal(r.userId)))])
  }

  function RevokedFromField(tc: TimeCodec, t: Option<int>): seq<Json.Member> {
    if t.Some? then [Time(tc, "revokedFrom", t.value)] else []
  }

  function CertificateFields(tc: TimeCodec, c: Certificate): seq<Json.Member> {
    [Text("serial", c.serial)] + ([Text("fingerprint", c.fingerprint)]
    + ([Time(tc, "notBefore", c.notBefore)] + ([Time(tc, "notAfter", c.notAfter)]
    + ([Json.Member("requester", RequesterJson(c.requester))]
    + ([Text("issueRef", c.issueRef)] + ([Text("status", c.status)]
    + (RevokedFromField(tc, c.revokedFrom)
    + (OptionalText("reason", c.reason) + OptionalText("actor", c.actor)))))))))
  }

  function CertificateItems(tc: TimeCodec, cs: seq<Certificate>): (r: seq<Json.Value>)
    ensures |r| == |cs|
  {
    seq(|cs|, i requires 0 <= i < |cs| => Json.Obj(CertificateFields(tc, cs[i])))
  }

  function CertificatesJson(tc: TimeCodec, cs: Option<seq<Certificate>>): Json.Value {
    match cs
    case None => Json.Null
    case Some(items) => Json.Arr(CertificateItems(tc, items))
  }

  function ReservedField(reserved: bool): seq<Json.Member> {
    if reserved then [Json.Member("reserved", Json.Bool(true))] else []
  }

  function LedgerFields(tc: TimeCodec, l: Ledger): seq<Json.Member> {
    [Text("appId", l.appID)] + ([Json.Member("owner", OwnerJson(l.owner))]
    + ([Time(tc, "claimedAt", l.claimedAt)] + (ReservedField(l.reserved)
    + [Json.Member("certificates", CertificatesJson(tc, l.certificates))])))
  }

  function Marshal(l: Ledger): string {
    Json.Write(Json.Obj(LedgerFields(RFC3339, l)), 0) + "\n"
  }

  // ---- the schema ----

  function Names(fields: seq<Json.Member>): seq<string> {
    seq(|fields|, i requires 0 <= i < |fields| => fields[i].name)
  }

  /** The members of a ledger, in the order of the schema; `reserved` is left out unless set. */
  lemma LedgerSchema(tc: TimeCodec, l: Ledger)
    ensures var fields := LedgerFields(tc, l);
            && Names(fields) == ["appId", "owner", "claimedAt"] + (if l.reserved then ["reserved"] else []) +
                 ["certificates"]
            && fields[0].value == Json.Str(l.appID) && fields[1].value == OwnerJson(l.owner)
            && fields[2].value == Json.Str(tc.write(l.claimedAt)) && (l.reserved ==> fields[3].value == Json.Bool(true))
            && fields[|fields| - 1].value ==
                 if l.certificates.None? then Json.Null else Json.Arr(CertificateItems(tc, l.certificates.value))
    ensures OwnerJson(l.owner) ==
            Json.Obj([Json.Member("origin", Json.Str(l.owner.origin)), Json.Member("repo", Json.Str(l.owner.repo))])
  {}

  /** The members of a certificate, likewise; the revocation fields are left out while they are empty. */
  lemma CertificateSchema(tc: TimeCodec, c: Certificate)
    ensures Names(CertificateFields(tc, c)) ==
            ["serial", "fingerprint", "notBefore", "notAfter", "requester", "issueRef", "status"]
            + (if c.revokedFrom.Some? then ["revokedFrom"] else [])
            + (if c.reason != "" then ["reason"] else []) + (if c.actor != "" then ["actor"] else [])
  {}

  /** Each with its own value. */
  lemma CertificateValues(tc: TimeCodec, c: Certificate)
    ensures var fields := CertificateFields(tc, c);
            && |fields| >= 7
            && fields[0].value == Json.Str(c.serial) && fields[1].value == Json.Str(c.fingerprint)
            && fields[2].value == Json.Str(tc.write(c.notBefore)) && fields[3].value == Json.Str(tc.write(c.notAfter))
            && fields[4].value == RequesterJson(c.requester)
            && fields[5].value == Json.Str(c.issueRef) && fields[6].value == Json.Str(c.status)
    ensures RequesterJson(c.requester) ==
            Json.Obj([Json.Member("origin", Json.Str(c.requester.origin)),
                      Json.Member("login", Json.Str(c.requester.login)),
                      Json.Member("userId", Json.Number(Digits.Decimal(c.requester.userId)))])
  {}

  lemma RevocationSchema(tc: TimeCodec, c: Certificate)
    ensures var fields := CertificateFields(tc, c);
            && (c.revokedFrom.Some? ==> Json.Member("revokedFrom", Json.Str(tc.write(c.revokedFrom.value))) in fields)
            && (c.reason != "" ==> Json.Member("reason", Json.Str(c.reason)) in fields)
            && (c.actor != "" ==> Json.Member("actor", Json.Str(c.actor)) in fields)
  {}

  // ---- Parse ----

  /** encoding/json matches keys up to simple case folding; the long s and the Kelvin sign are
      the only characters outside ASCII that fold to a letter. */
  function FoldChar(c: char): char {
    if 'a' <= c <= 'z' then (c as int - 32) as char
    else if c == '\U{017F}' then 'S'
    else if c == '\U{212A}' then 'K'
    else c
  }

  function FoldName(s: string): string {
    seq(|s|, i requires 0 <= i < |s| => FoldChar(s[i]))
  }

  /** Position of a folded key among the names of a struct's fields, or their number. */
  function KeyIndex(names: seq<string>, key: string): (i: nat)
    ensures i <= |names|
  {
    if names == [] then 0
    else if names[0] == key then 0
    else 1 + KeyIndex(names[1..], key)
  }

  const OWNER_KEYS := ["ORIGIN", "REPO"]
  const REQUESTER_KEYS := ["ORIGIN", "LOGIN", "USERID"]
  const CERTIFICATE_KEYS :=
    ["SERIAL", "FINGERPRINT", "NOTBEFORE", "NOTAFTER", "REQUESTER", "ISSUEREF", "STATUS", "REVOKEDFROM", "REASON",
     "ACTOR"]
  const LEDGER_KEYS := ["APPID", "OWNER", "CLAIMEDAT", "RESERVED", "CERTIFICATES"]

  function Key(names: seq<string>, name: string): nat {
    KeyIndex(names, FoldName(name))
  }

  /** A JSON null leaves a plain field as it was. */
  function ReadText(v: Json.Value, was: string): Option<string> {
    match v
    case Str(s) => Some(s)
    case Null => Some(was)
    case _ => None
  }

  function ReadTime(tc: TimeCodec, v: Json.Value): Option<int> {
    match v
    case Str(s) => tc.read(s)
    case _ => None
  }

  function ReadInt64(v: Json.Value, was: Int64): Option<Int64> {
    match v
    case Number(literal) =>
      var n :- Digits.SignedValue(literal, 10);
      if -0x8000_0000_0000_0000 <= n < 0x8000_0000_0000_0000 then Some(n) else None
    case Null => Some(was)
    case _ => None
  }

  /** One member of an object onto the value read so far; an unknown key or a value of the
      wrong type is an error. */
  function OwnerField(o: Owner, m: Json.Member): Option<Owner> {
    match Key(OWNER_KEYS, m.name)
    case 0 =>
      var s :- ReadText(m.value, o.origin);
      Some(o.(origin := s))
    case 1 =>
      var s :- ReadText(m.value, o.repo);
      Some(o.(repo := s))
    case _ => None
  }

  function OwnerFrom(o: Owner, fields: seq<Json.Member>): Option<Owner>
    decreases |fields|
  {
    if fields == [] then Some(o)
    else
      var next :- OwnerField(o, fields[0]);
      OwnerFrom(next, fields[1..])
  }

  function ReadOwner(v: Json.Value, was: Owner): Option<Owner> {
    match v
    case Obj(fields) => OwnerFrom(was, fields)
    case Null => Some(was)
    case _ => None
  }

  function RequesterField(r: Requester, m: Json.Member): Option<Requester> {
    match Key(REQUESTER_KEYS, m.name)
    case 0 =>
      var s :- ReadText(m.value, r.origin);
      Some(r.(origin := s))
    case 1 =>
      var s :- ReadText(m.value, r.login);
      Some(r.(login := s))
    case 2 =>
      var n :- ReadInt64(m.value, r.userId);
      Some(r.(userId := n))
    case _ => None
  }

  function RequesterFrom(r: Requester, fields: seq<Json.Member>): Option<Requester>
    decreases |fields|
  {
    if fields == [] then Some(r)
    else
      var next :- RequesterField(r, fields[0]);
      RequesterFrom(next, fields[1..])
  }

  function ReadRequester(v: Json.Value, was: Requester): Option<Requester> {
    match v
    case Obj(fields) => RequesterFrom(was, fields)
    case Null => Some(was)
    case _ => None
  }

  function CertificateField(tc: TimeCodec, c: Certificate, m: Json.Member): Option<Certificate> {
    match Key(CERTIFICATE_KEYS, m.name)
    case 0 =>
      var s :- ReadText(m.value, c.serial);
      Some(c.(serial := s))
    case 1 =>
      var s :- ReadText(m.value, c.fingerprint);
      Some(c.(fingerprint := s))
    case 2 =>
      var t :- ReadTime(tc, m.value);
      Some(c.(notBefore := t))
    case 3 =>
      var t :- ReadTime(tc, m.value);
      Some(c.(notAfter := t))
    case 4 =>
      var r :- ReadRequester(m.value, c.requester);
      Some(c.(requester := r))
    case 5 =>
      var s :- ReadText(m.value, c.issueRef);
      Some(c.(issueRef := s))
    case 6 =>
      var s :- ReadText(m.value, c.status);
      Some(c.(status := s))
    case 7 =>
      if m.value.Null? then Some(c.(revokedFrom := None))
      else
        var t :- ReadTime(tc, m.value);
        Some(c.(revokedFrom := Some(t)))
    case 8 =>
      var s :- ReadText(m.value, c.reason);
      Some(c.(reason := s))
    case 9 =>
      var s :- ReadText(m.value, c.actor);
      Some(c.(actor := s))
    case _ => None
  }

  function CertificateFrom(tc: TimeCodec, c: Certificate, fields: seq<Json.Member>): Option<Certificate>
    decreases |fields|
  {
    if fields == [] then Some(c)
    else
      var next :- CertificateField(tc, c, fields[0]);
      CertificateFrom(tc, next, fields[1..])
  }

  /** Go's zero time is January 1st of year 1. */
  const ZERO_TIME: int := -62_135_596_800_000_000_000
  const ZERO_CERTIFICATE :=
    Certificate("", "", ZERO_TIME, ZERO_TIME, Requester("", "", 0), "", "", None, "", "")
  const ZERO_LEDGER := Ledger("", Owner("", ""), ZERO_TIME, false, None)

  function ReadCertificate(tc: TimeCodec, v: Json.Value): Option<Certificate> {
    match v
    case Obj(fields) => CertificateFrom(tc, ZERO_CERTIFICATE, fields)
    case Null => Some(ZERO_CERTIFICATE)
    case _ => None
  }

  function ReadCertificates(tc: TimeCodec, items: seq<Json.Value>): Option<seq<Certificate>> {
    if items == [] then Some([])
    else
      var c :- ReadCertificate(tc, items[0]);
      var more :- ReadCertificates(tc, items[1..]);
      Some([c] + more)
  }

  function LedgerField(tc: TimeCodec, l: Ledger, m: Json.Member): Option<Ledger> {
    match Key(LEDGER_KEYS, m.name)
    case 0 =>
      var s :- ReadText(m.value, l.appID);
      Some(l.(appID := s))
    case 1 =>
      var o :- ReadOwner(m.value, l.owner);
      Some(l.(owner := o))
    case 2 =>
      var t :- ReadTime(tc, m.value);
      Some(l.(claimedAt := t))
    case 3 => (
      match m.value
      case Bool(b) => Some(l.(reserved := b))
      case Null => Some(l)
      case _ => None)
    case 4 => (
      match m.value
      case Arr(items) =>
        var cs :- ReadCertificates(tc, items);
        Some(l.(certificates := Some(cs)))
      case Null => Some(l.(certificates := None))
      case _ => None)
    case _ => None
  }

  function LedgerFrom(tc: TimeCodec, l: Ledger, fields: seq<Json.Member>): Option<Ledger>
    decreases |fields|
  {
    if fields == [] then Some(l)
    else
      var next :- LedgerField(tc, l, fields[0]);
      LedgerFrom(tc, next, fields[1..])
  }

  function LedgerFromJson(tc: TimeCodec, v: Json.Value): Option<Ledger> {
    match v
    case Obj(fields) => LedgerFrom(tc, ZERO_LEDGER, fields)
    case Null => Some(ZERO_LEDGER)
    case _ => None
  }

  /** The decoder stops after the first value; what follows it is not looked at. */
  function Decode(tc: TimeCodec, data: string): Option<Ledger> {
    var (v, _) :- Json.Read(data);
    LedgerFromJson(tc, v)
  }

  function Parse(data: string): (r: Option<Ledger>)
    ensures r.Some? ==> r.value.WellFormed()
  {
    var l :- Decode(RFC3339, data);
    if l.WellFormed() then Some(l) else None
  }

  // ---- the round trip ----

  lemma {:induction false} KeyAt(names: seq<string>, i: nat)
    requires i < |names| && forall j :: 0 <= j < i ==> names[j] != names[i]
    ensures KeyIndex(names, names[i]) == i
  {
    if i > 0 {
      assert names[1..][i - 1] == names[i];
      KeyAt(names[1..], i - 1);
    }
  }

  lemma OwnerKeys()
    ensures Key(OWNER_KEYS, "origin") == 0 && Key(OWNER_KEYS, "repo") == 1
  {
    assert FoldName("origin") == OWNER_KEYS[0] && FoldName("repo") == OWNER_KEYS[1];
    KeyAt(OWNER_KEYS, 0);
    KeyAt(OWNER_KEYS, 1);
  }

  lemma RequesterKeys()
    ensures Key(REQUESTER_KEYS, "origin") == 0 && Key(REQUESTER_KEYS, "login") == 1
    ensures Key(REQUESTER_KEYS, "userId") == 2
  {
    var k := REQUESTER_KEYS;
    assert FoldName("origin") == k[0] && FoldName("login") == k[1] && FoldName("userId") == k[2];
    KeyAt(k, 0);
    KeyAt(k, 1);
    KeyAt(k, 2);
  }

  lemma LedgerKeys()
    ensures Key(LEDGER_KEYS, "appId") == 0 && Key(LEDGER_KEYS, "owner") == 1 && Key(LEDGER_KEYS, "claimedAt") == 2
    ensures Key(LEDGER_KEYS, "reserved") == 3 && Key(LEDGER_KEYS, "certificates") == 4
  {
    var k := LEDGER_KEYS;
    assert FoldName("appId") == k[0] && FoldName("owner") == k[1] && FoldName("claimedAt") == k[2];
    assert FoldName("reserved") == k[3] && FoldName("certificates") == k[4];
    assert k[0][0] != k[1][0];
    KeyAt(k, 0);
    KeyAt(k, 1);
    KeyAt(k, 2);
    KeyAt(k, 3);
    KeyAt(k, 4);
  }

  lemma CertificateKeysDistinct()
    ensures forall i, j :: 0 <= i < j < 10 ==> CERTIFICATE_KEYS[i] != CERTIFICATE_KEYS[j]
  {
    var k := CERTIFICATE_KEYS;
    assert |k[0]| == 6 && |k[1]| == 11 && |k[2]| == 9 && |k[3]| == 8 && |k[4]| == 9;
    assert |k[5]| == 8 && |k[6]| == 6 && |k[7]| == 11 && |k[8]| == 6 && |k[9]| == 5;
    assert k[0][1] == 'E' && k[6][1] == 'T' && k[8][1] == 'E' && k[0][0] == 'S' && k[8][0] == 'R';
    assert k[1][0] == 'F' && k[7][0] == 'R' && k[2][0] == 'N' && k[4][0] == 'R' && k[3][0] == 'N' && k[5][0] == 'I';
  }

  lemma CertificateKey(name: string, i: nat)
    requires i < 10 && FoldName(name) == CERTIFICATE_KEYS[i]
    ensures Key(CERTIFICATE_KEYS, name) == i
  {
    CertificateKeysDistinct();
    KeyAt(CERTIFICATE_KEYS, i);
  }

  lemma OwnerRoundTrip(o: Owner, was: Owner)
    ensures ReadOwner(OwnerJson(o), was) == Some(o)
  {
    OwnerKeys();
    var a, b := Text("origin", o.origin), Text("repo", o.repo);
    var o1 := was.(origin := o.origin);
    assert [a, b][1..] == [b] && [b][1..] == [];
    assert OwnerField(was, a) == Some(o1);
    assert OwnerField(o1, b) == Some(o);
    assert OwnerFrom(o1, [b]) == Some(o);
  }

  lemma RequesterRoundTrip(r: Requester, was: Requester)
    ensures ReadRequester(RequesterJson(r), was) == Some(r)
  {
    RequesterKeys();
    Digits.DecimalRoundTrip(r.userId);
    var a, b := Text("origin", r.origin), Text("login", r.login);
    var c := Json.Member("userId", Json.Number(Digits.Decimal(r.userId)));
    var r1 := was.(origin := r.origin);
    var r2 := r1.(login := r.login);
    assert [a, b, c][1..] == [b, c] && [b, c][1..] == [c] && [c][1..] == [];
    assert RequesterField(was, a) == Some(r1);
    assert RequesterField(r1, b) == Some(r2);
    assert RequesterField(r2, c) == Some(r);
    assert RequesterFrom(r2, [c]) == Some(r);
    assert RequesterFrom(r1, [b, c]) == Some(r);
  }

  /** What an instant reads back as through a time codec. */
  function Reread(tc: TimeCodec, t: int): Option<int> {
    tc.read(tc.write(t))
  }

  /** What a certificate reads back as: the same with its instants reread, if they all reread. */
  function RereadCertificate(tc: TimeCodec, c: Certificate): Option<Certificate> {
    var notBefore :- Reread(tc, c.notBefore);
    var notAfter :- Reread(tc, c.notAfter);
    var start := c.(notBefore := notBefore, notAfter := notAfter);
    if c.revokedFrom.None? then Some(start)
    else
      var revokedFrom :- Reread(tc, c.revokedFrom.value);
      Some(start.(revokedFrom := Some(revokedFrom)))
  }

  lemma CertificateStep(tc: TimeCodec, c: Certificate, m: Json.Member, rest: seq<Json.Member>)
    ensures CertificateFrom(tc, c, [m] + rest) ==
            match CertificateField(tc, c, m) {
              case Some(next) => CertificateFrom(tc, next, rest)
              case None => None
            }
  {
    assert ([m] + rest)[1..] == rest;
  }

  // Each member onto a certificate, one lemma a field.

  lemma SerialStep(tc: TimeCodec, was: Certificate, s: string, rest: seq<Json.Member>)
    ensures CertificateFrom(tc, was, [Text("serial", s)] + rest) == CertificateFrom(tc, was.(serial := s), rest)
  {
    CertificateKey("serial", 0);
    CertificateStep(tc, was, Text("serial", s), rest);
  }

  lemma FingerprintStep(tc: TimeCodec, was: Certificate, s: string, rest: seq<Json.Member>)
    ensures CertificateFrom(tc, was, [Text("fingerprint", s)] + rest) ==
              CertificateFrom(tc, was.(fingerprint := s), rest)
  {
    CertificateKey("fingerprint", 1);
    CertificateStep(tc, was, Text("fingerprint", s), rest);
  }

  lemma NotBeforeStep(tc: TimeCodec, was: Certificate, t: int, rest: seq<Json.Member>)
    ensures CertificateFrom(tc, was, [Time(tc, "notBefore", t)] + rest) ==
            match Reread(tc, t) {
              case Some(u) => CertificateFrom(tc, was.(notBefore := u), rest)
              case None => None
            }
  {
    CertificateKey("notBefore", 2);
    CertificateStep(tc, was, Time(tc, "notBefore", t), rest);
  }

  lemma NotAfterStep(tc: TimeCodec, was: Certificate, t: int, rest: seq<Json.Member>)
    ensures CertificateFrom(tc, was, [Time(tc, "notAfter", t)] + rest) ==
            match Reread(tc, t) {
              case Some(u) => CertificateFrom(tc, was.(notAfter := u), rest)
              case None => None
            }
  {
    CertificateKey("notAfter", 3);
    CertificateStep(tc, was, Time(tc, "notAfter", t), rest);
  }

  lemma RequesterStep(tc: TimeCodec, was: Certificate, r: Requester, rest: seq<Json.Member>)
    ensures CertificateFrom(tc, was, [Json.Member("requester", RequesterJson(r))] + rest) ==
            CertificateFrom(tc, was.(requester := r), rest)
  {
    CertificateKey("requester", 4);
    RequesterRoundTrip(r, was.requester);
    CertificateStep(tc, was, Json.Member("requester", RequesterJson(r)), rest);
  }

  lemma IssueRefStep(tc: TimeCodec, was: Certificate, s: string, rest: seq<Json.Member>)
    ensures CertificateFrom(tc, was, [Text("issueRef", s)] + rest) == CertificateFrom(tc, was.(issueRef := s), rest)
  {
    CertificateKey("issueRef", 5);
    CertificateStep(tc, was, Text("issueRef", s), rest);
  }

  lemma StatusStep(tc: TimeCodec, was: Certificate, s: string, rest: seq<Json.Member>)
    ensures CertificateFrom(tc, was, [Text("status", s)] + rest) == CertificateFrom(tc, was.(status := s), rest)
  {
    CertificateKey("status", 6);
    CertificateStep(tc, was, Text("status", s), rest);
  }

  lemma RevokedFromStep(tc: TimeCodec, was: Certificate, t: int, rest: seq<Json.Member>)
    ensures CertificateFrom(tc, was, [Time(tc, "revokedFrom", t)] + rest) ==
            match Reread(tc, t) {
              case Some(u) => CertificateFrom(tc, was.(revokedFrom := Some(u)), rest)
              case None => None
            }
  {
    CertificateKey("revokedFrom", 7);
    CertificateStep(tc, was, Time(tc, "revokedFrom", t), rest);
  }

  lemma ReasonStep(tc: TimeCodec, was: Certificate, s: string, rest: seq<Json.Member>)
    requires was.reason == ""
    ensures CertificateFrom(tc, was, OptionalText("reason", s) + rest) == CertificateFrom(tc, was.(reason := s), rest)
  {
    if s == "" {
      assert [] + rest == rest;
    } else {
      ReasonText(tc, was, s, rest);
    }
  }

  lemma ReasonText(tc: TimeCodec, was: Certificate, s: string, rest: seq<Json.Member>)
    ensures CertificateFrom(tc, was, [Text("reason", s)] + rest) == CertificateFrom(tc, was.(reason := s), rest)
  {
    CertificateKey("reason", 8);
    CertificateStep(tc, was, Text("reason", s), rest);
  }

  lemma ActorStep(tc: TimeCodec, was: Certificate, s: string)
    requires was.actor == ""
    ensures CertificateFrom(tc, was, OptionalText("actor", s)) == Some(was.(actor := s))
  {
    if s != "" {
      CertificateKey("actor", 9);
      CertificateStep(tc, was, Text("actor", s), []);
      assert [Text("actor", s)] + [] == OptionalText("actor", s);
    }
  }

  lemma OptionalFields(tc: TimeCodec, was: Certificate, c: Certificate)
    requires was.revokedFrom.None? && was.reason == "" && was.actor == ""
    ensures CertificateFrom(tc, was, RevokedFromField(tc, c.revokedFrom)
                                     + (OptionalText("reason", c.reason) + OptionalText("actor", c.actor))) ==
            if c.revokedFrom.None? then Some(was.(reason := c.reason, actor := c.actor))
            else match Reread(tc, c.revokedFrom.value) {
              case Some(u) => Some(was.(revokedFrom := Some(u), reason := c.reason, actor := c.actor))
              case None => None
            }
  {
    var actor := OptionalText("actor", c.actor);
    var tail := OptionalText("reason", c.reason) + actor;
    if c.revokedFrom.None? {
      assert [] + tail == tail;
      ReasonStep(tc, was, c.reason, actor);
      ActorStep(tc, was.(reason := c.reason), c.actor);
    } else {
      RevokedFromStep(tc, was, c.revokedFrom.value, tail);
      if Reread(tc, c.revokedFrom.value).Some? {
        var dated := was.(revokedFrom := Some(Reread(tc, c.revokedFrom.value).value));
        ReasonStep(tc, dated, c.reason, actor);
        ActorStep(tc, dated.(reason := c.reason), c.actor);
      }
    }
  }

  /** The fields from the requester on. */
  lemma SecondHalf(tc: TimeCodec, was: Certificate, c: Certificate)
    requires was.revokedFrom.None? && was.reason == "" && was.actor == ""
    ensures var tail := RevokedFromField(tc, c.revokedFrom) +
              (OptionalText("reason", c.reason) + OptionalText("actor", c.actor));
            CertificateFrom(tc, was, [Json.Member("requester", RequesterJson(c.requester))]
                                     + ([Text("issueRef", c.issueRef)] + ([Text("status", c.status)] + tail))) ==
            CertificateFrom(tc, was.(requester := c.requester, issueRef := c.issueRef, status := c.status), tail)
  {
    var tail := RevokedFromField(tc, c.revokedFrom) +
        (OptionalText("reason", c.reason) + OptionalText("actor", c.actor));
    var status := [Text("status", c.status)] + tail;
    RequesterStep(tc, was, c.requester, [Text("issueRef", c.issueRef)] + status);
    IssueRefStep(tc, was.(requester := c.requester), c.issueRef, status);
    StatusStep(tc, was.(requester := c.requester, issueRef := c.issueRef), c.status, tail);
  }

  /** The fields up to notAfter. */
  lemma FirstHalf(tc: TimeCodec, was: Certificate, c: Certificate, rest: seq<Json.Member>)
    ensures CertificateFrom(tc, was, [Text("serial", c.serial)] + ([Text("fingerprint", c.fingerprint)]
              + ([Time(tc, "notBefore", c.notBefore)] + ([Time(tc, "notAfter", c.notAfter)] + rest)))) ==
            if Reread(tc, c.notBefore).Some? && Reread(tc, c.notAfter).Some?
            then CertificateFrom(tc, was.(serial := c.serial, fingerprint := c.fingerprint,
                   notBefore := Reread(tc, c.notBefore).value, notAfter := Reread(tc, c.notAfter).value), rest)
            else None
  {
    var notAfter := [Time(tc, "notAfter", c.notAfter)] + rest;
    var notBefore := [Time(tc, "notBefore", c.notBefore)] + notAfter;
    var w := was.(serial := c.serial, fingerprint := c.fingerprint);
    SerialStep(tc, was, c.serial, [Text("fingerprint", c.fingerprint)] + notBefore);
    FingerprintStep(tc, was.(serial := c.serial), c.fingerprint, notBefore);
    NotBeforeStep(tc, w, c.notBefore, notAfter);
    if Reread(tc, c.notBefore).Some? {
      NotAfterStep(tc, w.(notBefore := Reread(tc, c.notBefore).value), c.notAfter, rest);
    }
  }

  lemma CertificateRoundTrip(tc: TimeCodec, c: Certificate)
    ensures ReadCertificate(tc, Json.Obj(CertificateFields(tc, c))) == RereadCertificate(tc, c)
  {
    var tail := RevokedFromField(tc, c.revokedFrom) +
        (OptionalText("reason", c.reason) + OptionalText("actor", c.actor));
    FirstHalf(tc, ZERO_CERTIFICATE, c, [Json.Member("requester", RequesterJson(c.requester))]
                                       + ([Text("issueRef", c.issueRef)] + ([Text("status", c.status)] + tail)));
    if Reread(tc, c.notBefore).Some? && Reread(tc, c.notAfter).Some? {
      var w := ZERO_CERTIFICATE.(serial := c.serial, fingerprint := c.fingerprint,
                 notBefore := Reread(tc, c.notBefore).value, notAfter := Reread(tc, c.notAfter).value);
      SecondHalf(tc, w, c);
      OptionalFields(tc, w.(requester := c.requester, issueRef := c.issueRef, status := c.status), c);
    }
  }

  function RereadCertificates(tc: TimeCodec, cs: seq<Certificate>): Option<seq<Certificate>> {
    if cs == [] then Some([])
    else
      var c :- RereadCertificate(tc, cs[0]);
      var more :- RereadCertificates(tc, cs[1..]);
      Some([c] + more)
  }

  lemma {:induction false} CertificatesRoundTrip(tc: TimeCodec, cs: seq<Certificate>)
    ensures ReadCertificates(tc, CertificateItems(tc, cs)) == RereadCertificates(tc, cs)
  {
    if cs != [] {
      CertificateRoundTrip(tc, cs[0]);
      CertificatesRoundTrip(tc, cs[1..]);
      assert CertificateItems(tc, cs)[1..] == CertificateItems(tc, cs[1..]);
    }
  }

  lemma LedgerStep(tc: TimeCodec, l: Ledger, m: Json.Member, rest: seq<Json.Member>)
    ensures LedgerFrom(tc, l, [m] + rest) ==
            match LedgerField(tc, l, m) {
              case Some(next) => LedgerFrom(tc, next, rest)
              case None => None
            }
  {
    assert ([m] + rest)[1..] == rest;
  }

  function RereadLedger(tc: TimeCodec, l: Ledger): Option<Ledger> {
    var claimedAt :- Reread(tc, l.claimedAt);
    if l.certificates.None? then Some(l.(claimedAt := claimedAt))
    else
      var cs :- RereadCertificates(tc, l.certificates.value);
      Some(l.(claimedAt := claimedAt, certificates := Some(cs)))
  }

  lemma LedgerHead(tc: TimeCodec, l: Ledger, rest: seq<Json.Member>)
    ensures LedgerFrom(tc, ZERO_LEDGER, [Text("appId", l.appID)] + ([Json.Member("owner", OwnerJson(l.owner))]
              + ([Time(tc, "claimedAt", l.claimedAt)] + rest))) ==
            if Reread(tc, l.claimedAt).Some?
            then LedgerFrom(tc, ZERO_LEDGER.(appID := l.appID, owner := l.owner,
                                             claimedAt := Reread(tc, l.claimedAt).value), rest)
            else None
  {
    LedgerKeys();
    OwnerRoundTrip(l.owner, ZERO_LEDGER.owner);
    var l1 := ZERO_LEDGER.(appID := l.appID);
    var l2 := l1.(owner := l.owner);
    LedgerStep(tc, ZERO_LEDGER, Text("appId", l.appID),
               [Json.Member("owner", OwnerJson(l.owner))] + ([Time(tc, "claimedAt", l.claimedAt)] + rest));
    LedgerStep(tc, l1, Json.Member("owner", OwnerJson(l.owner)), [Time(tc, "claimedAt", l.claimedAt)] + rest);
    LedgerStep(tc, l2, Time(tc, "claimedAt", l.claimedAt), rest);
  }

  lemma ReservedStep(tc: TimeCodec, was: Ledger, reserved: bool, rest: seq<Json.Member>)
    requires !was.reserved
    ensures LedgerFrom(tc, was, ReservedField(reserved) + rest) == LedgerFrom(tc, was.(reserved := reserved), rest)
  {
    if reserved {
      LedgerKeys();
      LedgerStep(tc, was, Json.Member("reserved", Json.Bool(true)), rest);
    } else {
      assert [] + rest == rest;
    }
  }

  lemma CertificatesStep(tc: TimeCodec, was: Ledger, cs: Option<seq<Certificate>>)
    requires was.certificates.None?
    ensures LedgerFrom(tc, was, [Json.Member("certificates", CertificatesJson(tc, cs))]) ==
            if cs.None? then Some(was)
            else match RereadCertificates(tc, cs.value) {
              case Some(read) => Some(was.(certificates := Some(read)))
              case None => None
            }
  {
    LedgerKeys();
    var m := Json.Member("certificates", CertificatesJson(tc, cs));
    LedgerStep(tc, was, m, []);
    assert [m] + [] == [m];
    if cs.Some? {
      CertificatesRoundTrip(tc, cs.value);
    }
  }

  /** The decoder undoes the encoder, for any spelling of instants. */
  lemma LedgerJsonRoundTrip(tc: TimeCodec, l: Ledger)
    ensures LedgerFromJson(tc, Json.Obj(LedgerFields(tc, l))) == RereadLedger(tc, l)
  {
    var rest := ReservedField(l.reserved) + [Json.Member("certificates", CertificatesJson(tc, l.certificates))];
    LedgerHead(tc, l, rest);
    if Reread(tc, l.claimedAt).Some? {
      var was := ZERO_LEDGER.(appID := l.appID, owner := l.owner, claimedAt := Reread(tc, l.claimedAt).value);
      ReservedStep(tc, was, l.reserved, [Json.Member("certificates", CertificatesJson(tc, l.certificates))]);
      CertificatesStep(tc, was.(reserved := l.reserved), l.certificates);
    }
  }

  // ---- the text is a JSON value ----

  lemma DecimalLiteral(n: int)
    ensures Json.IsNumberLiteral(Digits.Decimal(n))
  {
    var s := Digits.Text(if n < 0 then -n else n, 10);
    Digits.TextIsCanonical(if n < 0 then -n else n, 10);
    forall i | 0 <= i < |s|
      ensures Digits.IsDecimal(s[i])
    {
      assert Digits.IsLowerHex(s[i]) && Digits.DigitValue(s[i]).value < 10;
    }
    AllDigits(s);
    assert s[|s|..] == "";
    if n < 0 {
      assert Digits.Decimal(n)[1..] == s;
    }
  }

  lemma {:induction false} AllDigits(s: string)
    requires forall i :: 0 <= i < |s| ==> Digits.IsDecimal(s[i])
    ensures Json.DigitRun(s) == |s|
  {
    if s != "" {
      AllDigits(s[1..]);
    }
  }

  lemma JsonMembersAppend(a: seq<Json.Member>, b: seq<Json.Member>)
    requires Json.WellFormed(Json.Obj(a)) && Json.WellFormed(Json.Obj(b))
    ensures Json.WellFormed(Json.Obj(a + b))
  {}

  lemma TextsWellFormed(ms: seq<Json.Member>)
    requires forall i :: 0 <= i < |ms| ==> ms[i].value.Str?
    ensures Json.WellFormed(Json.Obj(ms))
  {}

  /** The fields before the requester, all texts. */
  function CertificateHead(tc: TimeCodec, c: Certificate): seq<Json.Member> {
    [Text("serial", c.serial)] + [Text("fingerprint", c.fingerprint)]
    + [Time(tc, "notBefore", c.notBefore)] + [Time(tc, "notAfter", c.notAfter)]
  }

  /** The fields after it, all texts too. */
  function CertificateTail(tc: TimeCodec, c: Certificate): seq<Json.Member> {
    [Text("issueRef", c.issueRef)] + ([Text("status", c.status)]
    + (RevokedFromField(tc, c.revokedFrom) + (OptionalText("reason", c.reason) + OptionalText("actor", c.actor))))
  }

  lemma HeadWellFormed(tc: TimeCodec, c: Certificate)
    ensures Json.WellFormed(Json.Obj(CertificateHead(tc, c)))
  {
    TextsWellFormed(CertificateHead(tc, c));
  }

  lemma TailWellFormed(tc: TimeCodec, c: Certificate)
    ensures Json.WellFormed(Json.Obj(CertificateTail(tc, c)))
  {
    TextsWellFormed(CertificateTail(tc, c));
  }

  lemma RequesterWellFormed(r: Requester)
    ensures Json.WellFormed(Json.Obj([Json.Member("requester", RequesterJson(r))]))
  {
    DecimalLiteral(r.userId);
    assert Json.WellFormed(RequesterJson(r));
  }

  lemma CertificateWellFormed(tc: TimeCodec, c: Certificate)
    ensures Json.WellFormed(Json.Obj(CertificateFields(tc, c)))
  {
    var requester := [Json.Member("requester", RequesterJson(c.requester))];
    HeadWellFormed(tc, c);
    TailWellFormed(tc, c);
    RequesterWellFormed(c.requester);
    JsonMembersAppend(requester, CertificateTail(tc, c));
    JsonMembersAppend(CertificateHead(tc, c), requester + CertificateTail(tc, c));
    FieldsInParts([Text("serial", c.serial)], [Text("fingerprint", c.fingerprint)],
                  [Time(tc, "notBefore", c.notBefore)], [Time(tc, "notAfter", c.notAfter)],
                      requester + CertificateTail(tc, c));
  }

  lemma FieldsInParts(a: seq<Json.Member>, b: seq<Json.Member>, c: seq<Json.Member>, d: seq<Json.Member>,
                      e: seq<Json.Member>)
    ensures a + b + c + d + e == a + (b + (c + (d + e)))
  {}

  lemma LedgerWellFormed(tc: TimeCodec, l: Ledger)
    ensures Json.WellFormed(Json.Obj(LedgerFields(tc, l)))
  {
    var items := CertificateItems(tc, l.Certs());
    forall i | 0 <= i < |items|
      ensures Json.WellFormed(items[i])
    {
      CertificateWellFormed(tc, l.Certs()[i]);
    }
    assert Json.WellFormed(OwnerJson(l.owner));
    assert Json.WellFormed(CertificatesJson(tc, l.certificates));
    var fields := LedgerFields(tc, l);
    forall i | 0 <= i < |fields|
      ensures Json.WellFormed(fields[i].value)
    {
      assert fields[i].value in {OwnerJson(l.owner), CertificatesJson(tc, l.certificates)} || fields[i].value.Str? ||
          fields[i].value.Bool?;
    }
  }

  // ---- the round trip with RFC 3339 instants ----

  /** A codec that keeps whole seconds of four-digit years and refuses everything else. */
  ghost predicate KeepsSeconds(tc: TimeCodec) {
    forall t :: Reread(tc, t) == if Timestamp.InRange(t) then Some(Timestamp.Truncated(t)) else None
  }

  lemma Rfc3339KeepsSeconds()
    ensures KeepsSeconds(RFC3339)
  {
    forall t
      ensures Reread(RFC3339, t) == if Timestamp.InRange(t) then Some(Timestamp.Truncated(t)) else None
    {
      Timestamp.TimestampRoundTrip(t);
    }
  }

  lemma RereadCert(tc: TimeCodec, c: Certificate)
    requires KeepsSeconds(tc)
    ensures RereadCertificate(tc, c) == if c.InRange() then Some(c.Normal()) else None
  {}

  lemma {:induction false} RereadCerts(tc: TimeCodec, cs: seq<Certificate>)
    requires KeepsSeconds(tc)
    ensures RereadCertificates(tc, cs) ==
            if forall i :: 0 <= i < |cs| ==> cs[i].InRange() then Some(NormalCerts(cs)) else None
  {
    if cs != [] {
      RereadCert(tc, cs[0]);
      RereadCerts(tc, cs[1..]);
      assert NormalCerts(cs) == [cs[0].Normal()] + NormalCerts(cs[1..]);
      if forall i :: 0 <= i < |cs[1..]| ==> cs[1..][i].InRange() {
        assert forall i :: 0 < i < |cs| ==> cs[i] == cs[1..][i - 1];
      }
    }
  }

  lemma RereadWhole(tc: TimeCodec, l: Ledger)
    requires KeepsSeconds(tc)
    ensures RereadLedger(tc, l) == if l.InRange() then Some(l.Normal()) else None
  {
    RereadCerts(tc, l.Certs());
  }

  lemma DecodeMarshalled(l: Ledger)
    ensures Decode(RFC3339, Marshal(l)) == RereadLedger(RFC3339, l)
  {
    var v := Json.Obj(LedgerFields(RFC3339, l));
    LedgerWellFormed(RFC3339, l);
    Json.ReadWritten(v, 0, "\n");
    Json.ReadAtStart(v, 0, "\n");
    LedgerJsonRoundTrip(RFC3339, l);
  }

  /** Marshal then Parse. A ledger that meets Parse's invariants and whose years all have four
      digits comes back with its instants cut to seconds; any other ledger is refused. */
  lemma LedgerRoundTrip(l: Ledger)
    ensures Parse(Marshal(l)) == if l.WellFormed() && l.InRange() then Some(l.Normal()) else None
  {
    DecodeMarshalled(l);
    Rfc3339KeepsSeconds();
    RereadWhole(RFC3339, l);
    WellFormedBoth(l);
  }

  lemma WellFormedBoth(l: Ledger)
    ensures l.WellFormed() <==> l.Normal().WellFormed()
  {
    NormalFacts(l);
    forall i | 0 <= i < |l.Certs()|
      ensures l.Certs()[i].WellFormed() <==> l.Normal().Certs()[i].WellFormed()
    {
    }
  }

  /** Marshalling what was read back gives the same bytes. */
  lemma RemarshalIdentical(l: Ledger)
    ensures Marshal(l.Normal()) == Marshal(l)
    ensures Parse(Marshal(l)).Some? ==> Marshal(Parse(Marshal(l)).value) == Marshal(l)
  {
    LedgerRoundTrip(l);
    forall t
      ensures RFC3339.write(Timestamp.Truncated(t)) == RFC3339.write(t)
    {
      Timestamp.FormatOfTruncated(t);
    }
    NormalLedgerFields(RFC3339, l);
  }

  lemma NormalLedgerFields(tc: TimeCodec, l: Ledger)
    requires forall t :: tc.write(Timestamp.Truncated(t)) == tc.write(t)
    ensures LedgerFields(tc, l.Normal()) == LedgerFields(tc, l)
  {
    forall i | 0 <= i < |l.Certs()|
      ensures CertificateFields(tc, l.Certs()[i].Normal()) == CertificateFields(tc, l.Certs()[i])
    {
    }
    assert CertificateItems(tc, NormalCerts(l.Certs())) == CertificateItems(tc, l.Certs());
  }

  /** The codec of the bots. */
  const JSON := Codec(l => Marshal(l), s => Parse(s))

  lemma JsonIsFaithful()
    ensures JSON.Faithful()
  {
    forall l: Ledger
      ensures JSON.RoundTrips(l)
    {
      LedgerRoundTrip(l);
    }
  }
}
