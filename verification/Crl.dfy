/** internal/crl: the certificate revocation list built from all ledgers. Section 5.1.2.6 of
    RFC 5280 names the list of revoked certificates. */
module Crl {
  import opened Wrappers
  import opened Ledger
  import Serial
  import Timestamp

  datatype Entry = Entry(serial: int, revocationTime: int)

  datatype RevocationList = RevocationList(number: int, thisUpdate: int, nextUpdate: int, entries: seq<Entry>)

  /** Seven days in nanoseconds. */
  const CRL_VALIDITY := 604_800_000_000_000

  // ---- what belongs on the list ----

  /** A revoked certificate the list can carry. */
  predicate Listable(c: Certificate) {
    Serial.ParseSerial(c.serial).Some? && c.revokedFrom.Some?
  }

  predicate AllListable(cs: seq<Certificate>) {
    forall i :: 0 <= i < |cs| && cs[i].Revoked() ==> Listable(cs[i])
  }

  predicate Buildable(ledgers: seq<Ledger>) {
    forall i :: 0 <= i < |ledgers| ==> AllListable(ledgers[i].Certs())
  }

  function EntryOf(c: Certificate): Entry
    requires Listable(c)
  {
    Entry(Serial.ParseSerial(c.serial).value, c.revokedFrom.value)
  }

  predicate OnList(c: Certificate) {
    c.Revoked() && Listable(c)
  }

  /** The entries of the revoked certificates of one ledger, in its order. */
  function Listed(cs: seq<Certificate>): seq<Entry> {
    if cs == [] then []
    else
      var c := cs[|cs| - 1];
      Listed(cs[..|cs| - 1]) + (if OnList(c) then [EntryOf(c)] else [])
  }

  /** The lists that `f` gives for the elements of `s`, one after the other. */
  function FlatMap<T, U>(f: T -> seq<U>, s: seq<T>): seq<U> {
    if s == [] then [] else FlatMap(f, s[..|s| - 1]) + f(s[|s| - 1])
  }

  function ListedOf(): Ledger -> seq<Entry> {
    (l: Ledger) => Listed(l.Certs())
  }

  /** The entries of all ledgers, in their order. */
  function AllListed(ledgers: seq<Ledger>): seq<Entry> {
    FlatMap(ListedOf(), ledgers)
  }

  predicate SortedBySerial(es: seq<Entry>) {
    forall i, j :: 0 <= i < j < |es| ==> es[i].serial <= es[j].serial
  }

  /** `es` holds each entry of `listed` as often as `listed` does, in the order of serials. */
  predicate Arranged(es: seq<Entry>, listed: seq<Entry>) {
    SortedBySerial(es) && multiset(es) == multiset(listed)
  }

  // ---- Build ----

  /** The sort of the entries in place. sort.Slice leaves the order of equal serials open. */
  method SortEntries(a: array<Entry>)
    modifies a
    ensures Arranged(a[..], old(a[..]))
  {
    var n := 0;
    while n < a.Length
      invariant 0 <= n <= a.Length
      invariant SortedBySerial(a[..n])
      invariant multiset(a[..]) == multiset(old(a[..]))
    {
      Insert(a, n);
      n := n + 1;
    }
    assert a[..n] == a[..];
  }

  lemma SwapKeepsEntries(before: seq<Entry>, after: seq<Entry>, k: nat)
    requires 0 < k < |before| && |after| == |before|
    requires after[k] == before[k - 1] && after[k - 1] == before[k]
    requires forall i :: 0 <= i < |before| && i != k && i != k - 1 ==> after[i] == before[i]
    ensures multiset(after) == multiset(before)
  {
    assert after == before[k := before[k - 1]][k - 1 := before[k]];
  }

  /** Moves the entry at `n` down to its place among the sorted ones before it. */
  method Insert(a: array<Entry>, n: nat)
    requires n < a.Length && SortedBySerial(a[..n])
    modifies a
    ensures SortedBySerial(a[..n + 1])
    ensures multiset(a[..]) == multiset(old(a[..]))
  {
    var k := n;
    while k > 0 && a[k].serial < a[k - 1].serial
      invariant 0 <= k <= n
      invariant forall i, j :: 0 <= i < j <= n && j != k ==> a[i].serial <= a[j].serial
      invariant multiset(a[..]) == multiset(old(a[..]))
    {
      ghost var before := a[..];
      a[k - 1], a[k] := a[k], a[k - 1];
      SwapKeepsEntries(before, a[..], k);
      k := k - 1;
    }
  }

  lemma ListedOneMore(cs: seq<Certificate>, j: nat)
    requires j < |cs|
    ensures Listed(cs[..j + 1]) == Listed(cs[..j]) + (if OnList(cs[j]) then [EntryOf(cs[j])] else [])
  {
    var more := cs[..j + 1];
    assert more[..j] == cs[..j] && more[j] == cs[j];
  }

  lemma FlatMapOneMore<T, U>(f: T -> seq<U>, s: seq<T>, i: nat)
    requires i < |s|
    ensures FlatMap(f, s[..i + 1]) == FlatMap(f, s[..i]) + f(s[i])
  {
    var more := s[..i + 1];
    assert more[..i] == s[..i] && more[i] == s[i];
  }

  /** The inner loop: the revoked certificates of one ledger onto the entries so far. */
  method Collect(cs: seq<Certificate>, entries: seq<Entry>) returns (r: Option<seq<Entry>>)
    ensures r == if AllListable(cs) then Some(entries + Listed(cs)) else None
  {
    var es := entries;
    var j := 0;
    while j < |cs|
      invariant 0 <= j <= |cs|
      invariant forall k :: 0 <= k < j && cs[k].Revoked() ==> Listable(cs[k])
      invariant es == entries + Listed(cs[..j])
    {
      ListedOneMore(cs, j);
      if cs[j].Revoked() {
        var serial := Serial.ParseSerial(cs[j].serial);
        if serial.None? {
          return None;
        }
        if cs[j].revokedFrom.None? {
          return None;
        }
        es := es + [Entry(serial.value, cs[j].revokedFrom.value)];
      }
      j := j + 1;
    }
    assert cs[..|cs|] == cs;
    return Some(es);
  }

  /** A revoked certificate with an unreadable serial or no date. */
  predicate Unlistable(c: Certificate) {
    c.status == "revoked" && (Serial.ParseSerial(c.serial).None? || c.revokedFrom.None?)
  }

  ghost predicate HasUnlistable(cs: seq<Certificate>) {
    exists c :: c in cs && Unlistable(c)
  }

  lemma ListableIff(cs: seq<Certificate>)
    ensures AllListable(cs) <==> !HasUnlistable(cs)
  {
    if !AllListable(cs) {
      var i :| 0 <= i < |cs| && cs[i].Revoked() && !Listable(cs[i]);
      assert cs[i] in cs && Unlistable(cs[i]);
    }
  }

  lemma BuildableIff(ledgers: seq<Ledger>)
    ensures !Buildable(ledgers) <==> exists l :: l in ledgers && HasUnlistable(l.Certs())
  {
    forall l | l in ledgers
      ensures AllListable(l.Certs()) <==> !HasUnlistable(l.Certs())
    {
      ListableIff(l.Certs());
    }
    if !Buildable(ledgers) {
      var p :| 0 <= p < |ledgers| && !AllListable(ledgers[p].Certs());
      assert ledgers[p] in ledgers;
    }
  }

  /** The list is refused exactly when a revoked certificate has an unreadable serial or no date;
      otherwise it holds every revoked certificate of every ledger and nothing else, by serial. */
  method Build(ledgers: seq<Ledger>, now: int) returns (r: Option<RevocationList>)
    ensures r.Some? <==> Buildable(ledgers)
    ensures r.None? <==> exists l :: l in ledgers && HasUnlistable(l.Certs())
    ensures r.Some? ==> Arranged(r.value.entries, AllListed(ledgers))
    ensures r.Some? ==> r.value.number == Timestamp.Seconds(now)
    ensures r.Some? ==> r.value.thisUpdate == now && r.value.nextUpdate == now + 7 * 24 * 60 * 60 * 1_000_000_000
  {
    BuildableIff(ledgers);
    var entries: seq<Entry> := [];
    var i := 0;
    while i < |ledgers|
      invariant 0 <= i <= |ledgers|
      invariant forall k :: 0 <= k < i ==> AllListable(ledgers[k].Certs())
      invariant entries == AllListed(ledgers[..i])
    {
      FlatMapOneMore(ListedOf(), ledgers, i);
      var more := Collect(ledgers[i].Certs(), entries);
      if more.None? {
        return None;
      }
      entries := more.value;
      i := i + 1;
    }
    assert ledgers[..|ledgers|] == ledgers;
    var a := new Entry[|entries|](k requires 0 <= k < |entries| => entries[k]);
    assert a[..] == entries;
    SortEntries(a);
    return Some(RevocationList(Timestamp.Seconds(now), now, now + CRL_VALIDITY, a[..]));
  }

  // ---- the list is about the ledgers ----

  /** A revoked certificate with this serial number and this date. */
  predicate ShowsAs(c: Certificate, e: Entry) {
    && c.status == "revoked"
    && Serial.ParseSerial(c.serial) == Some(e.serial) && c.revokedFrom == Some(e.revocationTime)
  }

  /** The places of the certificates behind an entry. */
  function Places(cs: seq<Certificate>, e: Entry): set<int> {
    set i | 0 <= i < |cs| && ShowsAs(cs[i], e)
  }

  /** The ledgers and places of them. */
  function AllPlaces(ledgers: seq<Ledger>, e: Entry): set<(int, int)> {
    set p, i | 0 <= p < |ledgers| && i in Places(ledgers[p].Certs(), e) :: (p, i)
  }

  lemma {:induction false} ListedOnce(cs: seq<Certificate>, e: Entry)
    ensures multiset(Listed(cs))[e] == |Places(cs, e)|
  {
    if cs == [] {
      assert Places(cs, e) == {};
    } else {
      ListedOnce(cs[..|cs| - 1], e);
      PlacesLast(cs, e);
      ListedLast(cs, e);
    }
  }

  lemma PlacesLast(cs: seq<Certificate>, e: Entry)
    requires cs != []
    ensures |Places(cs, e)| == |Places(cs[..|cs| - 1], e)| + if ShowsAs(cs[|cs| - 1], e) then 1 else 0
  {
    var init, n := cs[..|cs| - 1], |cs| - 1;
    assert Places(cs, e) == Places(init, e) + if ShowsAs(cs[n], e) then {n} else {};
  }

  lemma ListedLast(cs: seq<Certificate>, e: Entry)
    requires cs != []
    ensures multiset(Listed(cs))[e] ==
            multiset(Listed(cs[..|cs| - 1]))[e] + if ShowsAs(cs[|cs| - 1], e) then 1 else 0
  {
    var init, c := cs[..|cs| - 1], cs[|cs| - 1];
    assert ShowsAs(c, e) <==> OnList(c) && EntryOf(c) == e;
    assert multiset(Listed(cs)) == multiset(Listed(init)) + multiset(if OnList(c) then [EntryOf(c)] else []);
  }

  lemma PairsOf(n: int, places: set<int>)
    ensures |set i | i in places :: (n, i)| == |places|
  {
    var pairs := set i | i in places :: (n, i);
    if exists x :: x in places {
      var x :| x in places;
      PairsOf(n, places - {x});
      assert pairs == (set i | i in places - {x} :: (n, i)) + {(n, x)};
    } else {
      assert places == {} && pairs == {};
    }
  }

  /** Each revoked certificate of each ledger is listed once: an entry appears as often as there are
      certificates that it shows. */
  lemma {:induction false} EachListedOnce(ledgers: seq<Ledger>, es: seq<Entry>, e: Entry)
    requires Arranged(es, AllListed(ledgers))
    ensures multiset(es)[e] == |AllPlaces(ledgers, e)|
  {
    AllListedOnce(ledgers, e);
  }

  lemma {:induction false} AllListedOnce(ledgers: seq<Ledger>, e: Entry)
    ensures multiset(AllListed(ledgers))[e] == |AllPlaces(ledgers, e)|
  {
    if ledgers == [] {
      assert AllPlaces(ledgers, e) == {};
    } else {
      var init, n := ledgers[..|ledgers| - 1], |ledgers| - 1;
      var places := Places(ledgers[n].Certs(), e);
      AllListedOnce(init, e);
      ListedOnce(ledgers[n].Certs(), e);
      PairsOf(n, places);
      LastPlaces(ledgers, e);
      assert AllListed(ledgers) == AllListed(init) + Listed(ledgers[n].Certs());
      assert multiset(AllListed(ledgers)) == multiset(AllListed(init)) + multiset(Listed(ledgers[n].Certs()));
    }
  }

  lemma LastPlaces(ledgers: seq<Ledger>, e: Entry)
    requires ledgers != []
    ensures var init, n := ledgers[..|ledgers| - 1], |ledgers| - 1;
            var last := set i | i in Places(ledgers[n].Certs(), e) :: (n, i);
            AllPlaces(ledgers, e) == AllPlaces(init, e) + last && AllPlaces(init, e) !! last
  {}

  /** Some ledger holds a revoked certificate with this entry. */
  ghost predicate OnLedgers(ledgers: seq<Ledger>, e: Entry) {
    exists l | l in ledgers :: InLedger(l, e)
  }

  ghost predicate InLedger(l: Ledger, e: Entry) {
    exists i :: 0 <= i < |l.Certs()| && ShowsAs(l.Certs()[i], e)
  }

  lemma {:induction false} ListedMembers(cs: seq<Certificate>, e: Entry)
    ensures e in Listed(cs) <==> exists i :: 0 <= i < |cs| && ShowsAs(cs[i], e)
  {
    if cs != [] {
      var init, c := cs[..|cs| - 1], cs[|cs| - 1];
      ListedMembers(init, e);
      assert forall i :: 0 <= i < |init| ==> init[i] == cs[i];
      assert OnList(c) ==> (e in [EntryOf(c)] <==> ShowsAs(c, e));
    }
  }

  lemma {:induction false} FlatMapMembers<T, U>(f: T -> seq<U>, s: seq<T>, e: U)
    ensures e in FlatMap(f, s) <==> exists x | x in s :: e in f(x)
  {
    if s != [] {
      FlatMapMembers(f, s[..|s| - 1], e);
      assert s == s[..|s| - 1] + [s[|s| - 1]];
    }
  }

  /** An entry is on the list exactly when some ledger holds a revoked certificate with its serial
      and date. */
  lemma OnListIffRevoked(ledgers: seq<Ledger>, es: seq<Entry>, e: Entry)
    requires Arranged(es, AllListed(ledgers))
    ensures e in es <==> OnLedgers(ledgers, e)
  {
    assert e in es <==> e in multiset(es);
    FlatMapMembers(ListedOf(), ledgers, e);
    forall l | l in ledgers
      ensures e in ListedOf()(l) <==> InLedger(l, e)
    {
      ListedMembers(l.Certs(), e);
    }
  }

  // ---- the order of the ledgers ----

  /** No serial is listed with two dates. */
  predicate Unambiguous(listed: seq<Entry>) {
    forall i, j :: 0 <= i < |listed| && 0 <= j < |listed| && listed[i].serial == listed[j].serial ==>
        listed[i] == listed[j]
  }

  lemma DropFirst<T>(s: seq<T>)
    requires s != []
    ensures s == [s[0]] + s[1..] && multiset(s[1..]) == multiset(s) - multiset{s[0]}
  {
    assert s == [s[0]] + s[1..];
  }

  lemma TailFacts(a: seq<Entry>)
    requires a != [] && SortedBySerial(a)
    ensures SortedBySerial(a[1..])
    ensures Unambiguous(a) ==> Unambiguous(a[1..])
  {}

  lemma {:induction false} UnambiguousArrangement(a: seq<Entry>, b: seq<Entry>)
    requires SortedBySerial(a) && SortedBySerial(b) && multiset(a) == multiset(b)
    requires Unambiguous(a)
    ensures a == b
  {
    assert |a| == |multiset(a)| == |b|;
    if a != [] {
      SameFirst(a, b);
      DropFirst(a);
      DropFirst(b);
      TailFacts(a);
      TailFacts(b);
      UnambiguousArrangement(a[1..], b[1..]);
    }
  }

  lemma SameFirst(a: seq<Entry>, b: seq<Entry>)
    requires SortedBySerial(a) && SortedBySerial(b) && multiset(a) == multiset(b) && |a| == |b| > 0
    requires Unambiguous(a)
    ensures a[0] == b[0]
  {
    assert a[0] in multiset(b) && b[0] in multiset(a);
    var i :| 0 <= i < |b| && b[i] == a[0];
    var j :| 0 <= j < |a| && a[j] == b[0];
    assert a[0].serial <= a[j].serial && b[0].serial <= b[i].serial;
  }

  /** Two entries of one serial can be swapped in a sorted list. */
  lemma SwapTies(es: seq<Entry>, i: nat, j: nat)
    requires SortedBySerial(es) && i < j < |es| && es[i].serial == es[j].serial
    ensures SortedBySerial(es[i := es[j]][j := es[i]])
    ensures multiset(es[i := es[j]][j := es[i]]) == multiset(es)
  {}

  ghost predicate OneArrangement(listed: seq<Entry>) {
    forall a, b :: Arranged(a, listed) && Arranged(b, listed) ==> a == b
  }

  /** sort.Slice is not stable: the list is the same whatever it does with equal serials exactly
      when no serial is listed with two dates. `es` is any list that was built. */
  lemma OneListIffUnambiguous(es: seq<Entry>, listed: seq<Entry>)
    requires Arranged(es, listed)
    ensures OneArrangement(listed) <==> Unambiguous(listed)
  {
    SameMembers(es, listed);
    if Unambiguous(listed) {
      forall a, b | Arranged(a, listed) && Arranged(b, listed)
        ensures a == b
      {
        SameMembers(a, listed);
        UnambiguousArrangement(a, b);
      }
    } else {
      var i, j :| 0 <= i < j < |es| && es[i].serial == es[j].serial && es[i] != es[j];
      SwapTies(es, i, j);
      var other := es[i := es[j]][j := es[i]];
      assert Arranged(other, listed) && other[i] != es[i];
    }
  }

  lemma SameMembers(a: seq<Entry>, b: seq<Entry>)
    requires multiset(a) == multiset(b)
    ensures Unambiguous(a) <==> Unambiguous(b)
  {
    if Unambiguous(a) {
      MembersAmbiguity(b, a);
    }
    if Unambiguous(b) {
      MembersAmbiguity(a, b);
    }
  }

  lemma MembersAmbiguity(a: seq<Entry>, b: seq<Entry>)
    requires multiset(a) == multiset(b) && Unambiguous(b)
    ensures Unambiguous(a)
  {
    forall i, j | 0 <= i < |a| && 0 <= j < |a| && a[i].serial == a[j].serial
      ensures a[i] == a[j]
    {
      assert a[i] in multiset(b) && a[j] in multiset(b);
    }
  }

  /** One element taken out of the middle takes its entries with it. */
  lemma {:induction false} FlatMapAround<T, U>(f: T -> seq<U>, left: seq<T>, x: T, right: seq<T>)
    ensures multiset(FlatMap(f, left + [x] + right)) == multiset(FlatMap(f, left + right)) + multiset(f(x))
  {
    if right == [] {
      assert left + [x] + right == left + [x] && left + right == left;
      assert (left + [x])[..|left + [x]| - 1] == left;
    } else {
      var init, last := right[..|right| - 1], right[|right| - 1];
      FlatMapAround(f, left, x, init);
      FlatMapLast(f, left + [x] + right, left + [x] + init, last);
      FlatMapLast(f, left + right, left + init, last);
    }
  }

  lemma FlatMapLast<T, U>(f: T -> seq<U>, s: seq<T>, init: seq<T>, last: T)
    requires s == init + [last]
    ensures multiset(FlatMap(f, s)) == multiset(FlatMap(f, init)) + multiset(f(last))
  {
    assert s[..|s| - 1] == init;
  }

  lemma Around<T>(b: seq<T>, k: nat)
    requires k < |b|
    ensures b == b[..k] + [b[k]] + b[k + 1..]
    ensures multiset(b[..k] + b[k + 1..]) == multiset(b) - multiset{b[k]}
  {
    assert b == b[..k] + [b[k]] + b[k + 1..];
  }

  lemma Last<T>(a: seq<T>)
    requires a != []
    ensures a == a[..|a| - 1] + [a[|a| - 1]]
    ensures multiset(a[..|a| - 1]) == multiset(a) - multiset{a[|a| - 1]}
  {
    assert a == a[..|a| - 1] + [a[|a| - 1]];
  }

  /** The same elements in another order give the same entries. */
  lemma {:induction false} FlatMapPermuted<T, U>(f: T -> seq<U>, a: seq<T>, b: seq<T>)
    requires multiset(a) == multiset(b)
    ensures multiset(FlatMap(f, a)) == multiset(FlatMap(f, b))
  {
    if a == [] {
      assert |multiset(b)| == 0;
    } else {
      var x := a[|a| - 1];
      assert x in multiset(b);
      var k :| 0 <= k < |b| && b[k] == x;
      Last(a);
      Around(b, k);
      FlatMapPermuted(f, a[..|a| - 1], b[..k] + b[k + 1..]);
      FlatMapLast(f, a, a[..|a| - 1], x);
      FlatMapAround(f, b[..k], x, b[k + 1..]);
    }
  }

  /** When no serial is listed with two dates, the list does not depend on the order in which the
      ledgers are read, nor on the sort. */
  lemma OrderOfLedgersDoesNotMatter(a: seq<Ledger>, b: seq<Ledger>, listA: seq<Entry>, listB: seq<Entry>)
    requires multiset(a) == multiset(b)
    requires Arranged(listA, AllListed(a)) && Arranged(listB, AllListed(b))
    requires Unambiguous(AllListed(a))
    ensures listA == listB
  {
    FlatMapPermuted(ListedOf(), a, b);
    SameMembers(listA, AllListed(a));
    UnambiguousArrangement(listA, listB);
  }
}
