/** Which candidates the scan keeps, said once for every kind and without the order of the passes' code. */
module ScrubLaws {
  import opened Scrub

  ghost predicate Apart(m: Match, x: Match) {
    m.end <= x.start || x.end <= m.start
  }

  predicate Here(kind: Kind, c: Candidate, m: Match) {
    m == Match(kind, c.start, c.end)
  }

  /** A card: 13 to 19 digits, a Luhn number, of a known issuer. */
  ghost predicate IsCard(c: Candidates, m: Match) {
    exists i :: 0 <= i < |c.cards| && 13 <= |c.cards[i].digits| <= 19 && Luhn.Valid(c.cards[i].digits)
             && c.cards[i].issuerKnown && m == Match(Card, c.cards[i].start, c.cards[i].end)
  }

  /** A routing number that no card covers. */
  ghost predicate IsRouting(c: Candidates, m: Match) {
    && (exists i :: 0 <= i < |c.routing| && c.routing[i].valid && Here(Routing, c.routing[i], m))
    && forall x :: IsCard(c, x) ==> Apart(m, x)
  }

  /** A separated social security number that neither covers. */
  ghost predicate IsDashedSsn(c: Candidates, m: Match) {
    && (exists i :: 0 <= i < |c.dashedSsn| && c.dashedSsn[i].valid && Here(Ssn, c.dashedSsn[i], m))
    && forall x :: IsCard(c, x) || IsRouting(c, x) ==> Apart(m, x)
  }

  ghost predicate IsBareSsn(c: Candidates, m: Match) {
    && (exists i :: 0 <= i < |c.bareSsn| && c.bareSsn[i].valid && Here(Ssn, c.bareSsn[i], m))
    && forall x :: IsCard(c, x) || IsRouting(c, x) || IsDashedSsn(c, x) ==> Apart(m, x)
  }

  ghost predicate IsEin(c: Candidates, m: Match) {
    && (exists i :: 0 <= i < |c.ein| && c.ein[i].valid && Here(Ein, c.ein[i], m))
    && forall x :: IsCard(c, x) || IsRouting(c, x) || IsDashedSsn(c, x) || IsBareSsn(c, x) ==> Apart(m, x)
  }

  /** Within 120 characters of a routing number, on either side. */
  ghost predicate NearARouting(c: Candidates, start: nat, end: nat) {
    exists r :: IsRouting(c, r) && (-120 <= start - r.end <= 120 || -120 <= r.start - end <= 120)
  }

  /** An account number: by keyword or near a routing number, where nothing else was found. */
  ghost predicate IsAccount(c: Candidates, m: Match) {
    && (exists i :: 0 <= i < |c.account| && Here(Account, c.account[i], m)
                 && (c.account[i].valid || NearARouting(c, m.start, m.end)))
    && forall x :: IsFound(c, x) ==> Apart(m, x)
  }

  // ---------------------------------------------------------------- one pass

  ghost predicate ApartFromAll(m: Match, ms: seq<Match>) {
    forall x :: x in ms ==> Apart(m, x)
  }

  lemma NoOverlapIsApart(ms: seq<Match>, m: Match)
    ensures !Overlaps(ms, m.start, m.end) <==> ApartFromAll(m, ms)
  {
    assert forall i :: 0 <= i < |ms| ==> ms[i] in ms;
  }

  lemma {:induction false} CardPassIs(cs: seq<CardCandidate>, ms: seq<Match>, m: Match)
    ensures m in CardPass(cs, ms) <==>
            m in ms || exists i :: 0 <= i < |cs| && CardValid(cs[i]) && m == Match(Card, cs[i].start, cs[i].end)
    decreases |cs|
  {
    if cs != [] {
      CardPassIs(cs[1..], if CardValid(cs[0]) then ms + [Match(Card, cs[0].start, cs[0].end)] else ms, m);
      assert forall i :: 1 <= i < |cs| ==> cs[i] == cs[1..][i - 1];
      assert forall i :: 0 <= i < |cs| - 1 ==> cs[1..][i] == cs[i + 1];
    }
  }

  ghost predicate Offers(kind: Kind, cs: seq<Candidate>, m: Match) {
    exists i :: 0 <= i < |cs| && cs[i].valid && Here(kind, cs[i], m)
  }

  /** A pass adds the valid candidates that are apart from what the passes before it found. */
  lemma {:induction false} PassIs(kind: Kind, cs: seq<Candidate>, ms: seq<Match>, n: nat, m: Match)
    requires InOrder(cs, n)
    ensures m in Pass(kind, cs, ms) <==> m in ms || (Offers(kind, cs, m) && ApartFromAll(m, ms))
    decreases |cs|
  {
    if cs != [] {
      var c, rest := cs[0], cs[1..];
      var here := Match(kind, c.start, c.end);
      NoOverlapIsApart(ms, here);
      assert forall i :: 1 <= i < |cs| ==> cs[i] == rest[i - 1];
      assert forall i :: 0 <= i < |rest| ==> rest[i] == cs[i + 1];
      if c.valid && ApartFromAll(here, ms) {
        PassIs(kind, rest, ms + [here], n, m);
      } else {
        PassIs(kind, rest, ms, n, m);
      }
    }
  }

  ghost predicate OffersAccount(cs: seq<Candidate>, ms: seq<Match>, m: Match) {
    exists i :: 0 <= i < |cs| && (cs[i].valid || NearRouting(ms, m.start, m.end)) && Here(Account, cs[i], m)
  }

  lemma NearRoutingIgnoresAccounts(ms: seq<Match>, x: Match, start: nat, end: nat)
    requires x.kind == Account
    ensures NearRouting(ms + [x], start, end) <==> NearRouting(ms, start, end)
  {
    var more := ms + [x];
    assert forall i :: 0 <= i < |ms| ==> more[i] == ms[i];
  }

  lemma {:induction false} AccountPassIs(cs: seq<Candidate>, ms: seq<Match>, n: nat, m: Match)
    requires InOrder(cs, n)
    ensures m in AccountPass(cs, ms) <==> m in ms || (OffersAccount(cs, ms, m) && ApartFromAll(m, ms))
    decreases |cs|
  {
    if cs != [] {
      var c, rest := cs[0], cs[1..];
      var here := Match(Account, c.start, c.end);
      NoOverlapIsApart(ms, here);
      assert forall i :: 1 <= i < |cs| ==> cs[i] == rest[i - 1];
      assert forall i :: 0 <= i < |rest| ==> rest[i] == cs[i + 1];
      if (c.valid || NearRouting(ms, c.start, c.end)) && ApartFromAll(here, ms) {
        NearRoutingIgnoresAccounts(ms, here, m.start, m.end);
        AccountPassIs(rest, ms + [here], n, m);
      } else {
        AccountPassIs(rest, ms, n, m);
      }
    }
  }

  // ---------------------------------------------------------------- all of them

  function AfterCards(c: Candidates): seq<Match> { CardPass(c.cards, []) }
  function AfterRouting(c: Candidates): seq<Match> { Pass(Routing, c.routing, AfterCards(c)) }
  function AfterDashed(c: Candidates): seq<Match> { Pass(Ssn, c.dashedSsn, AfterRouting(c)) }
  function AfterBare(c: Candidates): seq<Match> { Pass(Ssn, c.bareSsn, AfterDashed(c)) }
  function AfterEin(c: Candidates): seq<Match> { Pass(Ein, c.ein, AfterBare(c)) }

  lemma CardsAre(c: Candidates, m: Match)
    ensures m in AfterCards(c) <==> IsCard(c, m)
  {
    CardPassIs(c.cards, [], m);
  }

  lemma RoutingIs(c: Candidates, n: nat, m: Match)
    requires WellFormed(c, n)
    ensures m in AfterRouting(c) <==> IsCard(c, m) || IsRouting(c, m)
  {
    forall x ensures x in AfterCards(c) <==> IsCard(c, x) { CardsAre(c, x); }
    PassIs(Routing, c.routing, AfterCards(c), n, m);
  }

  lemma DashedIs(c: Candidates, n: nat, m: Match)
    requires WellFormed(c, n)
    ensures m in AfterDashed(c) <==> IsCard(c, m) || IsRouting(c, m) || IsDashedSsn(c, m)
  {
    forall x ensures x in AfterRouting(c) <==> IsCard(c, x) || IsRouting(c, x) { RoutingIs(c, n, x); }
    PassIs(Ssn, c.dashedSsn, AfterRouting(c), n, m);
  }

  lemma BareIs(c: Candidates, n: nat, m: Match)
    requires WellFormed(c, n)
    ensures m in AfterBare(c) <==> IsCard(c, m) || IsRouting(c, m) || IsDashedSsn(c, m) || IsBareSsn(c, m)
  {
    forall x ensures x in AfterDashed(c) <==> IsCard(c, x) || IsRouting(c, x) || IsDashedSsn(c, x) {
      DashedIs(c, n, x);
    }
    PassIs(Ssn, c.bareSsn, AfterDashed(c), n, m);
  }

  ghost predicate IsFound(c: Candidates, m: Match) {
    IsCard(c, m) || IsRouting(c, m) || IsDashedSsn(c, m) || IsBareSsn(c, m) || IsEin(c, m)
  }

  lemma EinIs(c: Candidates, n: nat, m: Match)
    requires WellFormed(c, n)
    ensures m in AfterEin(c) <==> IsFound(c, m)
  {
    forall x ensures x in AfterBare(c) <==> IsCard(c, x) || IsRouting(c, x) || IsDashedSsn(c, x) || IsBareSsn(c, x) {
      BareIs(c, n, x);
    }
    PassIs(Ein, c.ein, AfterBare(c), n, m);
  }

  lemma RoutingNear(c: Candidates, n: nat, start: nat, end: nat)
    requires WellFormed(c, n)
    ensures NearRouting(AfterEin(c), start, end) <==> NearARouting(c, start, end)
  {
    var ms := AfterEin(c);
    forall x ensures x in ms <==> IsFound(c, x) { EinIs(c, n, x); }
    if NearRouting(ms, start, end) {
      var i :| 0 <= i < |ms| && ms[i].kind == Routing
            && (Distance(start, ms[i].end) <= 120 || Distance(ms[i].start, end) <= 120);
      assert ms[i] in ms && IsRouting(c, ms[i]);
    }
    if NearARouting(c, start, end) {
      var r :| IsRouting(c, r) && (-120 <= start - r.end <= 120 || -120 <= r.start - end <= 120);
      assert r in ms;
      var i :| 0 <= i < |ms| && ms[i] == r;
    }
  }

  /** The scan keeps exactly these. */
  lemma ScanIsExactly(c: Candidates, n: nat, m: Match)
    requires WellFormed(c, n)
    ensures m in Scan(c) <==> IsFound(c, m) || IsAccount(c, m)
  {
    var ms := AfterEin(c);
    forall x ensures x in ms <==> IsFound(c, x) { EinIs(c, n, x); }
    AccountPassIs(c.account, ms, n, m);
    RoutingNear(c, n, m.start, m.end);
    assert Unsorted(c) == AccountPass(c.account, ms);
    SortedKeeps(Unsorted(c));
    assert m in Scan(c) <==> m in multiset(Scan(c));
    assert m in Unsorted(c) <==> m in multiset(Unsorted(c));
  }
}
