/**
 * The PII scrubber (src/protect/scrub.ts). What the regular expressions match, and the
 * keyword and prefix tests on the matched text, are inputs; the passes, the overlap rule,
 * the routing-number proximity rule, the sort, redaction and counting are modelled.
 */
module Scrub {
  import opened Text
  import Luhn

  datatype Kind = Ssn | Ein | Routing | Account | Card

  datatype Match = Match(kind: Kind, start: nat, end: nat)

  /** A regular-expression match and whether its validity tests pass. */
  datatype Candidate = Candidate(start: nat, end: nat, valid: bool)
  datatype CardCandidate = CardCandidate(start: nat, end: nat, digits: seq<Luhn.Digit>, issuerKnown: bool)

  /** What each pass finds in one text, in the order the passes run. */
  datatype Candidates = Candidates(
    cards: seq<CardCandidate>,
    routing: seq<Candidate>,
    dashedSsn: seq<Candidate>,
    bareSsn: seq<Candidate>,
    ein: seq<Candidate>,
    account: seq<Candidate>)   // valid: an account keyword stands before it

  predicate ApartFrom(start: nat, end: nat, m: Match) {
    end <= m.start || m.end <= start
  }

  predicate Overlaps(ms: seq<Match>, start: nat, end: nat) {
    exists i :: 0 <= i < |ms| && start < ms[i].end && end > ms[i].start
  }

  predicate CardValid(c: CardCandidate) {
    13 <= |c.digits| <= 19 && Luhn.Valid(c.digits) && c.issuerKnown
  }

  /** Pass 1 has nothing to overlap with and does not check. */
  function CardPass(cs: seq<CardCandidate>, ms: seq<Match>): seq<Match>
    decreases |cs|
  {
    if cs == [] then ms
    else CardPass(cs[1..], if CardValid(cs[0]) then ms + [Match(Card, cs[0].start, cs[0].end)] else ms)
  }

  /** Passes 2 to 4: skip what overlaps an earlier match, keep what is valid. */
  function Pass(kind: Kind, cs: seq<Candidate>, ms: seq<Match>): seq<Match>
    decreases |cs|
  {
    if cs == [] then ms
    else Pass(kind, cs[1..],
              if cs[0].valid && !Overlaps(ms, cs[0].start, cs[0].end)
              then ms + [Match(kind, cs[0].start, cs[0].end)]
              else ms)
  }

  function Distance(a: nat, b: nat): nat {
    if a <= b then b - a else a - b
  }

  predicate NearRouting(ms: seq<Match>, start: nat, end: nat) {
    exists i ::
      && 0 <= i < |ms| && ms[i].kind == Routing
      && (Distance(start, ms[i].end) <= 120 || Distance(ms[i].start, end) <= 120)
  }

  /** Pass 5: account numbers, by keyword or by proximity to a routing number. */
  function AccountPass(cs: seq<Candidate>, ms: seq<Match>): seq<Match>
    decreases |cs|
  {
    if cs == [] then ms
    else AccountPass(cs[1..],
                     if (cs[0].valid || NearRouting(ms, cs[0].start, cs[0].end))
                        && !Overlaps(ms, cs[0].start, cs[0].end)
                     then ms + [Match(Account, cs[0].start, cs[0].end)] else ms)
  }

  function Unsorted(c: Candidates): seq<Match> {
    var m1 := Pass(Routing, c.routing, CardPass(c.cards, []));
    var m2 := Pass(Ssn, c.bareSsn, Pass(Ssn, c.dashedSsn, m1));
    AccountPass(c.account, Pass(Ein, c.ein, m2))
  }

  /** `sort((a, b) => a.start - b.start)` */
  function Insert(m: Match, ms: seq<Match>): seq<Match> {
    if ms == [] || m.start < ms[0].start then [m] + ms else [ms[0]] + Insert(m, ms[1..])
  }

  function Sorted(ms: seq<Match>): seq<Match>
    decreases |ms|
  {
    if ms == [] then [] else Insert(ms[|ms| - 1], Sorted(ms[..|ms| - 1]))
  }

  function Scan(c: Candidates): seq<Match> {
    Sorted(Unsorted(c))
  }

  // ---------------------------------------------------------------- redaction

  function Tag(kind: Kind): string {
    match kind
    case Ssn => "[SSN]"
    case Ein => "[EIN]"
    case Routing => "[ROUTING]"
    case Account => "[ACCOUNT]"
    case Card => "[CARD]"
  }

  /** Every span lies in the text, after the one before it. */
  predicate Tiles(text: string, ms: seq<Match>, cursor: nat)
    decreases |ms|
  {
    ms != [] ==> cursor <= ms[0].start < ms[0].end <= |text| && Tiles(text, ms[1..], ms[0].end)
  }

  function RedactFrom(text: string, ms: seq<Match>, cursor: nat): string
    requires cursor <= |text| && forall i :: 0 <= i < |ms| ==> ms[i].start <= ms[i].end <= |text|
    decreases |ms|
  {
    if ms == [] then text[cursor..]
    else if ms[0].start < cursor then RedactFrom(text, ms[1..], cursor)
    else text[cursor..ms[0].start] + Tag(ms[0].kind) + RedactFrom(text, ms[1..], ms[0].end)
  }

  predicate Within(text: string, ms: seq<Match>) {
    forall i :: 0 <= i < |ms| ==> ms[i].start <= ms[i].end <= |text|
  }

  method RedactText(text: string, ms: seq<Match>) returns (out: string)
    requires Within(text, ms)
    ensures out == RedactFrom(text, ms, 0)
  {
    out := "";
    var cursor: nat := 0;
    assert ms[0..] == ms;
    NoPrefix(RedactFrom(text, ms, 0));
    for i := 0 to |ms|
      invariant cursor <= |text|
      invariant out + RedactFrom(text, ms[i..], cursor) == RedactFrom(text, ms, 0)
    {
      var m := ms[i];
      assert ms[i..][0] == m && ms[i..][1..] == ms[i + 1..];
      if m.start < cursor { continue; }
      Regroup(out, text[cursor..m.start] + Tag(m.kind), RedactFrom(text, ms[i + 1..], m.end));
      out := out + (text[cursor..m.start] + Tag(m.kind));
      cursor := m.end;
    }
    out := out + text[cursor..];
  }

  // ---------------------------------------------------------------- the passes in place

  method ScanText(c: Candidates) returns (spans: seq<Match>)
    ensures spans == Scan(c)
  {
    var ms: seq<Match> := [];
    assert c.cards[0..] == c.cards;
    for i := 0 to |c.cards|
      invariant CardPass(c.cards[i..], ms) == CardPass(c.cards, [])
    {
      var cand := c.cards[i];
      assert c.cards[i..][0] == cand && c.cards[i..][1..] == c.cards[i + 1..];
      if |cand.digits| < 13 || |cand.digits| > 19 { continue; }
      var luhn := Luhn.LuhnValid(cand.digits);
      if luhn && cand.issuerKnown {
        ms := ms + [Match(Card, cand.start, cand.end)];
      }
    }
    ms := RunPass(Routing, c.routing, ms);
    ms := RunPass(Ssn, c.dashedSsn, ms);
    ms := RunPass(Ssn, c.bareSsn, ms);
    ms := RunPass(Ein, c.ein, ms);
    ms := RunAccountPass(c.account, ms);
    spans := Sorted(ms);
  }

  method RunPass(kind: Kind, cs: seq<Candidate>, start: seq<Match>) returns (ms: seq<Match>)
    ensures ms == Pass(kind, cs, start)
  {
    ms := start;
    assert cs[0..] == cs;
    for i := 0 to |cs|
      invariant Pass(kind, cs[i..], ms) == Pass(kind, cs, start)
    {
      assert cs[i..][0] == cs[i] && cs[i..][1..] == cs[i + 1..];
      if Overlaps(ms, cs[i].start, cs[i].end) { continue; }
      if cs[i].valid {
        ms := ms + [Match(kind, cs[i].start, cs[i].end)];
      }
    }
  }

  method RunAccountPass(cs: seq<Candidate>, start: seq<Match>) returns (ms: seq<Match>)
    ensures ms == AccountPass(cs, start)
  {
    ms := start;
    assert cs[0..] == cs;
    for i := 0 to |cs|
      invariant AccountPass(cs[i..], ms) == AccountPass(cs, start)
    {
      assert cs[i..][0] == cs[i] && cs[i..][1..] == cs[i + 1..];
      if Overlaps(ms, cs[i].start, cs[i].end) { continue; }
      if NearRouting(ms, cs[i].start, cs[i].end) || cs[i].valid {
        ms := ms + [Match(Account, cs[i].start, cs[i].end)];
      }
    }
  }

  // ---------------------------------------------------------------- spans are disjoint and sorted

  /** Matches of one expression: in order, apart, inside a text of length `n`. */
  predicate InOrder(cs: seq<Candidate>, n: nat) {
    && (forall i :: 0 <= i < |cs| ==> cs[i].start < cs[i].end <= n)
    && (forall i, j :: 0 <= i < j < |cs| ==> cs[i].end <= cs[j].start)
  }

  predicate CardsInOrder(cs: seq<CardCandidate>, n: nat) {
    && (forall i :: 0 <= i < |cs| ==> cs[i].start < cs[i].end <= n)
    && (forall i, j :: 0 <= i < j < |cs| ==> cs[i].end <= cs[j].start)
  }

  predicate WellFormed(c: Candidates, n: nat) {
    && CardsInOrder(c.cards, n) && InOrder(c.routing, n) && InOrder(c.dashedSsn, n)
    && InOrder(c.bareSsn, n) && InOrder(c.ein, n) && InOrder(c.account, n)
  }

  /** Pairwise disjoint spans inside a text of length `n`. */
  predicate Disjoint(ms: seq<Match>, n: nat) {
    && (forall i :: 0 <= i < |ms| ==> ms[i].start < ms[i].end <= n)
    && (forall i, j :: 0 <= i < |ms| && 0 <= j < |ms| && i != j ==> ApartFrom(ms[i].start, ms[i].end, ms[j]))
  }

  lemma DisjointExtends(ms: seq<Match>, m: Match, n: nat)
    requires Disjoint(ms, n) && m.start < m.end <= n && !Overlaps(ms, m.start, m.end)
    ensures Disjoint(ms + [m], n)
  {
  }

  lemma {:induction false} CardPassDisjoint(cs: seq<CardCandidate>, ms: seq<Match>, n: nat)
    requires Disjoint(ms, n) && CardsInOrder(cs, n)
    requires forall i, j :: 0 <= i < |ms| && 0 <= j < |cs| ==> ms[i].end <= cs[j].start
    ensures Disjoint(CardPass(cs, ms), n)
    decreases |cs|
  {
    if cs != [] {
      var m := Match(Card, cs[0].start, cs[0].end);
      if CardValid(cs[0]) {
        DisjointExtends(ms, m, n);
        CardPassDisjoint(cs[1..], ms + [m], n);
      } else {
        CardPassDisjoint(cs[1..], ms, n);
      }
    }
  }

  lemma {:induction false} PassDisjoint(kind: Kind, cs: seq<Candidate>, ms: seq<Match>, n: nat)
    requires Disjoint(ms, n) && InOrder(cs, n)
    ensures Disjoint(Pass(kind, cs, ms), n)
    decreases |cs|
  {
    if cs != [] {
      if cs[0].valid && !Overlaps(ms, cs[0].start, cs[0].end) {
        DisjointExtends(ms, Match(kind, cs[0].start, cs[0].end), n);
        PassDisjoint(kind, cs[1..], ms + [Match(kind, cs[0].start, cs[0].end)], n);
      } else {
        PassDisjoint(kind, cs[1..], ms, n);
      }
    }
  }

  lemma {:induction false} AccountPassDisjoint(cs: seq<Candidate>, ms: seq<Match>, n: nat)
    requires Disjoint(ms, n) && InOrder(cs, n)
    ensures Disjoint(AccountPass(cs, ms), n)
    decreases |cs|
  {
    if cs != [] {
      if !Overlaps(ms, cs[0].start, cs[0].end) && (cs[0].valid || NearRouting(ms, cs[0].start, cs[0].end)) {
        DisjointExtends(ms, Match(Account, cs[0].start, cs[0].end), n);
        AccountPassDisjoint(cs[1..], ms + [Match(Account, cs[0].start, cs[0].end)], n);
      } else {
        AccountPassDisjoint(cs[1..], ms, n);
      }
    }
  }

  lemma UnsortedDisjoint(c: Candidates, n: nat)
    requires WellFormed(c, n)
    ensures Disjoint(Unsorted(c), n)
  {
    CardPassDisjoint(c.cards, [], n);
    var m0 := CardPass(c.cards, []);
    PassDisjoint(Routing, c.routing, m0, n);
    var m1 := Pass(Routing, c.routing, m0);
    PassDisjoint(Ssn, c.dashedSsn, m1, n);
    var m2 := Pass(Ssn, c.dashedSsn, m1);
    PassDisjoint(Ssn, c.bareSsn, m2, n);
    var m3 := Pass(Ssn, c.bareSsn, m2);
    PassDisjoint(Ein, c.ein, m3, n);
    AccountPassDisjoint(c.account, Pass(Ein, c.ein, m3), n);
  }

  lemma {:induction false} InsertKeeps(m: Match, ms: seq<Match>)
    ensures multiset(Insert(m, ms)) == multiset(ms) + multiset{m}
    decreases |ms|
  {
    if ms != [] && m.start >= ms[0].start {
      InsertKeeps(m, ms[1..]);
      assert ms == [ms[0]] + ms[1..];
    }
  }

  lemma {:induction false} SortedKeeps(ms: seq<Match>)
    ensures multiset(Sorted(ms)) == multiset(ms)
    decreases |ms|
  {
    if ms != [] {
      var k := |ms| - 1;
      SortedKeeps(ms[..k]);
      InsertKeeps(ms[k], Sorted(ms[..k]));
      assert ms == ms[..k] + [ms[k]];
    }
  }

  /** Inserting a span apart from tiled spans tiles again. */
  lemma {:induction false} InsertTiles(m: Match, ms: seq<Match>, text: string, cursor: nat)
    requires Tiles(text, ms, cursor) && cursor <= m.start < m.end <= |text|
    requires forall i :: 0 <= i < |ms| ==> ApartFrom(m.start, m.end, ms[i])
    ensures Tiles(text, Insert(m, ms), cursor)
    decreases |ms|
  {
    if ms == [] || m.start < ms[0].start {
      assert ([m] + ms)[1..] == ms;
      assert ms != [] ==> ApartFrom(m.start, m.end, ms[0]);
    } else {
      assert ApartFrom(m.start, m.end, ms[0]);
      InsertTiles(m, ms[1..], text, ms[0].end);
      assert ([ms[0]] + Insert(m, ms[1..]))[1..] == Insert(m, ms[1..]);
    }
  }

  lemma {:induction false} SortedTiles(ms: seq<Match>, text: string)
    requires Disjoint(ms, |text|)
    ensures Tiles(text, Sorted(ms), 0)
    decreases |ms|
  {
    if ms != [] {
      var k := |ms| - 1;
      assert Disjoint(ms[..k], |text|);
      SortedTiles(ms[..k], text);
      SortedApart(ms, Sorted(ms[..k]), |text|);
      assert ms[k].start < ms[k].end <= |text|;
      InsertTiles(ms[k], Sorted(ms[..k]), text, 0);
    }
  }

  lemma SortedApart(ms: seq<Match>, rest: seq<Match>, n: nat)
    requires ms != [] && Disjoint(ms, n) && rest == Sorted(ms[..|ms| - 1])
    ensures forall i :: 0 <= i < |rest| ==> ApartFrom(ms[|ms| - 1].start, ms[|ms| - 1].end, rest[i])
  {
    var k := |ms| - 1;
    SortedKeeps(ms[..k]);
    forall i | 0 <= i < |rest| ensures ApartFrom(ms[k].start, ms[k].end, rest[i]) {
      assert rest[i] in multiset(rest);
      var j :| 0 <= j < k && ms[..k][j] == rest[i];
      assert ApartFrom(ms[k].start, ms[k].end, ms[j]);
    }
  }

  /** The scan's spans are disjoint and sorted, and are exactly the matches of the passes. */
  lemma ScanTiles(c: Candidates, text: string)
    requires WellFormed(c, |text|)
    ensures Tiles(text, Scan(c), 0)
    ensures multiset(Scan(c)) == multiset(Unsorted(c))
  {
    UnsortedDisjoint(c, |text|);
    SortedTiles(Unsorted(c), text);
    SortedKeeps(Unsorted(c));
  }

  /** Tiled spans lie in the text and end before any later one starts. */
  lemma {:induction false} TilesPairwise(text: string, ms: seq<Match>, cursor: nat)
    requires Tiles(text, ms, cursor)
    ensures forall i :: 0 <= i < |ms| ==> cursor <= ms[i].start < ms[i].end <= |text|
    ensures forall i, j :: 0 <= i < j < |ms| ==> ms[i].end <= ms[j].start
    decreases |ms|
  {
    if ms != [] {
      TilesPairwise(text, ms[1..], ms[0].end);
      assert forall i :: 1 <= i < |ms| ==> ms[i] == ms[1..][i - 1];
    }
  }

  // ---------------------------------------------------------------- what redaction copies

  /** The stretches between spans. */
  function Gaps(text: string, ms: seq<Match>, cursor: nat): (g: seq<string>)
    requires cursor <= |text| && Tiles(text, ms, cursor)
    ensures |g| == |ms| + 1
    decreases |ms|
  {
    if ms == [] then [text[cursor..]] else [text[cursor..ms[0].start]] + Gaps(text, ms[1..], ms[0].end)
  }

  function Weave(gaps: seq<string>, fills: seq<string>): string
    requires |gaps| == |fills| + 1
    decreases |fills|
  {
    if fills == [] then gaps[0] else gaps[0] + fills[0] + Weave(gaps[1..], fills[1..])
  }

  function Tags(ms: seq<Match>): (r: seq<string>)
    ensures |r| == |ms|
  {
    if ms == [] then [] else [Tag(ms[0].kind)] + Tags(ms[1..])
  }

  function Originals(text: string, ms: seq<Match>, cursor: nat): (r: seq<string>)
    requires Tiles(text, ms, cursor)
    ensures |r| == |ms|
    decreases |ms|
  {
    if ms == [] then [] else [text[ms[0].start..ms[0].end]] + Originals(text, ms[1..], ms[0].end)
  }

  /**
   * Redaction puts a tag in place of every span and copies every gap: the text is its gaps
   * woven with its spans, the redacted text the same gaps woven with the tags.
   */
  lemma {:induction false} RedactionReplacesSpans(text: string, ms: seq<Match>, cursor: nat)
    requires cursor <= |text| && Tiles(text, ms, cursor) && Within(text, ms)
    ensures text[cursor..] == Weave(Gaps(text, ms, cursor), Originals(text, ms, cursor))
    ensures RedactFrom(text, ms, cursor) == Weave(Gaps(text, ms, cursor), Tags(ms))
    decreases |ms|
  {
    if ms != [] {
      var m := ms[0];
      RedactionReplacesSpans(text, ms[1..], m.end);
      WeaveOne(text[cursor..m.start], Gaps(text, ms[1..], m.end), text[m.start..m.end],
               Originals(text, ms[1..], m.end));
      WeaveOne(text[cursor..m.start], Gaps(text, ms[1..], m.end), Tag(m.kind), Tags(ms[1..]));
      assert text[cursor..] == text[cursor..m.start] + text[m.start..m.end] + text[m.end..];
    }
  }

  lemma WeaveOne(gap: string, gaps: seq<string>, fill: string, fills: seq<string>)
    requires |gaps| == |fills| + 1
    ensures Weave([gap] + gaps, [fill] + fills) == gap + fill + Weave(gaps, fills)
  {
    assert ([gap] + gaps)[1..] == gaps && ([fill] + fills)[1..] == fills;
  }
}
