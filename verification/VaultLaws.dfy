/**
 * Every reachable vault state, and every point of a master-key rotation: vault operations, rotation
 * steps, crashes and re-runs in any order.
 */
module VaultLaws {
  import opened Common
  import opened Vault

  /** The two master keys of a rotation. */
  datatype Keys = Keys(oldVersion: int, newVersion: int, oldKey: Secret, newKey: Secret)

  predicate Sound(k: Keys) {
    k.oldVersion < k.newVersion
  }

  function Both(k: Keys): Keyring {
    Keyring(map[k.oldVersion := k.oldKey, k.newVersion := k.newKey], k.newVersion)
  }

  function NewAlone(k: Keys): Keyring {
    Keyring(map[k.newVersion := k.newKey], k.newVersion)
  }

  predicate KnownVersion(k: Keys, v: int) {
    v == k.oldVersion || v == k.newVersion
  }

  datatype Rotation = NotRunning | Running(rows: seq<Snapshot>, next: nat)

  /** `plain` remembers what each credential was when it was added. */
  datatype State = State(store: Store, plain: map<nat, string>, rotation: Rotation)

  /** Routers still on the old key and routers already on the new one may both add credentials. */
  datatype Event =
    | Add(id: nat, provider: string, text: string, version: int, dek: Secret)
    | Promote(id: nat, until: int)
    | Revoke(id: nat)
    | Expire(now: int)
    | Begin(order: seq<nat>)
    | RotateNext
    | Crash

  function Rows(store: Store, order: seq<nat>): (r: seq<Snapshot>)
    requires forall id :: id in order ==> id in store
    ensures |r| == |order| && forall i :: 0 <= i < |r| ==> r[i] == Snapshot(order[i], store[order[i]])
  {
    seq(|order|, i requires 0 <= i < |order| => assert order[i] in order; Snapshot(order[i], store[order[i]]))
  }

  predicate Legal(k: Keys, s: State, e: Event) {
    match e
    case Add(id, _, _, version, _) => id !in s.store && KnownVersion(k, version)
    case Promote(id, _) => id in s.store && s.store[id].status == Grace
    case Revoke(id) => id in s.store
    case Expire(_) => true
    case Begin(order) =>
      (forall id :: id in order ==> id in s.store) && (forall id :: id in s.store ==> id in order)
      && forall i, j :: 0 <= i < j < |order| ==> order[i] != order[j]
    case RotateNext => s.rotation.Running? && s.rotation.next < |s.rotation.rows|
    case Crash => true
  }

  function Step(k: Keys, s: State, e: Event): State
    requires Legal(k, s, e)
  {
    match e
    case Add(id, provider, text, version, dek) =>
      var box := Encrypt(text, Both(k).(current := version), dek).value;
      State(Added(s.store, id, provider, box), s.plain[id := text], s.rotation)
    case Promote(id, until) => s.(store := Promoted(s.store, id, until))
    case Revoke(id) => s.(store := RevokedAt(s.store, id))
    case Expire(now) => s.(store := AutoRevoked(s.store, now))
    case Begin(order) => s.(rotation := Running(Rows(s.store, order), 0))
    case RotateNext =>
      var after := RotateRow(s.store, s.rotation.rows[s.rotation.next], Both(k));
      if after.None? then s.(rotation := NotRunning)
      else State(after.value, s.plain, Running(s.rotation.rows, s.rotation.next + 1))
    case Crash => s.(rotation := NotRunning)
  }

  // ---------------------------------------------------------------- the invariant

  /** A credential that may serve and carries a version of the rotation decrypts to its original. */
  ghost predicate Reads(k: Keys, c: Credential, text: string) {
    c.status != Revoked && KnownVersion(k, c.box.version) ==> Decrypt(c.box, Both(k)) == Some(text)
  }

  ghost predicate AllRead(k: Keys, store: Store, plain: map<nat, string>) {
    store.Keys == plain.Keys && forall id :: id in store ==> Reads(k, store[id], plain[id])
  }

  /** A row the rotation has passed needs the old key no more. */
  predicate Passed(k: Keys, c: Credential) {
    c.status == Revoked || c.box.version == k.newVersion
  }

  /** A row it has yet to reach is sealed as it was read. */
  predicate Ahead(k: Keys, c: Credential, row: Credential) {
    && c.box == row.box && (row.status == Revoked ==> c.status == Revoked)
    && (row.status != Revoked && KnownVersion(k, row.box.version) ==> Decrypt(row.box, Both(k)).Some?)
  }

  ghost predicate OnTrack(k: Keys, store: Store, rows: seq<Snapshot>, next: nat) {
    && next <= |rows|
    && (forall i, j :: 0 <= i < j < |rows| ==> rows[i].id != rows[j].id)
    && (forall i :: 0 <= i < |rows| ==> rows[i].id in store)
    && (forall i :: 0 <= i < next ==> Passed(k, store[rows[i].id]))
    && (forall i :: next <= i < |rows| ==> Ahead(k, store[rows[i].id], rows[i].row))
  }

  ghost predicate Inv(k: Keys, s: State) {
    && OneActive(s.store) && AllRead(k, s.store, s.plain)
    && (s.rotation.Running? ==> OnTrack(k, s.store, s.rotation.rows, s.rotation.next))
  }

  /** How vault operations may change a store: boxes stay, and so does revocation. */
  ghost predicate Evolves(before: Store, after: Store) {
    forall id :: id in before ==>
      id in after && after[id].box == before[id].box && (before[id].status == Revoked ==> after[id] == before[id])
  }

  lemma EvolvingKeepsTrack(k: Keys, before: Store, after: Store, rows: seq<Snapshot>, next: nat)
    requires OnTrack(k, before, rows, next) && Evolves(before, after)
    ensures OnTrack(k, after, rows, next)
  {
  }

  lemma EvolvingKeepsReading(k: Keys, before: Store, after: Store, plain: map<nat, string>)
    requires AllRead(k, before, plain) && Evolves(before, after) && after.Keys == before.Keys
    ensures AllRead(k, after, plain)
  {
    forall id | id in after ensures Reads(k, after[id], plain[id]) {
      assert Reads(k, before[id], plain[id]);
    }
  }

  lemma AddKeepsInv(k: Keys, s: State, id: nat, provider: string, text: string, version: int, dek: Secret)
    requires Sound(k) && Inv(k, s) && Legal(k, s, Add(id, provider, text, version, dek))
    ensures Inv(k, Step(k, s, Add(id, provider, text, version, dek)))
  {
    var after := Step(k, s, Add(id, provider, text, version, dek));
    assert Evolves(s.store, after.store);
    forall i | i in after.store ensures Reads(k, after.store[i], after.plain[i]) {
      if i != id { assert Reads(k, s.store[i], s.plain[i]); }
    }
    if s.rotation.Running? {
      EvolvingKeepsTrack(k, s.store, after.store, s.rotation.rows, s.rotation.next);
    }
  }

  lemma OpKeepsInv(k: Keys, s: State, after: Store)
    requires Inv(k, s) && Evolves(s.store, after) && after.Keys == s.store.Keys && OneActive(after)
    ensures Inv(k, s.(store := after))
  {
    EvolvingKeepsReading(k, s.store, after, s.plain);
    if s.rotation.Running? {
      EvolvingKeepsTrack(k, s.store, after, s.rotation.rows, s.rotation.next);
    }
  }

  lemma BeginKeepsInv(k: Keys, s: State, order: seq<nat>)
    requires Inv(k, s) && Legal(k, s, Begin(order))
    ensures Inv(k, Step(k, s, Begin(order)))
  {
    var rows := Rows(s.store, order);
    forall i | 0 <= i < |rows| ensures rows[i].id in s.store && Ahead(k, s.store[rows[i].id], rows[i].row) {
      assert order[i] in order;
      assert Reads(k, s.store[order[i]], s.plain[order[i]]);
    }
  }

  lemma BoxesOnly(before: Store, id: nat, box: Sealed)
    requires id in before && OneActive(before)
    ensures OneActive(before[id := before[id].(box := box)])
  {
    var after := before[id := before[id].(box := box)];
    forall i, j | i in after && j in after && after[i].status == Active && IsActive(after, j, after[i].provider)
      ensures i == j
    {
      assert IsActive(before, j, before[i].provider);
    }
  }

  lemma RotateKeepsReading(k: Keys, s: State, snap: Snapshot, box: Sealed)
    requires Sound(k) && AllRead(k, s.store, s.plain) && snap.id in s.store && s.store[snap.id].box == snap.row.box
    requires Rewrap(snap.row.box, Both(k)) == Some(box)
    ensures AllRead(k, s.store[snap.id := s.store[snap.id].(box := box)], s.plain)
  {
    var after := s.store[snap.id := s.store[snap.id].(box := box)];
    RewrapKeepsPlaintext(snap.row.box, Both(k), Both(k));
    forall i | i in after ensures Reads(k, after[i], s.plain[i]) {
      assert Reads(k, s.store[i], s.plain[i]);
    }
  }

  lemma RotateAdvances(k: Keys, store: Store, after: Store, rows: seq<Snapshot>, next: nat)
    requires OnTrack(k, store, rows, next) && next < |rows| && after.Keys == store.Keys
    requires forall id :: id in store && id != rows[next].id ==> after[id] == store[id]
    requires Passed(k, after[rows[next].id])
    ensures OnTrack(k, after, rows, next + 1)
  {
  }

  lemma RotateKeepsInv(k: Keys, s: State)
    requires Sound(k) && Inv(k, s) && Legal(k, s, RotateNext)
    ensures Inv(k, Step(k, s, RotateNext))
  {
    var rows, next := s.rotation.rows, s.rotation.next;
    var snap := rows[next];
    assert Ahead(k, s.store[snap.id], snap.row);
    var box := Rewrap(snap.row.box, Both(k));
    if Skips(snap.row, Both(k)) {
      RotateAdvances(k, s.store, s.store, rows, next);
    } else if box.Some? {
      BoxesOnly(s.store, snap.id, box.value);
      RotateKeepsReading(k, s, snap, box.value);
      RotateAdvances(k, s.store, s.store[snap.id := s.store[snap.id].(box := box.value)], rows, next);
    }
  }

  lemma PromoteEvolves(store: Store, id: nat, until: int)
    requires OneActive(store) && id in store && store[id].status == Grace
    ensures OneActive(Promoted(store, id, until)) && Evolves(store, Promoted(store, id, until))
  {
  }

  lemma RevokeEvolves(store: Store, id: nat)
    requires OneActive(store) && id in store
    ensures OneActive(RevokedAt(store, id)) && Evolves(store, RevokedAt(store, id))
  {
  }

  lemma ExpireEvolves(store: Store, now: int)
    requires OneActive(store)
    ensures OneActive(AutoRevoked(store, now)) && Evolves(store, AutoRevoked(store, now))
  {
  }

  /** Every step keeps it. */
  lemma StepKeepsInv(k: Keys, s: State, e: Event)
    requires Sound(k) && Inv(k, s) && Legal(k, s, e)
    ensures Inv(k, Step(k, s, e))
  {
    match e {
      case Add(id, provider, text, version, dek) => AddKeepsInv(k, s, id, provider, text, version, dek);
      case Promote(id, until) =>
        PromoteEvolves(s.store, id, until);
        OpKeepsInv(k, s, Promoted(s.store, id, until));
      case Revoke(id) =>
        RevokeEvolves(s.store, id);
        OpKeepsInv(k, s, RevokedAt(s.store, id));
      case Expire(now) =>
        ExpireEvolves(s.store, now);
        OpKeepsInv(k, s, AutoRevoked(s.store, now));
      case Begin(order) => BeginKeepsInv(k, s, order);
      case RotateNext => RotateKeepsInv(k, s);
      case Crash =>
    }
  }

  // ---------------------------------------------------------------- runs

  predicate AllLegal(k: Keys, s: State, events: seq<Event>)
    decreases |events|
  {
    events == [] || (Legal(k, s, events[0]) && AllLegal(k, Step(k, s, events[0]), events[1..]))
  }

  function Play(k: Keys, s: State, events: seq<Event>): State
    requires AllLegal(k, s, events)
    decreases |events|
  {
    if events == [] then s else Play(k, Step(k, s, events[0]), events[1..])
  }

  /** At every point of every run: at most one active credential per provider, and all of them readable. */
  lemma {:induction false} RunsKeepInv(k: Keys, s: State, events: seq<Event>)
    requires Sound(k) && Inv(k, s) && AllLegal(k, s, events)
    ensures Inv(k, Play(k, s, events))
    decreases |events|
  {
    if events != [] {
      StepKeepsInv(k, s, events[0]);
      RunsKeepInv(k, Step(k, s, events[0]), events[1..]);
    }
  }

  predicate IsRevoked(s: State, id: nat) {
    id in s.store && s.store[id].status == Revoked
  }

  lemma RevokedStep(k: Keys, s: State, e: Event, id: nat)
    requires Legal(k, s, e) && IsRevoked(s, id)
    ensures IsRevoked(Step(k, s, e), id)
  {
  }

  /** A revoked credential never changes status again. */
  lemma {:induction false} RevokedForGood(k: Keys, s: State, events: seq<Event>, id: nat)
    requires AllLegal(k, s, events) && IsRevoked(s, id)
    ensures IsRevoked(Play(k, s, events), id)
    decreases |events|
  {
    if events != [] {
      RevokedStep(k, s, events[0], id);
      RevokedForGood(k, Step(k, s, events[0]), events[1..], id);
    }
  }

  // ---------------------------------------------------------------- a credential's life

  /** Some other credential of the provider is promoted, with that grace. */
  predicate Supersedes(s: State, e: Event, id: nat, until: int)
    requires id in s.store
  {
    e.Promote? && e.id != id && e.id in s.store && s.store[e.id].provider == s.store[id].provider && e.until == until
  }

  predicate RunsOut(c: Credential, e: Event) {
    e.Expire? && c.status == Grace && c.graceUntil.Some? && c.graceUntil.value < e.now
  }

  /**
   * Each step moves a credential exactly so: staged or in grace to active when it is promoted, active
   * to timed grace when another one of its provider is, to revoked when it is revoked or its grace
   * has run out, and otherwise not at all.
   */
  lemma MovesExactlySo(k: Keys, s: State, e: Event, id: nat)
    requires Legal(k, s, e) && id in s.store
    ensures var after := Step(k, s, e).store;
            id in after &&
            var was, now := s.store[id], after[id];
            && now.provider == was.provider
            && (now.status == Revoked <==> was.status == Revoked || e == Revoke(id) || RunsOut(was, e))
            && (now.status == Active <==>
                  (e.Promote? && e.id == id)
                  || (was.status == Active && e != Revoke(id) && !(e.Promote? && Supersedes(s, e, id, e.until))))
            && (now.graceUntil == if e.Promote? && e.id == id then None
                                  else if e.Promote? && was.status == Active && Supersedes(s, e, id, e.until)
                                  then Some(e.until) else was.graceUntil)
  {
  }

  /** A new credential serves at once exactly when its provider has none that does. */
  lemma NewcomersServeExactlyWhen(k: Keys, s: State, e: Event)
    requires Legal(k, s, e) && e.Add?
    ensures var after := Step(k, s, e).store;
            && after.Keys == s.store.Keys + {e.id} && (forall id :: id in s.store ==> after[id] == s.store[id])
            && after[e.id].provider == e.provider && after[e.id].graceUntil == None
            && after[e.id].status == (if HasActive(s.store, e.provider) then Grace else Active)
            && Decrypt(after[e.id].box, Both(k)) == Some(e.text)
  {
  }

  /** The event takes the serving credential of a provider away. */
  predicate Withdraws(s: State, e: Event, provider: string) {
    e.Revoke? && IsActive(s.store, e.id, provider)
  }

  ghost predicate NeverWithdrawn(k: Keys, s: State, events: seq<Event>, provider: string)
    requires AllLegal(k, s, events)
    decreases |events|
  {
    events == [] ||
    (!Withdraws(s, events[0], provider) && NeverWithdrawn(k, Step(k, s, events[0]), events[1..], provider))
  }

  lemma StepKeepsServing(k: Keys, s: State, e: Event, provider: string)
    requires Legal(k, s, e) && HasActive(s.store, provider) && !Withdraws(s, e, provider)
    ensures HasActive(Step(k, s, e).store, provider)
  {
    var id :| id in s.store && IsActive(s.store, id, provider);
    MovesExactlySo(k, s, e, id);
    var after := Step(k, s, e).store;
    if e.Promote? && Supersedes(s, e, id, e.until) {
      MovesExactlySo(k, s, e, e.id);
      assert IsActive(after, e.id, provider);
    } else {
      assert IsActive(after, id, provider);
    }
  }

  /** A provider that can serve goes on serving through every run that does not revoke its active credential. */
  lemma {:induction false} ServingContinues(k: Keys, s: State, events: seq<Event>, provider: string)
    requires AllLegal(k, s, events) && HasActive(s.store, provider) && NeverWithdrawn(k, s, events, provider)
    ensures HasActive(Play(k, s, events).store, provider)
    decreases |events|
  {
    if events != [] {
      StepKeepsServing(k, s, events[0], provider);
      ServingContinues(k, Step(k, s, events[0]), events[1..], provider);
    }
  }

  // ---------------------------------------------------------------- completion

  predicate Completed(s: State) {
    s.rotation.Running? && s.rotation.next == |s.rotation.rows|
  }

  lemma NewVersionReadsAlone(k: Keys, c: Credential)
    requires Sound(k) && c.box.version == k.newVersion
    ensures Decrypt(c.box, NewAlone(k)) == Decrypt(c.box, Both(k))
  {
  }

  lemma OtherVersionDoesNot(k: Keys, c: Credential)
    requires c.box.version != k.newVersion
    ensures Decrypt(c.box, NewAlone(k)) == None
  {
  }

  /** On completion every rotated credential that may serve reads under the new key alone. */
  lemma CompletedReadsAlone(k: Keys, s: State, i: nat)
    requires Sound(k) && Inv(k, s) && Completed(s) && i < |s.rotation.rows|
    ensures var id := s.rotation.rows[i].id;
            s.store[id].status != Revoked ==> Decrypt(s.store[id].box, NewAlone(k)) == Some(s.plain[id])
  {
    var id := s.rotation.rows[i].id;
    assert Passed(k, s.store[id]) && Reads(k, s.store[id], s.plain[id]);
    if s.store[id].status != Revoked {
      NewVersionReadsAlone(k, s.store[id]);
    }
  }

  predicate InSnapshot(rows: seq<Snapshot>, id: nat) {
    exists i :: 0 <= i < |rows| && rows[i].id == id
  }

  /**
   * A router started on the new key alone passes its check exactly when nothing was added under
   * another version after the rotation read its rows.
   */
  lemma NewKeySufficesExactlyWhen(k: Keys, s: State)
    requires Sound(k) && Inv(k, s) && Completed(s)
    ensures Serviceable(s.store, NewAlone(k)) <==>
            forall id :: id in s.store && !InSnapshot(s.rotation.rows, id) ==> Passed(k, s.store[id])
  {
    forall id | id in s.store ensures Works(s.store[id], NewAlone(k)) <==> Passed(k, s.store[id]) {
      assert Reads(k, s.store[id], s.plain[id]);
      if s.store[id].box.version == k.newVersion {
        NewVersionReadsAlone(k, s.store[id]);
      } else {
        OtherVersionDoesNot(k, s.store[id]);
      }
    }
  }

  /** A rotation is stopped only by a credential of a version it has no key for. */
  lemma OnlyForeignVersionsStopIt(k: Keys, s: State)
    requires Sound(k) && Inv(k, s) && Legal(k, s, RotateNext)
    requires KnownVersion(k, s.rotation.rows[s.rotation.next].row.box.version)
    ensures Step(k, s, RotateNext).rotation == Running(s.rotation.rows, s.rotation.next + 1)
  {
    var snap := s.rotation.rows[s.rotation.next];
    assert Ahead(k, s.store[snap.id], snap.row);
  }

  /** The script left alone makes exactly the steps above. */
  lemma {:induction false} ScriptIsARun(k: Keys, s: State, n: nat)
    requires s.rotation.Running? && s.rotation.next == 0 && n <= |s.rotation.rows|
    requires forall i :: 0 <= i < n ==>
               Skips(s.rotation.rows[i].row, Both(k)) || Rewrap(s.rotation.rows[i].row.box, Both(k)).Some?
    ensures Rotations(k, s, n) == State(RotatedTo(s.store, s.rotation.rows, n, Both(k)), s.plain,
                                        Running(s.rotation.rows, n))
  {
    if n > 0 {
      ScriptIsARun(k, s, n - 1);
    }
  }

  function Rotations(k: Keys, s: State, n: nat): State {
    if n == 0 then s
    else
      var before := Rotations(k, s, n - 1);
      if Legal(k, before, RotateNext) then Step(k, before, RotateNext) else before
  }

  lemma {:induction false} RotationsKeepInv(k: Keys, s: State, n: nat)
    requires Sound(k) && Inv(k, s)
    ensures Inv(k, Rotations(k, s, n))
  {
    if n > 0 {
      RotationsKeepInv(k, s, n - 1);
      if Legal(k, Rotations(k, s, n - 1), RotateNext) {
        StepKeepsInv(k, Rotations(k, s, n - 1), RotateNext);
      }
    }
  }

  /** An undisturbed rotation that gets through every row leaves a store the new key alone opens. */
  lemma UndisturbedRotationSuffices(k: Keys, store: Store, plain: map<nat, string>, order: seq<nat>)
    requires Sound(k) && Inv(k, State(store, plain, NotRunning)) &&
             Legal(k, State(store, plain, NotRunning), Begin(order))
    requires forall i :: 0 <= i < |order| ==>
               var row := Rows(store, order)[i].row; Skips(row, Both(k)) || Rewrap(row.box, Both(k)).Some?
    ensures Serviceable(RotatedTo(store, Rows(store, order), |order|, Both(k)), NewAlone(k))
  {
    var s := State(store, plain, NotRunning);
    var begun := Step(k, s, Begin(order));
    var rows := Rows(store, order);
    StepKeepsInv(k, s, Begin(order));
    ScriptIsARun(k, begun, |order|);
    RotationsKeepInv(k, begun, |order|);
    var end := Rotations(k, begun, |order|);
    SameIds(store, rows, |order|, Both(k));
    forall id | id in end.store ensures InSnapshot(rows, id) {
      assert id in order;
      var i :| 0 <= i < |order| && order[i] == id;
      assert rows[i].id == id;
    }
    NewKeySufficesExactlyWhen(k, end);
  }

  lemma {:induction false} SameIds(store: Store, rows: seq<Snapshot>, n: nat, ring: Keyring)
    requires n <= |rows|
    ensures RotatedTo(store, rows, n, ring).Keys == store.Keys
  {
    if n > 0 { SameIds(store, rows, n - 1, ring); }
  }

  // ---------------------------------------------------------------- an addition too late

  /** The empty vault, with no rotation under way. */
  lemma EmptyVaultIsInv(k: Keys)
    ensures Inv(k, State(map[], map[], NotRunning))
  {
  }

  /**
   * A router still on the old key adds a credential after the rotation has read its rows: the
   * rotation completes and re-wraps the one it read, and the new key alone does not open the store.
   */
  lemma AddedTooLate(k: Keys, first: nat, id: nat, provider: string, text: string, dek: Secret)
    requires Sound(k) && first != id
    ensures var start := State(map[], map[], NotRunning);
            var run := [Add(first, provider, text, k.oldVersion, dek), Begin([first]),
                        Add(id, provider, text, k.oldVersion, dek), RotateNext];
            && AllLegal(k, start, run)
            && Completed(Play(k, start, run)) && !Serviceable(Play(k, start, run).store, NewAlone(k))
            && first in Play(k, start, run).store
            && Decrypt(Play(k, start, run).store[first].box, NewAlone(k)) == Some(text)
  {
    var s0 := State(map[], map[], NotRunning);
    var e0 := Add(first, provider, text, k.oldVersion, dek);
    var e2 := Add(id, provider, text, k.oldVersion, dek);
    var s1 := Step(k, s0, e0);
    var s2 := Step(k, s1, Begin([first]));
    var s3 := Step(k, s2, e2);
    var s4 := Step(k, s3, RotateNext);
    assert s4.rotation == Running(s2.rotation.rows, 1);
    assert id in s4.store && s4.store[id].box.version == k.oldVersion;
    OtherVersionDoesNot(k, s4.store[id]);
    assert !Works(s4.store[id], NewAlone(k));
    PlayOn(k, s3, RotateNext, []);
    PlayOn(k, s2, e2, [RotateNext]);
    PlayOn(k, s1, Begin([first]), [e2, RotateNext]);
    PlayOn(k, s0, e0, [Begin([first]), e2, RotateNext]);
    assert [e0, Begin([first]), e2, RotateNext] == [e0] + [Begin([first]), e2, RotateNext];
  }

  lemma PlayOn(k: Keys, s: State, e: Event, rest: seq<Event>)
    requires Legal(k, s, e) && AllLegal(k, Step(k, s, e), rest)
    ensures AllLegal(k, s, [e] + rest) && Play(k, s, [e] + rest) == Play(k, Step(k, s, e), rest)
  {
    assert ([e] + rest)[1..] == rest;
  }
}
