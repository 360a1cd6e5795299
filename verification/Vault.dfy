/**
 * Provider credentials (src/vault) and the master-key rotation script. Sealing is symbolic: a box
 * names the key that opens it, and nothing is claimed about the cipher.
 */
module Vault {
  import opened Common

  // ---------------------------------------------------------------- envelope encryption

  type Secret = nat

  datatype Envelope =
    | Corrupt
    | Envelope(wrappedBy: Secret, dek: Secret, payloadKey: Secret, payload: string)

  datatype Keyring = Keyring(keys: map<int, Secret>, current: int)

  datatype Sealed = Sealed(envelope: Envelope, version: int)

  /** `dek` is the fresh data key. */
  function Encrypt(text: string, ring: Keyring, dek: Secret): Option<Sealed> {
    if ring.current !in ring.keys then None
    else Some(Sealed(Envelope(ring.keys[ring.current], dek, dek, text), ring.current))
  }

  /** The data key, if the master key of that version opens its box. */
  function Unwrap(s: Sealed, ring: Keyring): Option<Secret> {
    if s.version !in ring.keys || s.envelope.Corrupt? || s.envelope.wrappedBy != ring.keys[s.version] then None
    else Some(s.envelope.dek)
  }

  function Decrypt(s: Sealed, ring: Keyring): Option<string> {
    var dek := Unwrap(s, ring);
    if dek.None? || s.envelope.payloadKey != dek.value then None else Some(s.envelope.payload)
  }

  /** A new wrapping of the same data key; the payload is carried over. */
  function Rewrap(s: Sealed, ring: Keyring): Option<Sealed> {
    var dek := Unwrap(s, ring);
    if dek.None? || ring.current !in ring.keys then None
    else Some(Sealed(s.envelope.(wrappedBy := ring.keys[ring.current], dek := dek.value), ring.current))
  }

  lemma EncryptRoundTrip(text: string, ring: Keyring, dek: Secret)
    requires ring.current in ring.keys
    ensures Encrypt(text, ring, dek).Some? && Decrypt(Encrypt(text, ring, dek).value, ring) == Some(text)
  {
  }

  /** Re-wrapping reads the same before and after, and after it the current key alone is enough. */
  lemma RewrapKeepsPlaintext(s: Sealed, ring: Keyring, alone: Keyring)
    requires Rewrap(s, ring).Some?
    requires ring.current in alone.keys && alone.keys[ring.current] == ring.keys[ring.current]
    ensures Decrypt(Rewrap(s, ring).value, ring) == Decrypt(s, ring)
    ensures Decrypt(Rewrap(s, ring).value, alone) == Decrypt(s, ring)
  {
  }

  // ---------------------------------------------------------------- credentials

  datatype Status = Active | Grace | Revoked

  datatype Credential = Credential(provider: string, box: Sealed, status: Status, graceUntil: Option<int>)

  type Store = map<nat, Credential>

  predicate IsActive(store: Store, id: nat, provider: string) {
    id in store && store[id].provider == provider && store[id].status == Active
  }

  predicate HasActive(store: Store, provider: string) {
    exists id :: id in store && IsActive(store, id, provider)
  }

  /** A provider has at most one active credential. */
  predicate OneActive(store: Store) {
    forall i, j :: i in store && j in store && store[i].status == Active && IsActive(store, j, store[i].provider) ==>
      i == j
  }

  function Added(store: Store, id: nat, provider: string, box: Sealed): Store {
    store[id := Credential(provider, box, if HasActive(store, provider) then Grace else Active, None)]
  }

  function Promoted(store: Store, id: nat, until: int): Store
    requires id in store
  {
    map i | i in store ::
      if i == id then store[i].(status := Active, graceUntil := None)
      else if IsActive(store, i, store[id].provider) then store[i].(status := Grace, graceUntil := Some(until))
      else store[i]
  }

  function RevokedAt(store: Store, id: nat): Store
    requires id in store
  {
    store[id := store[id].(status := Revoked)]
  }

  predicate Expired(c: Credential, now: int) {
    c.status == Grace && c.graceUntil.Some? && c.graceUntil.value < now
  }

  function AutoRevoked(store: Store, now: int): Store {
    map i | i in store :: if Expired(store[i], now) then store[i].(status := Revoked) else store[i]
  }

  const BAD_REQUEST := RouterError(InvalidRequest, Unstated)

  class CredentialVault {
    var store: Store
    const ring: Keyring

    constructor (ring: Keyring, store: Store)
      ensures this.ring == ring && this.store == store
    {
      this.ring, this.store := ring, store;
    }

    /** The first credential of a provider is active at once; any other is staged. */
    method Add(id: nat, provider: string, providerKnown: bool, plaintext: string, dek: Secret)
      returns (r: Result<Status>)
      requires id !in store && OneActive(store)
      modifies this
      ensures OneActive(store)
      ensures r.Ok? <==> |plaintext| >= 8 && providerKnown && ring.current in ring.keys
      ensures r.Err? ==> store == old(store)
      ensures r.Ok? ==> var box := Encrypt(plaintext, ring, dek).value;
                        store == Added(old(store), id, provider, box) && r.value == store[id].status
    {
      if |plaintext| < 8 || !providerKnown { return Err(BAD_REQUEST); }
      var box := Encrypt(plaintext, ring, dek);
      if box.None? { return Err(RouterError(Unknown, Unstated)); }
      var status := if HasActive(store, provider) then Grace else Active;
      store := store[id := Credential(provider, box.value, status, None)];
      return Ok(status);
    }

    /** Staged to active; the one that was active enters timed grace. */
    method Promote(id: nat, providerKnown: bool, until: int) returns (r: Result<Status>)
      requires OneActive(store)
      modifies this
      ensures OneActive(store)
      ensures r.Ok? <==>
              id in old(store) &&
              (old(store)[id].status == Active || (old(store)[id].status == Grace && providerKnown))
      ensures store == if r.Ok? && old(store)[id].status == Grace then Promoted(old(store), id, until) else old(store)
    {
      if id !in store || store[id].status == Revoked { return Err(BAD_REQUEST); }
      if store[id].status == Active { return Ok(Active); }
      if !providerKnown { return Err(BAD_REQUEST); }
      var provider := store[id].provider;
      if HasActive(store, provider) {
        var current :| current in store && IsActive(store, current, provider);
        store := store[current := store[current].(status := Grace, graceUntil := Some(until))];
      }
      store := store[id := store[id].(status := Active, graceUntil := None)];
      assert store == Promoted(old(store), id, until);
      return Ok(Active);
    }

    method Revoke(id: nat) returns (r: Result<Status>)
      requires OneActive(store)
      modifies this
      ensures OneActive(store)
      ensures r.Ok? <==> id in old(store)
      ensures store == if r.Ok? then RevokedAt(old(store), id) else old(store)
    {
      if id !in store { return Err(BAD_REQUEST); }
      store := store[id := store[id].(status := Revoked)];
      return Ok(Revoked);
    }

    method AutoRevokeExpired(now: int) returns (count: nat)
      requires OneActive(store)
      modifies this
      ensures OneActive(store) && store == AutoRevoked(old(store), now)
      ensures count == |set i | i in old(store) && Expired(old(store)[i], now)|
    {
      count := |set i | i in store && Expired(store[i], now)|;
      store := map i | i in store :: if Expired(store[i], now) then store[i].(status := Revoked) else store[i];
    }

    /** Every credential that could still serve must decrypt; `order` is the rows as read. */
    method StartupCheck(order: seq<nat>) returns (failures: seq<nat>)
      requires forall id :: id in order <==> id in store
      ensures failures == [] <==> Serviceable(store, ring)
      ensures forall id :: id in failures ==>
              id in store && store[id].status != Revoked && Decrypt(store[id].box, ring) == None
    {
      failures := [];
      for i := 0 to |order|
        invariant forall id :: id in failures ==>
                  id in store && store[id].status != Revoked && Decrypt(store[id].box, ring) == None
        invariant failures == [] ==> forall j :: 0 <= j < i ==> Works(store[order[j]], ring)
      {
        assert order[i] in order;
        if !Works(store[order[i]], ring) { failures := failures + [order[i]]; }
      }
      if failures != [] { assert failures[0] in failures; }
    }
  }

  predicate Works(c: Credential, ring: Keyring) {
    c.status == Revoked || Decrypt(c.box, ring).Some?
  }

  predicate Serviceable(store: Store, ring: Keyring) {
    forall id :: id in store ==> Works(store[id], ring)
  }

  // ---------------------------------------------------------------- rotation

  /** A row as the script read it before the loop. */
  datatype Snapshot = Snapshot(id: nat, row: Credential)

  predicate Skips(c: Credential, ring: Keyring) {
    c.status == Revoked || c.box.version == ring.current
  }

  /** One pass of the loop; None when the row cannot be re-wrapped and the script throws. */
  function RotateRow(store: Store, snap: Snapshot, ring: Keyring): Option<Store> {
    if Skips(snap.row, ring) then Some(store)
    else
      match Rewrap(snap.row.box, ring)
      case None => None
      case Some(box) => Some(if snap.id in store then store[snap.id := store[snap.id].(box := box)] else store)
  }

  /** The store after n rows, as far as the script got; each update commits on its own. */
  function RotatedTo(store: Store, rows: seq<Snapshot>, n: nat, ring: Keyring): Store
    requires n <= |rows|
  {
    if n == 0 then store
    else
      var before := RotatedTo(store, rows, n - 1, ring);
      RotateRow(before, rows[n - 1], ring).OrElse(before)
  }

  class CredentialTable {
    var store: Store

    constructor (store: Store)
      ensures this.store == store
    {
      this.store := store;
    }

    /** The script's loop, undisturbed; `done` is how many rows it got through. */
    method RotateMasterKey(rows: seq<Snapshot>, ring: Keyring) returns (done: nat, rewrapped: nat, skipped: nat)
      modifies this
      ensures done <= |rows| && store == RotatedTo(old(store), rows, done, ring)
      ensures rewrapped + skipped == done
      ensures forall i :: 0 <= i < done ==> Skips(rows[i].row, ring) || Rewrap(rows[i].row.box, ring).Some?
      ensures done < |rows| ==> !Skips(rows[done].row, ring) && Rewrap(rows[done].row.box, ring).None?
    {
      done, rewrapped, skipped := 0, 0, 0;
      while done < |rows|
        invariant done <= |rows| && store == RotatedTo(old(store), rows, done, ring)
        invariant rewrapped + skipped == done
        invariant forall i :: 0 <= i < done ==> Skips(rows[i].row, ring) || Rewrap(rows[i].row.box, ring).Some?
      {
        var snap := rows[done];
        if Skips(snap.row, ring) {
          skipped := skipped + 1;
        } else {
          var box := Rewrap(snap.row.box, ring);
          if box.None? { return; }
          if snap.id in store { store := store[snap.id := store[snap.id].(box := box.value)]; }
          rewrapped := rewrapped + 1;
        }
        done := done + 1;
      }
    }
  }
}
