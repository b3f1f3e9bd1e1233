/** The keys tokens are signed with (keys/keys.go), over any rotations. */
module SigningKeys {
  import opened StoreModel

  // A private key, by its public half; and its id, the thumbprint of that.
  type Key = nat
  type KeyId = nat

  datatype SigningKey = SigningKey(kid: KeyId, key: Key)

  // What a reload of the key secret finds: nothing, something that is no key, a key.
  datatype Secret = Empty | Unreadable | Readable(key: Key)

  // What a rotation answers.
  datatype Rotation = Rotated | Unchanged | Failed

  // Thumbprints tell keys apart.
  ghost predicate Injective(thumbprint: Key -> KeyId) {
    forall a, b :: thumbprint(a) == thumbprint(b) ==> a == b
  }

  class Manager {
    const thumbprint: Key -> KeyId
    var active: SigningKey
    var retired: seq<SigningKey>
    ghost var everActive: set<Key>

    /** Every key that was ever active is kept, with its own id, and no other. */
    ghost predicate Valid()
      reads this
    {
      && active.kid == thumbprint(active.key)
      && (forall k :: k in retired ==> k.kid == thumbprint(k.key))
      && everActive == {active.key} + set k | k in retired :: k.key
    }

    constructor (thumbprint: Key -> KeyId, key: Key)
      ensures Valid() && this.thumbprint == thumbprint && active.key == key && everActive == {key}
    {
      this.thumbprint := thumbprint;
      active := SigningKey(thumbprint(key), key);
      retired := [];
      everActive := {key};
    }

    /** Takes a key that differs from the active one, which stays trusted; going back
        to an earlier key is a rotation like any other. */
    method MaybeRotate(secret: Secret) returns (answer: Rotation)
      requires Valid()
      modifies this
      ensures Valid()
      ensures answer.Failed? <==> secret.Unreadable?
      ensures answer.Rotated? <==> secret.Readable? && thumbprint(secret.key) != old(active.kid)
      ensures if answer.Rotated? then active.key == secret.key && everActive == old(everActive) + {secret.key}
              else active == old(active) && retired == old(retired) && everActive == old(everActive)
    {
      if secret.Empty? {
        return Unchanged;
      }
      if secret.Unreadable? {
        return Failed;
      }
      var kid := thumbprint(secret.key);
      if active.kid == kid {
        return Unchanged;
      }
      retired := retired + [active];
      active := SigningKey(kid, secret.key);
      everActive := everActive + {secret.key};
      return Rotated;
    }

    /** The published ids are exactly those ever active. */
    method JWKS() returns (kids: seq<KeyId>)
      requires Valid()
      ensures forall kid :: kid in kids <==> exists k :: k in everActive && thumbprint(k) == kid
    {
      kids := [active.kid];
      for i := 0 to |retired|
        invariant forall kid :: kid in kids ==> exists k :: k in everActive && thumbprint(k) == kid
        invariant active.kid in kids && forall j :: 0 <= j < i ==> retired[j].kid in kids
      {
        assert retired[i] in retired && retired[i].key in everActive;
        kids := kids + [retired[i].kid];
      }
    }

    /** The key of an id, if one with it was ever active. */
    method PublicKeyByKID(kid: KeyId) returns (key: Option<Key>)
      requires Valid()
      ensures key.Some? <==> exists k :: k in everActive && thumbprint(k) == kid
      ensures key.Some? ==> key.value in everActive && thumbprint(key.value) == kid
    {
      if active.kid == kid {
        return Some(active.key);
      }
      for i := 0 to |retired|
        invariant forall j :: 0 <= j < i ==> retired[j].kid != kid
      {
        if retired[i].kid == kid {
          assert retired[i] in retired;
          return Some(retired[i].key);
        }
      }
      return None;
    }
  }

  // A key that has been active once all the secrets were tried.
  predicate WasActive(first: Key, secrets: seq<Secret>, key: Key) {
    key == first || Readable(key) in secrets
  }

  /** Over any reloads, going back to earlier keys included, every key that was ever
      active still answers to its own id, and no other does; and only those ids are
      published. */
  method AfterRotations(thumbprint: Key -> KeyId, first: Key, secrets: seq<Secret>, asked: Key)
    returns (found: Option<Key>, kids: seq<KeyId>)
    requires Injective(thumbprint)
    ensures found == if WasActive(first, secrets, asked) then Some(asked) else None
    ensures thumbprint(asked) in kids <==> WasActive(first, secrets, asked)
  {
    var keys := new Manager(thumbprint, first);
    for i := 0 to |secrets|
      invariant keys.Valid() && fresh(keys) && keys.thumbprint == thumbprint
      invariant forall k :: k in keys.everActive <==> WasActive(first, secrets[..i], k)
    {
      var answer := keys.MaybeRotate(secrets[i]);
      assert secrets[..i + 1] == secrets[..i] + [secrets[i]];
      assert secrets[i].Readable? && !answer.Rotated? ==> secrets[i].key == keys.active.key;
    }
    assert secrets[..|secrets|] == secrets;
    found := keys.PublicKeyByKID(thumbprint(asked));
    kids := keys.JWKS();
  }
}
