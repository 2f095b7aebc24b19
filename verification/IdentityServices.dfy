/** IdentityService as it runs: one call at a time over keys and nonces. */
module IdentityServices {
  import opened Common
  import opened Identity

  datatype Verdict = Valid(key: Id) | NoActiveKey | WrongSignature | Replayed

  class IdentityService {
    const verifies: Verifier
    const isEd25519: string -> bool
    var keys: map<Id, Key>
    var nonces: map<string, User>

    constructor (verifies: Verifier, isEd25519: string -> bool)
      ensures this.verifies == verifies && this.isEd25519 == isEd25519 && keys == map[] && nonces == map[]
    {
      this.verifies, this.isEd25519, keys, nonces := verifies, isEd25519, map[], map[];
    }

    /** Keys are only added and revoked; the new one becomes the user's one active key. */
    method UploadPublicKey(user: User, publicKey: string, id: Id, now: nat) returns (r: Result<Id>)
      requires id !in keys
      modifies this`keys
      ensures r == if isEd25519(publicKey) then Ok(id) else Err(BadRequest)
      ensures keys == if r.Ok? then Rotated(old(keys), Active(old(keys), user))[id := Key(user, publicKey, false, now)]
              else old(keys)
      ensures r.Ok? ==>
              Active(keys, user) == {id} && keys.Keys == old(keys).Keys + {id}
                && keys[id] == Key(user, publicKey, false, now)
      ensures r.Ok? ==> forall k :: k in old(keys) ==>
                var was := old(keys)[k];
                keys[k] == Key(was.user, was.publicKey, was.revoked || was.user == user, was.created)
    {
      if !isEd25519(publicKey) { return Err(BadRequest); }
      keys := map k | k in keys ::
        if keys[k].user == user && !keys[k].revoked then keys[k].(revoked := true) else keys[k];
      keys := keys[id := Key(user, publicKey, false, now)];
      r := Ok(id);
    }

    /** findFirst of the user's unrevoked keys, newest first. */
    method FindActive(user: User) returns (found: Option<Id>)
      ensures found.None? <==> forall k :: k in keys && keys[k].user == user ==> keys[k].revoked
      ensures found.Some? ==>
                && found.value in keys && keys[found.value].user == user && !keys[found.value].revoked
                && forall k :: k in keys && keys[k].user == user && !keys[k].revoked ==>
                     keys[k].created <= keys[found.value].created
      ensures IsFound(keys, user, found)
    {
      found := None;
      var rest := keys.Keys;
      while rest != {}
        invariant rest <= keys.Keys
        invariant found.Some? ==> IsActive(keys, user, found.value)
        invariant forall k :: k in keys && k !in rest && IsActive(keys, user, k) ==>
                  found.Some? && keys[k].created <= keys[found.value].created
        decreases |rest|
      {
        var k :| k in rest;
        if keys[k].user == user && !keys[k].revoked && (found.None? || keys[found.value].created < keys[k].created) {
          found := Some(k);
        }
        rest := rest - {k};
      }
      if found.None? {
        assert forall k :: k in keys ==> !IsActive(keys, user, k);
      }
    }

    /**
      * A request is valid exactly when it is signed by the user's active key and its nonce is new; only then is the
      * nonce consumed, and the same nonce is never valid again.
      */
    method VerifyAndConsumeNonce(request: Request) returns (v: Verdict)
      modifies this`nonces
      ensures v.NoActiveKey? <==> forall k :: k in keys && keys[k].user == request.user ==> keys[k].revoked
      ensures v.Valid? ==> v.key in keys && keys[v.key].user == request.user && !keys[v.key].revoked
      ensures v.Valid? ==> IsNewest(keys, request.user, v.key)
                           && verifies(request.payload, request.signature, keys[v.key].publicKey)
                           && request.nonce !in old(nonces)
      ensures v.Replayed? ==> request.nonce in old(nonces)
                              && exists k :: k in keys && IsNewest(keys, request.user, k)
                                             && verifies(request.payload, request.signature, keys[k].publicKey)
      ensures v.WrongSignature? ==> exists k :: k in keys && IsNewest(keys, request.user, k)
                                                && !verifies(request.payload, request.signature, keys[k].publicKey)
      ensures nonces == if v.Valid? then old(nonces)[request.nonce := request.user] else old(nonces)
    {
      var active := FindActive(request.user);
      if active.None? { return NoActiveKey; }
      if !verifies(request.payload, request.signature, keys[active.value].publicKey) { return WrongSignature; }
      if request.nonce in nonces { return Replayed; }
      nonces := nonces[request.nonce := request.user];
      assert active.value in keys && !(keys[active.value].user == request.user ==> keys[active.value].revoked);
      v := Valid(active.value);
    }
  }
}
