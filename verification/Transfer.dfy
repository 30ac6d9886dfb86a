/** Transfer tokens of the file backend, and the handler that turns an accepted one into one Put. */
module Transfer {
  import opened Wrappers
  import opened Content
  import opened Table
  import opened Hashing
  import Encoding
  import FileStore
  import Keys

  datatype Claims = Claims(op: string, key: string, exp: int, contentType: string, size: int, sha: string)

  /** Serialization and the keyed MAC, which stay abstract. */
  datatype Codec = Codec(marshal: Claims -> Bytes, unmarshal: Bytes -> Option<Claims>, mac: (Bytes, string) -> Bytes)

  predicate IsInt64(x: int) { -MAX_INT64 - 1 <= x <= MAX_INT64 }

  /** Claims hold 64-bit integers. */
  predicate InRange(claims: Claims) { IsInt64(claims.size) && IsInt64(claims.exp) }

  ghost predicate CodecLaw(codec: Codec) {
    && (forall claims {:trigger codec.marshal(claims)} :: codec.marshal(claims) != []
          && (InRange(claims) ==> codec.unmarshal(codec.marshal(claims)) == Some(claims)))
    && (forall bytes {:trigger codec.unmarshal(bytes)} ::
          codec.unmarshal(bytes).Some? ==> InRange(codec.unmarshal(bytes).value))
    && (forall key, message {:trigger codec.mac(key, message)} :: codec.mac(key, message) != [])
  }

  datatype Verification = Accepted(claims: Claims) | Invalid | Expired

  function SignCapability(codec: Codec, key: Bytes, claims: Claims): string {
    var payload := Encoding.RawUrl(codec.marshal(claims));
    payload + "." + Encoding.RawUrl(codec.mac(key, payload))
  }

  function VerifyCapability(codec: Codec, key: Bytes, token: string, op: string, now: int): Verification {
    var dot := Keys.IndexOf(token, '.');
    if dot == |token| || dot == 0 || dot == |token| - 1 then Invalid
    else
      var payload, tag := token[..dot], Encoding.RawUrlDecode(token[dot + 1..]);
      if tag.None? || tag.value != codec.mac(key, payload) then Invalid
      else
        var bytes := Encoding.RawUrlDecode(payload);
        if bytes.None? || codec.unmarshal(bytes.value).None? then Invalid
        else
          var claims := codec.unmarshal(bytes.value).value;
          if claims.exp <= now then Expired
          else if claims.op != op then Invalid
          else Accepted(claims)
  }

  /** A signed token verifies to its own claims until it expires, for its own operation only. */
  lemma SignedVerifies(codec: Codec, key: Bytes, claims: Claims, op: string, now: int)
    requires CodecLaw(codec) && InRange(claims)
    ensures VerifyCapability(codec, key, SignCapability(codec, key, claims), op, now)
            == if claims.exp <= now then Expired else if claims.op != op then Invalid else Accepted(claims)
  {
    hide Encoding.RawUrl, Encoding.RawUrlDecode;
    var payload := Encoding.RawUrl(codec.marshal(claims));
    var mac := codec.mac(key, payload);
    Encoding.RawUrlRoundTrip(codec.marshal(claims));
    Encoding.RawUrlRoundTrip(mac);
    var token := SignCapability(codec, key, claims);
    assert token[|payload|] == '.' && forall i | 0 <= i < |payload| :: token[i] == payload[i];
    assert Keys.IndexOf(token, '.') == |payload|;
    assert token[..|payload|] == payload && token[|payload| + 1..] == Encoding.RawUrl(mac);
  }

  /**
   The token carries these claims under the secret's MAC: before its first dot the
   text of their bytes, after it the MAC of that very text.
   */
  ghost predicate Proves(codec: Codec, key: Bytes, token: string, payload: string, tag: string, claims: Claims) {
    && token == payload + "." + tag && payload != "" && tag != "" && '.' !in payload
    && Encoding.RawUrlDecode(tag) == Some(codec.mac(key, payload))
    && Encoding.RawUrlDecode(payload).Some?
    && codec.unmarshal(Encoding.RawUrlDecode(payload).value) == Some(claims)
  }

  ghost predicate ProvesClaims(codec: Codec, key: Bytes, token: string, claims: Claims) {
    exists payload, tag :: Proves(codec, key, token, payload, tag, claims)
  }

  /** A token is cut in one way only, so it proves one set of claims at most. */
  lemma ProvesOne(codec: Codec, key: Bytes, token: string, payload: string, tag: string, claims: Claims)
    requires Proves(codec, key, token, payload, tag, claims)
    ensures Keys.IndexOf(token, '.') == |payload| && token[..|payload|] == payload && token[|payload| + 1..] == tag
  {
    assert forall i | 0 <= i < |payload| :: token[i] == payload[i] && payload[i] in payload;
    assert token[|payload|] == '.';
  }

  lemma Cut(token: string)
    ensures var dot := Keys.IndexOf(token, '.');
            dot < |token| ==> token == token[..dot] + "." + token[dot + 1..] && '.' !in token[..dot]
  {
    hide Keys.IndexOf;
    CutAt(token, Keys.IndexOf(token, '.'));
  }

  lemma CutAt(token: string, dot: nat)
    requires dot < |token| ==> token[dot] == '.' && forall k | 0 <= k < dot :: token[k] != '.'
    ensures dot < |token| ==> token == token[..dot] + "." + token[dot + 1..] && '.' !in token[..dot]
  {
    if dot < |token| {
      assert token[dot..] == "." + token[dot + 1..];
      assert token == token[..dot] + token[dot..];
    }
  }

  /**
   The converse, for every token: what verification makes of it is decided by the
   claims it proves, so nothing is accepted without the secret's MAC.
   */
  lemma AcceptedExactly(codec: Codec, key: Bytes, token: string, op: string, now: int, claims: Claims)
    ensures VerifyCapability(codec, key, token, op, now) == Accepted(claims)
            <==> ProvesClaims(codec, key, token, claims) && claims.op == op && claims.exp > now
    ensures ProvesClaims(codec, key, token, claims) ==>
              (VerifyCapability(codec, key, token, op, now) == Expired <==> claims.exp <= now)
    ensures VerifyCapability(codec, key, token, op, now) == Expired ==>
              exists expired :: ProvesClaims(codec, key, token, expired) && expired.exp <= now
  {
    hide Encoding.RawUrlDecode;
    var dot := Keys.IndexOf(token, '.');
    Cut(token);
    if ProvesClaims(codec, key, token, claims) {
      var payload, tag :| Proves(codec, key, token, payload, tag, claims);
      ProvesOne(codec, key, token, payload, tag, claims);
    }
    var verified := VerifyCapability(codec, key, token, op, now);
    if !verified.Invalid? {
      var bytes := Encoding.RawUrlDecode(token[..dot]);
      assert Proves(codec, key, token, token[..dot], token[dot + 1..], codec.unmarshal(bytes.value).value);
    }
  }

  // --------------------------------------------------------------------- targets

  const SECOND: Time := 1_000_000_000
  const PUT := "put"

  /** Token times are whole seconds. */
  function Unix(t: Time): int { t / SECOND }

  /** `PresignPut`: the token names the key and the only content it admits. */
  function PutToken(codec: Codec, secret: Bytes, key: string, content: Declaration, signed: Time, ttl: Time): string {
    SignCapability(codec, secret, Claims(PUT, key, Unix(signed + ttl), "", content.size, content.sha))
  }

  function TrimPrefix(text: string, prefix: string): string {
    if prefix <= text then text[|prefix|..] else text
  }

  datatype Status = NoContent | BadRequest | Unauthorized | Gone | ServerError

  /** The claims a PUT request proves, or the status that refuses it. */
  function Authorize(codec: Codec, secret: Bytes, path: string, token: string, now: Time): (Option<Claims>, Status) {
    var verified := VerifyCapability(codec, secret, token, PUT, Unix(now));
    if verified.Expired? then (None, Gone)
    else if verified.Invalid? || verified.claims.key == "" || TrimPrefix(path, "/storage/") != verified.claims.key
    then (None, Unauthorized)
    else if verified.claims.size < 0 || !IsLowerHex(verified.claims.sha, 64) then (None, Unauthorized)
    else (Some(verified.claims), NoContent)
  }

  /**
   A request under this path with this token may store what these claims declare:
   they are proved under the secret, for a PUT of the path's own key, and last.
   */
  ghost predicate Permits(codec: Codec, secret: Bytes, path: string, token: string, now: Time, claims: Claims) {
    && ProvesClaims(codec, secret, token, claims) && claims.op == "put" && claims.exp > Unix(now)
    && claims.key != "" && (path == "/storage/" + claims.key || (path == claims.key && !("/storage/" <= path)))
    && claims.size >= 0 && IsLowerHex(claims.sha, 64)
  }

  /** The token was proved under the secret, but its time is over. */
  ghost predicate Outdated(codec: Codec, secret: Bytes, token: string, now: Time) {
    exists claims :: ProvesClaims(codec, secret, token, claims) && claims.exp <= Unix(now)
  }

  /** What a request is answered before its body is read. */
  lemma AuthorizedExactly(codec: Codec, secret: Bytes, path: string, token: string, now: Time)
    ensures var (claims, refusal) := Authorize(codec, secret, path, token, now);
            && (forall c :: claims == Some(c) <==> Permits(codec, secret, path, token, now, c))
            && (refusal == Gone <==> Outdated(codec, secret, token, now))
            && (claims.None? ==> refusal == Gone || refusal == Unauthorized)
  {
    hide VerifyCapability, ProvesClaims, IsLowerHex, TrimPrefix;
    var (claims, refusal) := Authorize(codec, secret, path, token, now);
    forall c: Claims ensures claims == Some(c) <==> Permits(codec, secret, path, token, now, c) {
      AcceptedExactly(codec, secret, token, PUT, Unix(now), c);
      PathNames(path, c.key);
    }
    forall c: Claims ensures ProvesClaims(codec, secret, token, c) && c.exp <= Unix(now) ==> refusal == Gone {
      AcceptedExactly(codec, secret, token, PUT, Unix(now), c);
    }
    if refusal == Gone {
      AcceptedExactly(codec, secret, token, PUT, Unix(now), Claims("", "", 0, "", 0, ""));
    }
  }

  lemma PathNames(path: string, key: string)
    ensures TrimPrefix(path, "/storage/") == key
            <==> path == "/storage/" + key || (path == key && !("/storage/" <= path))
  {
    if "/storage/" <= path {
      assert path == "/storage/" + path[|"/storage/"|..];
    }
    assert ("/storage/" + key)[|"/storage/"|..] == key;
  }

  class Handler<S> {
    const store: FileStore.Store<S>
    const codec: Codec
    const secret: Bytes

    constructor (store: FileStore.Store<S>, codec: Codec, secret: Bytes)
      ensures this.store == store && this.codec == codec && this.secret == secret
    {
      this.store, this.codec, this.secret := store, codec, secret;
    }

    /** The request permits exactly this body, and its key lies under the root. */
    ghost predicate Stores(path: string, token: string, body: Reader, claims: Claims)
      reads store`now
    {
      && Permits(codec, secret, path, token, store.now, claims) && Keys.Resolve(store.root, claims.key).Some?
      && !body.fails && |Body(body.chunks)| == claims.size < MAX_INT64
      && Sum(store.hash, Body(body.chunks)) == claims.sha
    }

    /** One request changes at most the one file its claims name, to the content they declare. */
    method Put(path: string, token: string, body: Reader) returns (status: Status)
      requires CodecLaw(codec)
      modifies store`files
      ensures var (claims, refusal) := Authorize(codec, secret, path, token, store.now);
              if claims.None? then status == refusal && status != NoContent && store.files == old(store.files)
              else
                var file := Keys.Resolve(store.root, claims.value.key);
                var outcome := FileStore.PutOutcome(store.hash, body, claims.value.size, claims.value.sha);
                && (status == NoContent <==> file.Some? && outcome.Stored?)
                && (status == BadRequest <==> file.Some? && outcome.ContentMismatch?)
                && (status == ServerError <==> file.None? || outcome.ReadFailed?)
                && store.files == if status == NoContent
                                  then old(store.files)[file.value := FileStore.File(Body(body.chunks), store.now)]
                                  else old(store.files)
      ensures status == Gone <==> Outdated(codec, secret, token, store.now)
      ensures status == Unauthorized <==>
                && !Outdated(codec, secret, token, store.now)
                && forall claims :: !Permits(codec, secret, path, token, store.now, claims)
      ensures status == NoContent <==> exists claims :: Stores(path, token, body, claims)
      ensures forall claims | Stores(path, token, body, claims) ::
                store.files == old(store.files)[Keys.Resolve(store.root, claims.key).value :=
                                                  FileStore.File(Body(body.chunks), store.now)]
      ensures status != NoContent ==> store.files == old(store.files)
    {
      AuthorizedExactly(codec, secret, path, token, store.now);
      var (claims, refusal) := Authorize(codec, secret, path, token, store.now);
      if claims.None? {
        return refusal;
      }
      var result := store.Put(claims.value.key, body, claims.value.size, claims.value.sha);
      assert result.Stored? <==> Stores(path, token, body, claims.value);
      match result
      case Stored => return NoContent;
      case ContentMismatch => return BadRequest;
      case _ => return ServerError;
    }
  }

  /**
   A target signed for a declaration is accepted at its own path exactly until it
   expires, and then stores only a body of the declared size and SHA-256.
   */
  lemma TargetAdmitsDeclared<S>(codec: Codec, secret: Bytes, hash: Hash<S>, key: string, content: Declaration,
                                signed: Time, ttl: Time, now: Time, body: Reader)
    requires CodecLaw(codec) && key != "" && content.Valid() && IsInt64(content.size) && IsInt64(Unix(signed + ttl))
    ensures var (claims, refusal) :=
              Authorize(codec, secret, "/storage/" + key, PutToken(codec, secret, key, content, signed, ttl), now);
            && (claims.Some? <==> Unix(now) < Unix(signed + ttl))
            && (claims.None? ==> refusal == Gone)
            && (claims.Some? ==>
                  && now < signed + ttl && claims.value.key == key
                  && FileStore.PutOutcome(hash, body, claims.value.size, claims.value.sha)
                     == FileStore.PutOutcome(hash, body, content.size, content.sha))
  {
    hide VerifyCapability, SignCapability;
    SignedVerifies(codec, secret, Claims(PUT, key, Unix(signed + ttl), "", content.size, content.sha), PUT, Unix(now));
    assert TrimPrefix("/storage/" + key, "/storage/") == key;
  }

  /** The same token at any other path, or for any other operation, authorizes nothing. */
  lemma TargetOnlyItsPath(codec: Codec, secret: Bytes, path: string, key: string, content: Declaration,
                          signed: Time, ttl: Time, now: Time, op: string)
    requires CodecLaw(codec) && IsInt64(content.size) && IsInt64(Unix(signed + ttl))
    ensures TrimPrefix(path, "/storage/") != key ==>
              Authorize(codec, secret, path, PutToken(codec, secret, key, content, signed, ttl), now).0.None?
    ensures op != PUT ==> !VerifyCapability(codec, secret, PutToken(codec, secret, key, content, signed, ttl), op,
                                            Unix(now)).Accepted?
  {
    hide VerifyCapability, SignCapability;
    SignedVerifies(codec, secret, Claims(PUT, key, Unix(signed + ttl), "", content.size, content.sha), PUT, Unix(now));
    SignedVerifies(codec, secret, Claims(PUT, key, Unix(signed + ttl), "", content.size, content.sha), op, Unix(now));
  }
}
