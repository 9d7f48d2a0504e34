/** Private keys, the algorithms they can be used with, and the metadata of a JSON Web Key. */
module Keys {
  import opened Wrappers

  datatype Alg =
    | HS256 | HS384 | HS512 | RS256 | RS384 | RS512 | ES256 | ES384 | ES512
    | PS256 | PS384 | PS512 | NoAlg | EdDSA | ES256K | Ed25519 | Ed448
    | OtherAlg(name: string)

  datatype KeyUse = Sig | Enc | OtherUse(name: string)

  datatype KeyType = Ec | Rsa | Oct | Okp

  datatype KeyOp = Sign | Verify | Encrypt | Decrypt | WrapKey | UnwrapKey | DeriveKey | DeriveBits | OtherOp(name: string)

  /** `secret` stands for the key material. */
  datatype PrivateKey =
    | RsaKey(secret: nat) | EcP256(secret: nat) | EcP384(secret: nat)
    | EcP521(secret: nat) | EcK256(secret: nat) | OkpEd25519(secret: nat)

  datatype Signer = Signer(alg: Alg, secret: nat)

  datatype Verifier = Verifier(alg: Alg, public: nat)

  datatype Jwk = Jwk(params: PrivateKey, use: Option<KeyUse>, ops: Option<seq<KeyOp>>, alg: Option<Alg>, kid: Option<string>)

  function TypeOf(k: PrivateKey): KeyType {
    if k.RsaKey? then Rsa else if k.OkpEd25519? then Okp else Ec
  }

  function PossibleAlgs(k: PrivateKey): seq<Alg> {
    match k
    case RsaKey(_) => [RS256, RS384, RS512, PS256, PS384, PS512]
    case EcP256(_) => [ES256]
    case EcP384(_) => [ES384]
    case EcP521(_) => [ES512]
    case EcK256(_) => [ES256K]
    case OkpEd25519(_) => [EdDSA]
  }

  function TryBuildSigner(k: PrivateKey, alg: Alg): Option<Signer> {
    match k
    case RsaKey(s) =>
      (match alg
       case RS256 => Some(Signer(RS256, s))
       case RS384 => Some(Signer(RS384, s))
       case RS512 => Some(Signer(RS512, s))
       case PS256 => Some(Signer(PS256, s))
       case PS384 => Some(Signer(PS384, s))
       case PS512 => Some(Signer(PS512, s))
       case _ => None)
    case EcP256(s) => if alg == ES256 then Some(Signer(ES256, s)) else None
    case EcP384(s) => if alg == ES384 then Some(Signer(ES384, s)) else None
    case EcP521(s) => if alg == ES512 then Some(Signer(ES512, s)) else None
    case EcK256(s) => if alg == ES256K then Some(Signer(ES256K, s)) else None
    case OkpEd25519(s) => if alg == EdDSA then Some(Signer(EdDSA, s)) else None
  }

  /** `public` maps key material to its public half. */
  function TryBuildVerifier(k: PrivateKey, alg: Alg, public: nat -> nat): Option<Verifier> {
    match k
    case RsaKey(s) =>
      (match alg
       case RS256 => Some(Verifier(RS256, public(s)))
       case RS384 => Some(Verifier(RS384, public(s)))
       case RS512 => Some(Verifier(RS512, public(s)))
       case PS256 => Some(Verifier(PS256, public(s)))
       case PS384 => Some(Verifier(PS384, public(s)))
       case PS512 => Some(Verifier(PS512, public(s)))
       case _ => None)
    case EcP256(s) => if alg == ES256 then Some(Verifier(ES256, public(s))) else None
    case EcP384(s) => if alg == ES384 then Some(Verifier(ES384, public(s))) else None
    case EcP521(s) => if alg == ES512 then Some(Verifier(ES512, public(s))) else None
    case EcK256(s) => if alg == ES256K then Some(Verifier(ES256K, public(s))) else None
    case OkpEd25519(s) => if alg == EdDSA then Some(Verifier(EdDSA, public(s))) else None
  }

  /** The three tables agree: what is listed as possible can be signed with and verified with, and nothing else. */
  lemma TablesAgree(k: PrivateKey, alg: Alg, public: nat -> nat)
    ensures TryBuildSigner(k, alg) == if alg in PossibleAlgs(k) then Some(Signer(alg, k.secret)) else None
    ensures TryBuildVerifier(k, alg, public)
         == if alg in PossibleAlgs(k) then Some(Verifier(alg, public(k.secret))) else None
  {
    match k
    case RsaKey(s) =>
      assert alg in PossibleAlgs(k) <==>
             alg.RS256? || alg.RS384? || alg.RS512? || alg.PS256? || alg.PS384? || alg.PS512?;
    case _ =>
  }

  // Key metadata

  datatype Capability = Signature | Encryption

  function AlgCapability(a: Alg): Option<Capability> {
    if a.NoAlg? || a.OtherAlg? then None else Some(Signature)
  }

  function UseCapability(u: KeyUse): Option<Capability> {
    match u case Sig => Some(Signature) case Enc => Some(Encryption) case OtherUse(_) => None
  }

  function OpCapability(o: KeyOp): Option<Capability> {
    if o.Sign? || o.Verify? then Some(Signature) else if o.OtherOp? then None else Some(Encryption)
  }

  predicate Clash(a: Option<Capability>, b: Option<Capability>) {
    a.Some? && b.Some? && a != b
  }

  /** Whether a capability is what the metadata declares in some place. */
  ghost predicate Declares(k: Jwk, c: Capability) {
    || (k.use.Some? && UseCapability(k.use.value) == Some(c))
    || (k.alg.Some? && AlgCapability(k.alg.value) == Some(c))
    || (k.ops.Some? && exists o :: o in k.ops.value && OpCapability(o) == Some(c))
  }

  /** A possible algorithm, and never both families at once. */
  ghost predicate ValidKey(k: Jwk) {
    && (k.alg.Some? ==> k.alg.value in PossibleAlgs(k.params))
    && !(Declares(k, Signature) && Declares(k, Encryption))
  }

  /** Which families the metadata declares, place by place. */
  lemma DeclaresExactly(k: Jwk)
    ensures Declares(k, Signature) <==>
              || k.use == Some(Sig)
              || (k.alg.Some? && !k.alg.value.NoAlg? && !k.alg.value.OtherAlg?)
              || (k.ops.Some? && (Sign in k.ops.value || KeyOp.Verify in k.ops.value))
    ensures Declares(k, Encryption) <==>
              || k.use == Some(Enc)
              || (k.ops.Some? && (Encrypt in k.ops.value || Decrypt in k.ops.value || WrapKey in k.ops.value
                                  || UnwrapKey in k.ops.value || DeriveKey in k.ops.value || DeriveBits in k.ops.value))
  {
    if k.ops.Some? {
      var ops := k.ops.value;
      assert Sign in ops ==> OpCapability(Sign) == Some(Signature);
      assert KeyOp.Verify in ops ==> OpCapability(KeyOp.Verify) == Some(Signature);
      assert forall o :: o in ops && OpCapability(o) == Some(Signature) ==> o == Sign || o == KeyOp.Verify;
      assert forall o :: o in ops && OpCapability(o) == Some(Encryption) ==>
               o == Encrypt || o == Decrypt || o == WrapKey || o == UnwrapKey || o == DeriveKey || o == DeriveBits;
      assert forall o :: o in [Encrypt, Decrypt, WrapKey, UnwrapKey, DeriveKey, DeriveBits] ==> OpCapability(o) == Some(Encryption);
    }
  }

  /** The check in the order the library makes it, operation by operation. */
  method Validate(k: Jwk) returns (ok: bool)
    ensures ok <==> ValidKey(k)
  {
    if k.alg.Some? {
      if k.alg.value !in PossibleAlgs(k.params) { return false; }
      if k.use.Some? && Clash(UseCapability(k.use.value), AlgCapability(k.alg.value)) {
        return false;
      }
    }
    if k.ops.Some? {
      var seen: Option<Capability> := None;
      var ops := k.ops.value;
      for i := 0 to |ops|
        invariant forall o :: o in ops[..i] ==>
          && !(k.use.Some? && Clash(UseCapability(k.use.value), OpCapability(o)))
          && !(k.alg.Some? && Clash(AlgCapability(k.alg.value), OpCapability(o)))
          && (OpCapability(o).Some? ==> OpCapability(o) == seen)
        invariant seen.Some? ==> exists o :: o in ops[..i] && OpCapability(o) == seen
      {
        var o := ops[i];
        assert o in ops && ops[..i + 1] == ops[..i] + [o];
        if k.use.Some? && Clash(UseCapability(k.use.value), OpCapability(o)) { return false; }
        if k.alg.Some? && Clash(AlgCapability(k.alg.value), OpCapability(o)) { return false; }
        if OpCapability(o).Some? {
          if seen.Some? {
            if seen != OpCapability(o) { return false; }
          } else {
            seen := OpCapability(o);
          }
        }
      }
      assert ops[..|ops|] == ops;
    }
    ok := true;
  }
}
