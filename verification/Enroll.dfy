/** Token-bootstrapped enrollment (internal/enroll/enroll.go). A certificate is the record `Sign` builds; its
    cryptography is not part of this model. */
module Enroll {
  import opened Prelude
  import opened AtomicTokens
  import opened T = TokenMachine
  import opened TokenRuns
  import opened TokenStore

  /** A certificate: the organisations of its subject, and whether it is for client authentication. */
  datatype Cert = Cert(orgs: seq<string>, client: bool)

  /** What goes wrong after the token was consumed, if anything. */
  datatype Signing = Signed | SignFails | FingerprintFails

  /** The certificate handed out for a consumed token's role. */
  function IssuedCert(role: string, signing: Signing): (c: Option<Cert>)
    ensures c.Some? ==> c.value.client && forall org :: org in c.value.orgs <==> org == role
  {
    if signing.Signed? then Some(Cert([role], true)) else None
  }

  datatype EnrollError = BadToken(reply: Reply) | NoCertificate

  class Service {
    const tokens: FileStore

    constructor (tokens: FileStore)
      ensures this.tokens == tokens
    {
      this.tokens := tokens;
    }

    /** A certificate is handed out exactly when the token was live, in time, read and durably removed, and
        signing worked; it is a client certificate with the token's role and no other. A failed signing
        spends the token all the same. A refused token is gone too, unless the call failed, and then the
        file is as it was. */
    method Enroll(token: string, now: Time, f: Faults, signing: Signing, granted: Files, ghost others: seq<T.Event>)
      returns (r: Result<Cert, EnrollError>)
      requires tokens.Ready(ConsumeOp(token), granted, others)
      modifies tokens.disk
      ensures tokens.disk.Valid()
      ensures var held := Contents(granted.main);
              var spends := Harmless(f, granted.main) && !f.read.NoData? && token in held && now <= held[token].expiry;
              if !spends then
                r.Failure? && r.error.BadToken? && ConsumeAnswer(Failure(r.error.reply), token, now, f, granted.main)
              else r == if signing.Signed? then Success(Cert([held[token].role], true)) else Failure(NoCertificate)
      ensures tokens.disk.main == if Harmless(f, granted.main) then Full(ReadFile(granted.main, f.read).value - {token})
                                  else if f.mkdir then old(tokens.disk.main) else granted.main
    {
      var role := tokens.Consume(token, now, f, granted, others);
      if role.Failure? {
        return Failure(BadToken(role.error));
      }
      var cert := Cert([role.value], true);
      if signing.SignFails? {
        return Failure(NoCertificate);
      }
      if signing.FingerprintFails? {
        return Failure(NoCertificate);
      }
      return Success(cert);
    }
  }
}
