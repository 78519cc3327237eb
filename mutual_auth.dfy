/** The mutual-authentication handler: its construction from the configuration, the
    outbound `authenticate` operation with the peer-verification callback it installs in
    the TLS client, and the selection of the certificate presented to incoming
    connections. Sockets and the TLS machinery are parameters: `dial` says whether the
    TCP connection opens, and `peer` what the TLS client handshake does. */
module MutualAuth {
  import opened Wrappers
  import opened Certs
  import opened ChainVerifier

  datatype MutualAuthConfig = MutualAuthConfig(mutualAuthListenerPort: int)

  datatype MutualAuthHandler = MutualAuthHandler(cfg: MutualAuthConfig, cert: CertificateProvider)

  /** What the constructor hands to the auth manager: a handler, or none when disabled. */
  datatype AuthHandlerResult = AuthHandlerResult(authHandler: Option<MutualAuthHandler>)

  /** The constructor either returns, or stops the agent (a fatal log entry). */
  datatype Construction = Returned(result: AuthHandlerResult) | ProcessExit

  /** The start and stop hooks of a handler, registered with the agent's lifecycle. */
  datatype Hook = ListenerHooks(handler: MutualAuthHandler)

  /** The agent's lifecycle: the hooks registered so far, in order. */
  class Lifecycle {
    var hooks: seq<Hook>

    constructor ()
      ensures hooks == []
    {
      hooks := [];
    }

    method Append(hook: Hook)
      modifies this
      ensures hooks == old(hooks) + [hook]
    {
      hooks := hooks + [hook];
    }
  }

  /** newMTLSAuthHandler: port 0 disables the handler and registers nothing; otherwise a
      provider is required, and the handler's hooks are registered exactly once. */
  method NewMTLSAuthHandler(lc: Lifecycle, cfg: MutualAuthConfig, provider: Option<CertificateProvider>)
    returns (r: Construction)
    modifies lc
    ensures cfg.mutualAuthListenerPort == 0 ==>
      r == Returned(AuthHandlerResult(None)) && lc.hooks == old(lc.hooks)
    ensures cfg.mutualAuthListenerPort != 0 && provider.None? ==>
      r == ProcessExit && lc.hooks == old(lc.hooks)
    ensures cfg.mutualAuthListenerPort != 0 && provider.Some? ==>
      var handler := MutualAuthHandler(cfg, provider.value);
      r == Returned(AuthHandlerResult(Some(handler))) && lc.hooks == old(lc.hooks) + [ListenerHooks(handler)]
  {
    if cfg.mutualAuthListenerPort == 0 {
      return Returned(AuthHandlerResult(None));
    }
    if provider.None? {
      return ProcessExit;
    }
    var mtls := MutualAuthHandler(cfg, provider.value);
    lc.Append(ListenerHooks(mtls));
    return Returned(AuthHandlerResult(Some(mtls)));
  }

  datatype AuthRequest = AuthRequest(localIdentity: NumericIdentity, remoteIdentity: NumericIdentity,
                                     remoteNodeIP: string)

  datatype AuthResponse = AuthResponse(expirationTime: Timestamp)

  /** Why the peer-verification callback rejects the server's certificates. */
  datatype CallbackError = ParseFailed(cause: string) | PeerRejected(reason: VerifyError)

  /** Why the TLS client handshake fails: the callback rejected the peer, or the TLS
      layer failed on its own. */
  datatype HandshakeError = CallbackRejected(rejection: CallbackError) | TlsFailure(cause: string)

  datatype AuthError =
    | NilRequest
    | LocalCertificateUnavailable(localIdentity: NumericIdentity, cause: string)
    | CABundleUnavailable(cause: string)
    | DialFailed(remoteNodeIP: string, port: int, cause: string)
    | HandshakeFailed(failure: HandshakeError)

  /** What the TLS 1.3 client handshake does, seen from this handler: it fails before
      the server's certificates arrive, or it hands them to the verification callback and,
      when the callback accepts them, completes or fails afterwards. */
  datatype ClientHandshake =
    | FailsBeforePeerCertificate(cause: string)
    | ReceivesPeerCertificate(rawCerts: seq<RawCert>, laterFailure: Option<string>)

  /** The remote side and the TLS stack, given the server name and client certificate. */
  type TlsPeer = (string, TlsCertificate) -> ClientHandshake

  /** Opening the TCP connection to a host and port; `Some(e)` when the dial fails. */
  type Dialer = (string, int) -> Option<string>

  /** The certificates parsed from the raw chain, or the first parse error. */
  function ParseChain(parse: Parser, rawCerts: seq<RawCert>): (r: Result<seq<Certificate>, string>)
    ensures r.Success? ==>
      |r.value| == |rawCerts| && forall k :: 0 <= k < |rawCerts| ==> parse(rawCerts[k]) == Success(r.value[k])
    ensures r.Failure? ==>
      exists i :: 0 <= i < |rawCerts| && parse(rawCerts[i]) == Failure(r.error) &&
        forall k :: 0 <= k < i ==> parse(rawCerts[k]).Success?
    decreases |rawCerts|
  {
    if rawCerts == [] then Success([])
    else
      var n := |rawCerts| - 1;
      assert forall k :: 0 <= k < n ==> rawCerts[..n][k] == rawCerts[k];
      match ParseChain(parse, rawCerts[..n])
      case Failure(e) => Failure(e)
      case Success(init) =>
        match parse(rawCerts[n])
        case Failure(e) => Failure(e)
        case Success(c) => Success(init + [c])
  }

  /** Once a prefix fails to parse, the rest of the chain does not change the outcome.
      A corollary of ParseChain's own contract, which already fixes the first failing
      certificate; the loop of the callback uses it at its early return. */
  lemma {:induction false} ParseFailureIsFinal(parse: Parser, rawCerts: seq<RawCert>, k: nat)
    requires k <= |rawCerts| && ParseChain(parse, rawCerts[..k]).Failure?
    ensures ParseChain(parse, rawCerts) == ParseChain(parse, rawCerts[..k])
    decreases |rawCerts| - k
  {
    if k < |rawCerts| {
      var init := rawCerts[..|rawCerts| - 1];
      assert init[..k] == rawCerts[..k];
      ParseFailureIsFinal(parse, init, k);
    } else {
      assert rawCerts[..k] == rawCerts;
    }
  }

  /** The expiration kept by the callback: replaced only by a strictly earlier peer
      expiration, so it is the minimum of the two. */
  function EarlierExpiration(current: Timestamp, peer: Option<Timestamp>): (r: Timestamp)
    ensures r <= current
    ensures peer.Some? ==> r <= peer.value
    ensures r == current || peer == Some(r)
    ensures peer.None? ==> r == current
  {
    if peer.Some? && peer.value < current then peer.value else current
  }

  datatype CallbackOutcome = CallbackOutcome(expirationTime: Timestamp, err: Option<CallbackError>)

  /** The verification callback of `authenticate`: the whole raw chain forms one chain,
      verified against the remote identity; the captured expiration moves to the peer's
      when that is earlier. */
  function PeerCallback(m: MutualAuthHandler, parse: Parser, pathValidate: PathValidator,
                        remoteIdentity: NumericIdentity, caBundle: set<Certificate>,
                        rawCerts: seq<RawCert>, current: Timestamp): CallbackOutcome
  {
    match ParseChain(parse, rawCerts)
    case Failure(e) => CallbackOutcome(current, Some(ParseFailed(e)))
    case Success(chain) =>
      var v := PeerVerdict(m.cert, pathValidate, Some(remoteIdentity), caBundle, [chain]);
      CallbackOutcome(EarlierExpiration(current, v.expirationTime),
                      if v.err.Some? then Some(PeerRejected(v.err.value)) else None)
  }

  /** The callback accepts the server's certificates exactly when they all parse and
      the resulting chain passes verification; the expiration then becomes the earlier
      of the previous one and the peer leaf's, and otherwise stays unchanged. */
  lemma PeerCallbackOutcome(m: MutualAuthHandler, parse: Parser, pathValidate: PathValidator,
                            remoteIdentity: NumericIdentity, caBundle: set<Certificate>,
                            rawCerts: seq<RawCert>, current: Timestamp)
    ensures var r := PeerCallback(m, parse, pathValidate, remoteIdentity, caBundle, rawCerts, current);
      && (r.err.None? <==>
            ParseChain(parse, rawCerts).Success? &&
            CheckChain(m.cert, pathValidate, Some(remoteIdentity), caBundle, ParseChain(parse, rawCerts).value).Success?)
      && (r.err.Some? ==> r.expirationTime == current)
      && (ParseChain(parse, rawCerts).Failure? ==>
            r.err == Some(ParseFailed(ParseChain(parse, rawCerts).error)))
      && (ParseChain(parse, rawCerts).Success? && r.err.Some? ==>
            r.err == Some(PeerRejected(
              CheckChain(m.cert, pathValidate, Some(remoteIdentity), caBundle, ParseChain(parse, rawCerts).value).error)))
      && (r.err.None? ==>
            var leaf := CheckChain(m.cert, pathValidate, Some(remoteIdentity), caBundle, ParseChain(parse, rawCerts).value).value;
            r.expirationTime == Min(current, leaf.notAfter))
  {
    if ParseChain(parse, rawCerts).Success? {
      var chain := ParseChain(parse, rawCerts).value;
      PeerVerdictSuccess(m.cert, pathValidate, Some(remoteIdentity), caBundle, [chain]);
      if CheckChain(m.cert, pathValidate, Some(remoteIdentity), caBundle, chain).Failure? {
        ExamineReportsFirstFailure(m.cert, pathValidate, Some(remoteIdentity), caBundle, [chain], 0);
      }
    }
  }

  function Min(a: Timestamp, b: Timestamp): Timestamp
  {
    if a <= b then a else b
  }

  /** The closure installed as the TLS client's peer-verification callback. The
      captured expiration is passed in and its new value returned. */
  method VerifyPeerCertificateCallback(m: MutualAuthHandler, parse: Parser, pathValidate: PathValidator,
                                       remoteIdentity: NumericIdentity, caBundle: set<Certificate>,
                                       rawCerts: seq<RawCert>, current: Timestamp)
    returns (expirationTime: Timestamp, err: Option<CallbackError>)
    ensures CallbackOutcome(expirationTime, err)
         == PeerCallback(m, parse, pathValidate, remoteIdentity, caBundle, rawCerts, current)
  {
    var chain := new Certificate[|rawCerts|];
    for i := 0 to |rawCerts|
      invariant ParseChain(parse, rawCerts[..i]) == Success(chain[..i])
    {
      assert rawCerts[..i + 1][..i] == rawCerts[..i];
      var cert := parse(rawCerts[i]);
      if cert.Failure? {
        ParseFailureIsFinal(parse, rawCerts, i + 1);
        return current, Some(ParseFailed(cert.error));
      }
      chain[i] := cert.value;
      assert chain[..i + 1] == chain[..i] + [cert.value];
    }
    assert rawCerts[..|rawCerts|] == rawCerts;
    assert chain[..] == chain[..|rawCerts|];
    var peerExpirationTime, verr := VerifyPeerCertificate(m.cert, pathValidate, Some(remoteIdentity),
                                                          caBundle, [chain[..]]);
    expirationTime := current;
    if peerExpirationTime.Some? && peerExpirationTime.value < expirationTime {
      expirationTime := peerExpirationTime.value;
    }
    err := if verr.Some? then Some(PeerRejected(verr.value)) else None;
  }

  /** The outcome of `authenticate`. */
  function AuthenticateResult(m: MutualAuthHandler, parse: Parser, pathValidate: PathValidator,
                              dial: Dialer, peer: TlsPeer, ar: Option<AuthRequest>): Result<AuthResponse, AuthError>
  {
    if ar.None? then Failure(NilRequest)
    else
      var req := ar.value;
      match m.cert.getCertificateForIdentity(req.localIdentity)
      case Failure(e) => Failure(LocalCertificateUnavailable(req.localIdentity, e))
      case Success(clientCert) =>
        match m.cert.getTrustBundle()
        case Failure(e) => Failure(CABundleUnavailable(e))
        case Success(caBundle) =>
          match dial(req.remoteNodeIP, m.cfg.mutualAuthListenerPort)
          case Some(e) => Failure(DialFailed(req.remoteNodeIP, m.cfg.mutualAuthListenerPort, e))
          case None =>
            match peer(m.cert.numericIdentityToSNI(req.remoteIdentity), clientCert)
            case FailsBeforePeerCertificate(e) => Failure(HandshakeFailed(TlsFailure(e)))
            case ReceivesPeerCertificate(rawCerts, laterFailure) =>
              var cb := PeerCallback(m, parse, pathValidate, req.remoteIdentity, caBundle, rawCerts,
                                     clientCert.leaf.notAfter);
              if cb.err.Some? then Failure(HandshakeFailed(CallbackRejected(cb.err.value)))
              else if laterFailure.Some? then Failure(HandshakeFailed(TlsFailure(laterFailure.value)))
              else Success(AuthResponse(cb.expirationTime))
  }

  /** authenticate: proved to compute AuthenticateResult; a nil request is refused
      before any collaborator is consulted. */
  method Authenticate(m: MutualAuthHandler, parse: Parser, pathValidate: PathValidator,
                      dial: Dialer, peer: TlsPeer, ar: Option<AuthRequest>)
    returns (r: Result<AuthResponse, AuthError>)
    ensures r == AuthenticateResult(m, parse, pathValidate, dial, peer, ar)
    ensures ar.None? ==> r == Failure(NilRequest)
  {
    if ar.None? {
      return Failure(NilRequest);
    }
    var req := ar.value;
    var clientCert := m.cert.getCertificateForIdentity(req.localIdentity);
    if clientCert.Failure? {
      return Failure(LocalCertificateUnavailable(req.localIdentity, clientCert.error));
    }
    var caBundle := m.cert.getTrustBundle();
    if caBundle.Failure? {
      return Failure(CABundleUnavailable(caBundle.error));
    }
    var dialErr := dial(req.remoteNodeIP, m.cfg.mutualAuthListenerPort);
    if dialErr.Some? {
      return Failure(DialFailed(req.remoteNodeIP, m.cfg.mutualAuthListenerPort, dialErr.value));
    }
    var expirationTime := clientCert.value.leaf.notAfter;
    var handshake := peer(m.cert.numericIdentityToSNI(req.remoteIdentity), clientCert.value);
    match handshake
    case FailsBeforePeerCertificate(e) =>
      return Failure(HandshakeFailed(TlsFailure(e)));
    case ReceivesPeerCertificate(rawCerts, laterFailure) =>
      var callbackErr;
      expirationTime, callbackErr := VerifyPeerCertificateCallback(m, parse, pathValidate, req.remoteIdentity,
                                                                   caBundle.value, rawCerts, expirationTime);
      if callbackErr.Some? {
        return Failure(HandshakeFailed(CallbackRejected(callbackErr.value)));
      }
      if laterFailure.Some? {
        return Failure(HandshakeFailed(TlsFailure(laterFailure.value)));
      }
      return Success(AuthResponse(expirationTime));
  }

  /** `authenticate` succeeds exactly when every collaborator answers, the server's
      certificates parse into a chain whose leaf passes path validation and the SAN check
      for the remote identity, and the TLS layer completes; the session then expires at
      the earlier of the local and the remote leaf's expiry. */
  lemma AuthenticateSuccess(m: MutualAuthHandler, parse: Parser, pathValidate: PathValidator,
                            dial: Dialer, peer: TlsPeer, req: AuthRequest)
    ensures AuthenticateResult(m, parse, pathValidate, dial, peer, Some(req)).Success? <==>
      && m.cert.getCertificateForIdentity(req.localIdentity).Success?
      && m.cert.getTrustBundle().Success?
      && dial(req.remoteNodeIP, m.cfg.mutualAuthListenerPort).None?
      && var handshake := peer(m.cert.numericIdentityToSNI(req.remoteIdentity),
                               m.cert.getCertificateForIdentity(req.localIdentity).value);
         && handshake.ReceivesPeerCertificate?
         && handshake.laterFailure.None?
         && ParseChain(parse, handshake.rawCerts).Success?
         && var chain := ParseChain(parse, handshake.rawCerts).value;
            && Leaf(chain).Some?
            && pathValidate(Leaf(chain).value, m.cert.getTrustBundle().value, Intermediates(chain)).None?
            && m.cert.validateIdentity(req.remoteIdentity, Leaf(chain).value) == SanCheck(true, None)
    ensures AuthenticateResult(m, parse, pathValidate, dial, peer, Some(req)).Success? ==>
      var clientCert := m.cert.getCertificateForIdentity(req.localIdentity).value;
      var handshake := peer(m.cert.numericIdentityToSNI(req.remoteIdentity), clientCert);
      var chain := ParseChain(parse, handshake.rawCerts).value;
      AuthenticateResult(m, parse, pathValidate, dial, peer, Some(req)).value.expirationTime
        == Min(clientCert.leaf.notAfter, Leaf(chain).value.notAfter)
  {
    var r := AuthenticateResult(m, parse, pathValidate, dial, peer, Some(req));
    var clientCert := m.cert.getCertificateForIdentity(req.localIdentity);
    var caBundle := m.cert.getTrustBundle();
    if clientCert.Success? && caBundle.Success? {
      var handshake := peer(m.cert.numericIdentityToSNI(req.remoteIdentity), clientCert.value);
      if handshake.ReceivesPeerCertificate? {
        PeerCallbackOutcome(m, parse, pathValidate, req.remoteIdentity, caBundle.value,
                            handshake.rawCerts, clientCert.value.leaf.notAfter);
      }
    }
  }

  /** A server whose chain does not validate against the trust bundle makes
      `authenticate` fail with the path-validation error, whatever the TLS layer would do
      afterwards. */
  lemma UntrustedPeerRejected(m: MutualAuthHandler, parse: Parser, pathValidate: PathValidator,
                              dial: Dialer, peer: TlsPeer, req: AuthRequest,
                              clientCert: TlsCertificate, caBundle: set<Certificate>,
                              rawCerts: seq<RawCert>, laterFailure: Option<string>,
                              chain: seq<Certificate>, leaf: Certificate, cause: string)
    requires m.cert.getCertificateForIdentity(req.localIdentity) == Success(clientCert)
    requires m.cert.getTrustBundle() == Success(caBundle)
    requires dial(req.remoteNodeIP, m.cfg.mutualAuthListenerPort).None?
    requires peer(m.cert.numericIdentityToSNI(req.remoteIdentity), clientCert)
          == ReceivesPeerCertificate(rawCerts, laterFailure)
    requires ParseChain(parse, rawCerts) == Success(chain) && Leaf(chain) == Some(leaf)
    requires pathValidate(leaf, caBundle, Intermediates(chain)) == Some(cause)
    ensures AuthenticateResult(m, parse, pathValidate, dial, peer, Some(req))
         == Failure(HandshakeFailed(CallbackRejected(PeerRejected(VerifyFailed(cause)))))
  {
    assert CheckChain(m.cert, pathValidate, Some(req.remoteIdentity), caBundle, chain) == Failure(VerifyFailed(cause));
    ExamineReportsFirstFailure(m.cert, pathValidate, Some(req.remoteIdentity), caBundle, [chain], 0);
  }

  /** Local identity 5 holds a certificate expiring at 2030-01-01T00:00Z; the node at
      10.0.0.2 serves identity 10 on port 4250 with a trusted certificate expiring at
      2029-06-01T00:00Z. The session expires with the remote certificate. */
  lemma SessionExpiresWithEarlierRemoteCertificate(m: MutualAuthHandler, parse: Parser, pathValidate: PathValidator,
                                                   dial: Dialer, peer: TlsPeer, clientCert: TlsCertificate,
                                                   caBundle: set<Certificate>, rawCerts: seq<RawCert>,
                                                   chain: seq<Certificate>, leaf: Certificate)
    requires m.cfg.mutualAuthListenerPort == 4250
    requires m.cert.getCertificateForIdentity(5) == Success(clientCert) && clientCert.leaf.notAfter == 1893456000
    requires m.cert.getTrustBundle() == Success(caBundle)
    requires dial("10.0.0.2", 4250).None?
    requires peer(m.cert.numericIdentityToSNI(10), clientCert) == ReceivesPeerCertificate(rawCerts, None)
    requires ParseChain(parse, rawCerts) == Success(chain) && Leaf(chain) == Some(leaf)
    requires leaf.notAfter == 1874966400
    requires pathValidate(leaf, caBundle, Intermediates(chain)).None?
    requires m.cert.validateIdentity(10, leaf) == SanCheck(true, None)
    ensures AuthenticateResult(m, parse, pathValidate, dial, peer, Some(AuthRequest(5, 10, "10.0.0.2")))
         == Success(AuthResponse(1874966400))
  {
    AuthenticateSuccess(m, parse, pathValidate, dial, peer, AuthRequest(5, 10, "10.0.0.2"));
  }

  /** Why no certificate is presented to an incoming connection. */
  datatype CertLookupError = UnknownSNI(serverName: string, cause: string) | CertificateUnavailable(cause: string)

  /** The certificate presented to an incoming connection: that of the identity the
      requested server name stands for. */
  function GetCertificateForIncomingConnection(m: MutualAuthHandler, serverName: string): (r: Result<TlsCertificate, CertLookupError>)
    ensures r.Failure? && r.error.UnknownSNI? <==> m.cert.sniToNumericIdentity(serverName).Failure?
    ensures r.Success? ==>
      m.cert.sniToNumericIdentity(serverName).Success? &&
      m.cert.getCertificateForIdentity(m.cert.sniToNumericIdentity(serverName).value) == Success(r.value)
    ensures m.cert.sniToNumericIdentity(serverName).Success? ==>
      var id := m.cert.sniToNumericIdentity(serverName).value;
      && (r.Success? <==> m.cert.getCertificateForIdentity(id).Success?)
      && (r.Failure? ==> r.error == CertificateUnavailable(m.cert.getCertificateForIdentity(id).error))
  {
    match m.cert.sniToNumericIdentity(serverName)
    case Failure(e) => Failure(UnknownSNI(serverName, e))
    case Success(id) =>
      match m.cert.getCertificateForIdentity(id)
      case Failure(e) => Failure(CertificateUnavailable(e))
      case Success(c) => Success(c)
  }

  /** When the provider's server-name mapping round-trips for an identity, a server
      reached under that identity's name presents that identity's certificate: the
      certificate an outbound `authenticate` expects to see. */
  lemma IncomingCertificateMatchesServerName(m: MutualAuthHandler, id: NumericIdentity)
    requires m.cert.sniToNumericIdentity(m.cert.numericIdentityToSNI(id)) == Success(id)
    ensures var r := GetCertificateForIncomingConnection(m, m.cert.numericIdentityToSNI(id));
      && (r.Success? <==> m.cert.getCertificateForIdentity(id).Success?)
      && (r.Success? ==> r.value == m.cert.getCertificateForIdentity(id).value)
  {
  }
}
