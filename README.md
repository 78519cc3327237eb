# Mutual-TLS authentication handler: certificate-chain acceptance

A Dafny model of the certificate-chain acceptance logic in Cilium's mutual-authentication
handler (`pkg/auth/mtls_authhandler.go`). The agent authenticates a remote node by opening a
TLS 1.3 connection to it. The connection presents the local identity's certificate and checks
the certificate chain the server sends back. The session is valid until the earlier of the two
leaf certificates expires.

The model covers:

- **Chain verification** (`ChainVerifier`): `verifyPeerCertificate` is a method with the
  source's two nested loops. The outer loop goes over the chains. The inner loop fills a
  `CertPool` of intermediates with the CA-flagged certificates and overwrites the leaf with
  each non-CA certificate. The method is proved to compute the specification function
  `PeerVerdict`. Lemmas about that function state the error order, the short-circuit on the
  first failing chain, the leaf choice and which expiration is reported.
- **`authenticate`** (`MutualAuth`): the nil-request guard, then the certificate and
  trust-bundle lookups, the dial, and the TLS client handshake with its peer-verification
  callback. The callback is a method: it parses the raw certificates into an array in a loop,
  verifies them as one chain against the remote identity, and lowers the captured expiration
  only when the peer's is strictly earlier. `authenticate` is proved to compute
  `AuthenticateResult`. Lemmas state when it succeeds and that the session then expires at
  the minimum of the local and remote leaf expirations.
- **Construction** (`NewMTLSAuthHandler`): a listener port of 0 disables the handler and
  registers no lifecycle hooks. A missing certificate provider stops the agent. Otherwise
  the handler's hooks are registered once.
- **Incoming certificate selection** (`GetCertificateForIncomingConnection`): the server
  name is mapped to an identity, and that identity's certificate is looked up.

Certificates are records with their DER bytes, CA flag and `NotAfter` time (`Certs`).
Timestamps are integers. The certificate provider is a datatype whose fields are functions.
X.509 parsing, path validation, the dial and the TLS stack's behaviour are also functions
passed in as parameters. Nothing about them is assumed. In particular, the server-name
mapping is not assumed to round-trip, except as an explicit hypothesis of
`IncomingCertificateMatchesServerName`.

A reader might expect the reported expiration to be the minimum over all verified chains.
The code keeps the leaf expiration of the *last* chain, because the variable
is overwritten at `mtls_authhandler.go:269`. The model follows the code, and `LastChainWins`
proves this behaviour. `authenticate` always passes exactly one chain, so its result is
unaffected.

## Model

| member | source | states |
|---|---|---|
| `ChainVerifier.Leaf` | pkg/auth/mtls_authhandler.go:245-252 | the leaf chosen from a chain is one of its certificates and is not CA-flagged |
| `ChainVerifier.NoLeafIffAllCA` | pkg/auth/mtls_authhandler.go:246-255 | a chain has no leaf exactly when every certificate in it is CA-flagged |
| `ChainVerifier.LeafIsLastNonCA` | pkg/auth/mtls_authhandler.go:246-252 | when several certificates are not CA-flagged, the last one in chain order is the leaf |
| `ChainVerifier.CheckChain` | pkg/auth/mtls_authhandler.go:245-267 | a chain is accepted exactly with its leaf (the last non-CA certificate); a leaf that passes path validation is accepted when no identity is expected, so the SAN check is skipped, or when the SAN check answers true without error; "no leaf certificate found" exactly for all-CA chains; a path-validation failure of the leaf gives its error; with an expected identity and a path-valid leaf, a SAN-check error is propagated and a SAN answer of false gives the separate "unable to validate SAN" error; without an expected identity only the leaf and path-validation errors can occur |
| `ChainVerifier.PeerVerdict` | pkg/auth/mtls_authhandler.go:232-275 | the verdict carries an error exactly when its expiration is nil |
| `ChainVerifier.FailureIsFinal` | pkg/auth/mtls_authhandler.go:253-266 | once a chain fails, the chains after it are never examined: the outcome is the failing prefix's |
| `ChainVerifier.ExamineSucceedsIffAllPass` | pkg/auth/mtls_authhandler.go:239-272 | examination succeeds iff every chain passes, and then holds the last chain's leaf expiration |
| `ChainVerifier.ExamineReportsFirstFailure` | pkg/auth/mtls_authhandler.go:239-266 | the error returned is that of the first failing chain |
| `ChainVerifier.NoIdentityNoSanCheck` | pkg/auth/mtls_authhandler.go:260-267 | with no expected identity, the SAN check never rejects a chain |
| `ChainVerifier.EmptyChainListRejected` | pkg/auth/mtls_authhandler.go:233-235 | an empty chain list gives the "no certificate chains" error and a nil expiration, whatever the trust bundle and identity |
| `ChainVerifier.PeerVerdictSuccess` | pkg/auth/mtls_authhandler.go:237-274 | verification succeeds iff the list is non-empty and every chain passes; the expiration is then non-nil and equals the last chain's leaf `NotAfter` |
| `ChainVerifier.IdentityMismatchRejected` | pkg/auth/mtls_authhandler.go:260-267 | when the first failing chain has a path-valid leaf that the SAN check answers false for (without error), verification returns the "unable to validate SAN" error and a nil expiration |
| `ChainVerifier.SanCheckErrorPropagated` | pkg/auth/mtls_authhandler.go:260-263 | when the first failing chain has a path-valid leaf and the SAN check returns an error, verification returns "failed to validate SAN" with that error and a nil expiration |
| `ChainVerifier.LastChainWins` | pkg/auth/mtls_authhandler.go:269 | with two passing chains, the second chain's leaf expiration is reported, even when it is later than the first's |
| `ChainVerifier.VerifyPeerCertificate` | pkg/auth/mtls_authhandler.go:232-275 | the loops over chains and certificates compute `PeerVerdict`; the inner loop keeps the pool equal to the CA-flagged certificates seen so far and the leaf equal to the last non-CA one |
| `MutualAuth.NewMTLSAuthHandler` | pkg/auth/mtls_authhandler.go:33-53 | port 0 gives an empty result and registers no hook; a missing provider stops the agent; otherwise exactly one pair of hooks is registered for the returned handler |
| `MutualAuth.ParseChain` | pkg/auth/mtls_authhandler.go:111-118 | on success every raw certificate parses to the certificate at its position; on failure the error is the first certificate's parse error |
| `MutualAuth.ParseFailureIsFinal` | pkg/auth/mtls_authhandler.go:112-116 | a parse failure returns at once: certificates after it do not change the outcome |
| `MutualAuth.EarlierExpiration` | pkg/auth/mtls_authhandler.go:120-123 | the kept expiration is the minimum of the current and the peer's; a nil peer value leaves it unchanged |
| `MutualAuth.PeerCallbackOutcome` | pkg/auth/mtls_authhandler.go:108-125 | the callback accepts iff all certificates parse and the chain passes verification for the remote identity; a parse failure gives the parse error, and a rejected chain gives its verification error; the expiration then becomes the minimum of the local and remote leaf's, and is otherwise unchanged |
| `MutualAuth.VerifyPeerCertificateCallback` | pkg/auth/mtls_authhandler.go:108-125 | the parse loop over the array and the expiration update compute `PeerCallback` |
| `MutualAuth.Authenticate` | pkg/auth/mtls_authhandler.go:75-142 | computes `AuthenticateResult`; a nil request fails with its own error, whatever the collaborators would answer |
| `MutualAuth.AuthenticateSuccess` | pkg/auth/mtls_authhandler.go:96-141 | `authenticate` succeeds iff every lookup and the dial succeed, the server's chain parses, has a leaf, passes path validation and the SAN check, and the handshake completes; the response's expiration is the minimum of the two leaf expirations |
| `MutualAuth.UntrustedPeerRejected` | pkg/auth/mtls_authhandler.go:120-133 | a server chain that fails path validation makes `authenticate` fail with that validation error |
| `MutualAuth.SessionExpiresWithEarlierRemoteCertificate` | pkg/auth/mtls_authhandler.go:96-141 | local certificate expiring 2030-01-01 and trusted remote certificate expiring 2029-06-01 give a session expiring 2029-06-01 |
| `MutualAuth.GetCertificateForIncomingConnection` | pkg/auth/mtls_authhandler.go:203-211 | an unknown server name is an error exactly when the provider cannot map it; for a mapped name, a certificate is returned exactly when the provider has one for that identity, and it is that certificate; otherwise the provider's error is returned |
| `MutualAuth.IncomingCertificateMatchesServerName` | pkg/auth/mtls_authhandler.go:203-211 | when the provider's name mapping round-trips for an identity, a connection under that identity's server name is served that identity's certificate |

## Left out

- The inbound listener (`listenForConnections`), its accept loop, the shutdown goroutine and the ready channel: these are sockets and concurrency. `onStart`, which sets `cancelSocketListen`, and `onStop`, which calls it, are left out for the same reason. That is why the handler is a value and not an object.
- `handleConnection` (the inbound TLS server handshake and its trust-bundle fetch): it only configures Go's TLS server and logs failures.
- The TLS machinery and `tls.Config` settings (minimum version TLS 1.3, skipping built-in verification, `ClientCAs`/`RootCAs`). The client handshake is the parameter `peer`. It is given the server name and the client certificate. It says whether the handshake fails before the server's certificates arrive, which raw certificates the callback receives, and whether the handshake fails after the callback accepts them. Resumed sessions, which skip the callback, are not modelled; this handler configures no session cache.
- The TCP dial and closing the connection on every exit path: the dial is the parameter `dial`.
- X.509 parsing and path validation (section 6 of RFC 5280): these are the parameters `parse` and `pathValidate`. The current time and the key-usage defaults of validation are inside `pathValidate`.
- Certificate-provider calls: these are fields of `CertificateProvider`. The trust bundle is represented by its set of root certificates, because this code never changes it. `subscribeToRotatedIdentities` only passes the provider's channel through, so it is left out.
- `authType`: it returns a constant policy tag and has nothing to prove.
- Flag registration, logging, and the hive wiring. The fatal log entry for a missing provider appears only as the `ProcessExit` outcome.
- The nil check on the expiration at lines 135-137: it can never fire. The pointer starts at the local leaf's `NotAfter` (line 96) and is replaced only by non-nil values (line 122). So the captured expiration is a plain `Timestamp` in the model.
- A provider certificate without a parsed leaf, and nil entries in a chain: both make the Go code panic. In the model, `TlsCertificate.leaf` and chain entries are always present.
- `CertPool.AddCert` ignores duplicates by hashing the DER bytes. The model uses a set of certificates. Chains reach the verifier through `parse`, a function of the DER bytes, so equal encodings give equal certificates and the set keeps one entry for them.
- Error messages and `%w` wrapping: errors are structured datatypes that keep the cause and the failing stage, not their text.
- Timestamps are integers: the monotonic-clock reading and location of Go's `time.Time` are ignored.
