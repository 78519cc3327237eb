/** Certificates as the mTLS handler sees them, the certificate pool it fills, and the
    certificate provider it consults. X.509 parsing and path validation are not modelled:
    they appear only as functions handed in by the caller. */
module Certs {
  import opened Wrappers

  /** A numeric security identity (an unsigned 32-bit integer). */
  newtype NumericIdentity = x: int | 0 <= x < 0x1_0000_0000

  /** A DER-encoded certificate as it arrives on the wire. */
  type RawCert = seq<bv8>

  /** A point in time, in seconds; only its order matters here. */
  type Timestamp = int

  /** The parsed certificate fields the handler inspects: whether the basic-constraints
      extension marks it as a CA, and the end of its validity period. */
  datatype Certificate = Certificate(raw: RawCert, isCA: bool, notAfter: Timestamp)

  /** A certificate chain to present in a handshake, together with its parsed leaf. */
  datatype TlsCertificate = TlsCertificate(chain: seq<RawCert>, leaf: Certificate)

  /** A pool of certificates that path validation may use as intermediates. Adding a
      certificate that is already present changes nothing. */
  class CertPool {
    var certs: set<Certificate>

    constructor ()
      ensures certs == {}
    {
      certs := {};
    }

    method AddCert(cert: Certificate)
      modifies this
      ensures certs == old(certs) + {cert}
    {
      certs := certs + {cert};
    }
  }

  /** What the provider's SAN check answers: a verdict, or an error that overrides it. */
  datatype SanCheck = SanCheck(valid: bool, err: Option<string>)

  /** The certificate provider collaborator (an interface implemented elsewhere). */
  datatype CertificateProvider = CertificateProvider(
    getCertificateForIdentity: NumericIdentity -> Result<TlsCertificate, string>,
    /** the trust bundle, given by the root certificates it contains */
    getTrustBundle: () -> Result<set<Certificate>, string>,
    numericIdentityToSNI: NumericIdentity -> string,
    sniToNumericIdentity: string -> Result<NumericIdentity, string>,
    validateIdentity: (NumericIdentity, Certificate) -> SanCheck)

  /** X.509 path validation of a leaf against roots and intermediates (in that order);
      `Some(e)` when validation fails with error `e`. The clock and key-usage defaults
      of the validation are part of this function. */
  type PathValidator = (Certificate, set<Certificate>, set<Certificate>) -> Option<string>

  /** DER parsing of one certificate. */
  type Parser = RawCert -> Result<Certificate, string>
}
