/** Verification of the certificate chains a peer presents: each chain is split into
    intermediates and one leaf, the leaf is path-validated and, when an identity is
    expected, checked against it; the accepted leaf's expiry is reported. */
module ChainVerifier {
  import opened Wrappers
  import opened Certs

  datatype VerifyError =
    | NoCertificateChains
    | NoLeafCertificate
    | VerifyFailed(cause: string)
    | SanValidationFailed(cause: string)
    | SanInvalid

  /** What verification returns: an expiration time (nil on Go's side when absent)
      and an error. */
  datatype Verdict = Verdict(expirationTime: Option<Timestamp>, err: Option<VerifyError>)

  /** The certificates of a chain that go to the intermediates pool. */
  function Intermediates(chain: seq<Certificate>): set<Certificate>
  {
    set c | c in chain && c.isCA
  }

  /** The leaf of a chain: the last certificate, in chain order, not flagged as CA. */
  function Leaf(chain: seq<Certificate>): (r: Option<Certificate>)
    ensures r.Some? ==> r.value in chain && !r.value.isCA
  {
    if chain == [] then None
    else if !chain[|chain| - 1].isCA then Some(chain[|chain| - 1])
    else Leaf(chain[..|chain| - 1])
  }

  lemma {:induction false} NoLeafIffAllCA(chain: seq<Certificate>)
    ensures Leaf(chain).None? <==> forall i :: 0 <= i < |chain| ==> chain[i].isCA
  {
    if chain != [] {
      var init := chain[..|chain| - 1];
      NoLeafIffAllCA(init);
      assert forall i :: 0 <= i < |init| ==> init[i] == chain[i];
    }
  }

  /** A non-CA certificate followed only by CA certificates is the leaf. */
  lemma {:induction false} LeafIsLastNonCA(chain: seq<Certificate>, i: nat)
    requires i < |chain| && !chain[i].isCA
    requires forall j :: i < j < |chain| ==> chain[j].isCA
    ensures Leaf(chain) == Some(chain[i])
  {
    if i < |chain| - 1 {
      var init := chain[..|chain| - 1];
      assert forall j :: 0 <= j < |init| ==> init[j] == chain[j];
      LeafIsLastNonCA(init, i);
    }
  }

  /** The verdict on one chain: its accepted leaf, or the first check that failed. */
  function CheckChain(cert: CertificateProvider, pathValidate: PathValidator,
                      id: Option<NumericIdentity>, caBundle: set<Certificate>,
                      chain: seq<Certificate>): (r: Result<Certificate, VerifyError>)
    ensures r.Success? ==> Leaf(chain) == Some(r.value)
    ensures Leaf(chain).Some? && pathValidate(Leaf(chain).value, caBundle, Intermediates(chain)).None? &&
            (id.None? || cert.validateIdentity(id.value, Leaf(chain).value) == SanCheck(true, None)) ==>
      r == Success(Leaf(chain).value)
    ensures r == Failure(NoLeafCertificate) <==> forall i :: 0 <= i < |chain| ==> chain[i].isCA
    ensures id.None? && r.Failure? ==> r.error.NoLeafCertificate? || r.error.VerifyFailed?
    ensures Leaf(chain).Some? ==>
      var leaf := Leaf(chain).value;
      && (pathValidate(leaf, caBundle, Intermediates(chain)).Some? ==>
            r == Failure(VerifyFailed(pathValidate(leaf, caBundle, Intermediates(chain)).value)))
      && (pathValidate(leaf, caBundle, Intermediates(chain)).None? && id.Some? ==>
            var san := cert.validateIdentity(id.value, leaf);
            && (san.err.Some? ==> r == Failure(SanValidationFailed(san.err.value)))
            && (san.err.None? && !san.valid ==> r == Failure(SanInvalid)))
  {
    NoLeafIffAllCA(chain);
    match Leaf(chain)
    case None => Failure(NoLeafCertificate)
    case Some(leaf) =>
      match pathValidate(leaf, caBundle, Intermediates(chain))
      case Some(e) => Failure(VerifyFailed(e))
      case None =>
        if id.None? then Success(leaf)
        else
          var san := cert.validateIdentity(id.value, leaf);
          if san.err.Some? then Failure(SanValidationFailed(san.err.value))
          else if !san.valid then Failure(SanInvalid)
          else Success(leaf)
  }

  /** The state reached after examining `chains` in order: the first failing chain's
      error, or else the expiry of the last chain's leaf (None for no chains). */
  function ExamineChains(cert: CertificateProvider, pathValidate: PathValidator,
                         id: Option<NumericIdentity>, caBundle: set<Certificate>,
                         chains: seq<seq<Certificate>>): Result<Option<Timestamp>, VerifyError>
    decreases |chains|
  {
    if chains == [] then Success(None)
    else match ExamineChains(cert, pathValidate, id, caBundle, chains[..|chains| - 1])
      case Failure(e) => Failure(e)
      case Success(_) =>
        match CheckChain(cert, pathValidate, id, caBundle, chains[|chains| - 1])
        case Failure(e) => Failure(e)
        case Success(leaf) => Success(Some(leaf.notAfter))
  }

  /** The verdict of verifyPeerCertificate. */
  function PeerVerdict(cert: CertificateProvider, pathValidate: PathValidator,
                       id: Option<NumericIdentity>, caBundle: set<Certificate>,
                       certChains: seq<seq<Certificate>>): (r: Verdict)
    ensures r.err.None? <==> r.expirationTime.Some?
  {
    if certChains == [] then Verdict(None, Some(NoCertificateChains))
    else match ExamineChains(cert, pathValidate, id, caBundle, certChains)
      case Failure(e) => Verdict(None, Some(e))
      case Success(exp) =>
        assert exp.Some?;
        Verdict(exp, None)
  }

  /** Once a chain has failed, the chains after it do not change the outcome. */
  lemma {:induction false} FailureIsFinal(cert: CertificateProvider, pathValidate: PathValidator,
                                          id: Option<NumericIdentity>, caBundle: set<Certificate>,
                                          chains: seq<seq<Certificate>>, k: nat)
    requires k <= |chains|
    requires ExamineChains(cert, pathValidate, id, caBundle, chains[..k]).Failure?
    ensures ExamineChains(cert, pathValidate, id, caBundle, chains)
         == ExamineChains(cert, pathValidate, id, caBundle, chains[..k])
    decreases |chains| - k
  {
    if k < |chains| {
      var init := chains[..|chains| - 1];
      assert init[..k] == chains[..k];
      FailureIsFinal(cert, pathValidate, id, caBundle, init, k);
    } else {
      assert chains[..k] == chains;
    }
  }

  /** Examination succeeds exactly when every chain passes, and then reports the
      expiry of the last chain's leaf. */
  lemma {:induction false} ExamineSucceedsIffAllPass(cert: CertificateProvider, pathValidate: PathValidator,
                                                    id: Option<NumericIdentity>, caBundle: set<Certificate>,
                                                    chains: seq<seq<Certificate>>)
    ensures ExamineChains(cert, pathValidate, id, caBundle, chains).Success?
        <==> forall k :: 0 <= k < |chains| ==> CheckChain(cert, pathValidate, id, caBundle, chains[k]).Success?
    ensures chains != [] && ExamineChains(cert, pathValidate, id, caBundle, chains).Success? ==>
      ExamineChains(cert, pathValidate, id, caBundle, chains)
        == Success(Some(CheckChain(cert, pathValidate, id, caBundle, chains[|chains| - 1]).value.notAfter))
  {
    if chains != [] {
      var init := chains[..|chains| - 1];
      ExamineSucceedsIffAllPass(cert, pathValidate, id, caBundle, init);
      assert forall k :: 0 <= k < |init| ==> init[k] == chains[k];
    }
  }

  /** A failed examination reports the error of the first chain that fails. */
  lemma {:induction false} ExamineReportsFirstFailure(cert: CertificateProvider, pathValidate: PathValidator,
                                                     id: Option<NumericIdentity>, caBundle: set<Certificate>,
                                                     chains: seq<seq<Certificate>>, i: nat)
    requires i < |chains|
    requires forall k :: 0 <= k < i ==> CheckChain(cert, pathValidate, id, caBundle, chains[k]).Success?
    requires CheckChain(cert, pathValidate, id, caBundle, chains[i]).Failure?
    ensures ExamineChains(cert, pathValidate, id, caBundle, chains)
         == Failure(CheckChain(cert, pathValidate, id, caBundle, chains[i]).error)
  {
    var prefix := chains[..i + 1];
    assert prefix[..i] == chains[..i];
    ExamineSucceedsIffAllPass(cert, pathValidate, id, caBundle, chains[..i]);
    FailureIsFinal(cert, pathValidate, id, caBundle, chains, i + 1);
  }

  /** Without an expected identity no chain is rejected by the SAN check. */
  lemma {:induction false} NoIdentityNoSanCheck(cert: CertificateProvider, pathValidate: PathValidator,
                                               caBundle: set<Certificate>, chains: seq<seq<Certificate>>)
    ensures var r := ExamineChains(cert, pathValidate, None, caBundle, chains);
      r.Failure? ==> r.error.NoLeafCertificate? || r.error.VerifyFailed?
  {
    if chains != [] {
      NoIdentityNoSanCheck(cert, pathValidate, caBundle, chains[..|chains| - 1]);
    }
  }

  /** An empty chain list is rejected, whatever the trust bundle and identity. */
  lemma EmptyChainListRejected(cert: CertificateProvider, pathValidate: PathValidator,
                               id: Option<NumericIdentity>, caBundle: set<Certificate>)
    ensures PeerVerdict(cert, pathValidate, id, caBundle, []) == Verdict(None, Some(NoCertificateChains))
  {
  }

  /** Verification succeeds exactly when the list is non-empty and every chain passes;
      the expiration reported is then the last chain's leaf expiry. */
  lemma PeerVerdictSuccess(cert: CertificateProvider, pathValidate: PathValidator,
                           id: Option<NumericIdentity>, caBundle: set<Certificate>,
                           certChains: seq<seq<Certificate>>)
    ensures PeerVerdict(cert, pathValidate, id, caBundle, certChains).err.None?
        <==> certChains != [] &&
             forall k :: 0 <= k < |certChains| ==> CheckChain(cert, pathValidate, id, caBundle, certChains[k]).Success?
    ensures PeerVerdict(cert, pathValidate, id, caBundle, certChains).err.None? ==>
      var last := certChains[|certChains| - 1];
      Leaf(last).Some? &&
      PeerVerdict(cert, pathValidate, id, caBundle, certChains).expirationTime == Some(Leaf(last).value.notAfter)
  {
    ExamineSucceedsIffAllPass(cert, pathValidate, id, caBundle, certChains);
  }

  /** With an expected identity, the first chain whose path-valid leaf the SAN check
      answers false for gives the "unable to validate SAN" error and a nil expiration. */
  lemma IdentityMismatchRejected(cert: CertificateProvider, pathValidate: PathValidator,
                                 id: NumericIdentity, caBundle: set<Certificate>,
                                 certChains: seq<seq<Certificate>>, k: nat, leaf: Certificate)
    requires k < |certChains|
    requires forall j :: 0 <= j < k ==> CheckChain(cert, pathValidate, Some(id), caBundle, certChains[j]).Success?
    requires Leaf(certChains[k]) == Some(leaf)
    requires pathValidate(leaf, caBundle, Intermediates(certChains[k])).None?
    requires cert.validateIdentity(id, leaf) == SanCheck(false, None)
    ensures PeerVerdict(cert, pathValidate, Some(id), caBundle, certChains) == Verdict(None, Some(SanInvalid))
  {
    ExamineReportsFirstFailure(cert, pathValidate, Some(id), caBundle, certChains, k);
  }

  /** With an expected identity, an error from the SAN check on the first chain it
      rejects is propagated, distinct from a plain mismatch. */
  lemma SanCheckErrorPropagated(cert: CertificateProvider, pathValidate: PathValidator,
                                id: NumericIdentity, caBundle: set<Certificate>,
                                certChains: seq<seq<Certificate>>, k: nat, leaf: Certificate, cause: string)
    requires k < |certChains|
    requires forall j :: 0 <= j < k ==> CheckChain(cert, pathValidate, Some(id), caBundle, certChains[j]).Success?
    requires Leaf(certChains[k]) == Some(leaf)
    requires pathValidate(leaf, caBundle, Intermediates(certChains[k])).None?
    requires cert.validateIdentity(id, leaf).err == Some(cause)
    ensures PeerVerdict(cert, pathValidate, Some(id), caBundle, certChains)
         == Verdict(None, Some(SanValidationFailed(cause)))
  {
    ExamineReportsFirstFailure(cert, pathValidate, Some(id), caBundle, certChains, k);
  }

  /** Across several chains the last chain's expiry is reported, even when an earlier
      chain's leaf expires sooner: the result is not the minimum over chains. */
  lemma LastChainWins(cert: CertificateProvider, pathValidate: PathValidator,
                      id: Option<NumericIdentity>, caBundle: set<Certificate>,
                      first: seq<Certificate>, second: seq<Certificate>)
    requires CheckChain(cert, pathValidate, id, caBundle, first).Success?
    requires CheckChain(cert, pathValidate, id, caBundle, second).Success?
    ensures PeerVerdict(cert, pathValidate, id, caBundle, [first, second]).expirationTime
         == Some(CheckChain(cert, pathValidate, id, caBundle, second).value.notAfter)
  {
    ExamineSucceedsIffAllPass(cert, pathValidate, id, caBundle, [first, second]);
  }

  /** verifyPeerCertificate: the loops of the handler, proved to compute PeerVerdict. */
  method VerifyPeerCertificate(cert: CertificateProvider, pathValidate: PathValidator,
                               id: Option<NumericIdentity>, caBundle: set<Certificate>,
                               certChains: seq<seq<Certificate>>)
    returns (expirationTime: Option<Timestamp>, err: Option<VerifyError>)
    ensures Verdict(expirationTime, err) == PeerVerdict(cert, pathValidate, id, caBundle, certChains)
  {
    if |certChains| == 0 {
      return None, Some(NoCertificateChains);
    }
    expirationTime := None;
    for i := 0 to |certChains|
      invariant ExamineChains(cert, pathValidate, id, caBundle, certChains[..i]) == Success(expirationTime)
      invariant i > 0 ==> expirationTime.Some?
    {
      var chain := certChains[i];
      var intermediates := new CertPool();
      var leaf: Option<Certificate> := None;
      for j := 0 to |chain|
        invariant intermediates.certs == Intermediates(chain[..j])
        invariant leaf == Leaf(chain[..j])
      {
        assert chain[..j + 1] == chain[..j] + [chain[j]];
        if chain[j].isCA {
          intermediates.AddCert(chain[j]);
        } else {
          leaf := Some(chain[j]);
        }
      }
      assert chain[..|chain|] == chain;
      assert certChains[..i + 1][..i] == certChains[..i];
      if leaf.None? {
        FailureIsFinal(cert, pathValidate, id, caBundle, certChains, i + 1);
        return None, Some(NoLeafCertificate);
      }
      var pathErr := pathValidate(leaf.value, caBundle, intermediates.certs);
      if pathErr.Some? {
        FailureIsFinal(cert, pathValidate, id, caBundle, certChains, i + 1);
        return None, Some(VerifyFailed(pathErr.value));
      }
      if id.Some? {
        var san := cert.validateIdentity(id.value, leaf.value);
        if san.err.Some? {
          FailureIsFinal(cert, pathValidate, id, caBundle, certChains, i + 1);
          return None, Some(SanValidationFailed(san.err.value));
        } else if !san.valid {
          FailureIsFinal(cert, pathValidate, id, caBundle, certChains, i + 1);
          return None, Some(SanInvalid);
        }
      }
      expirationTime := Some(leaf.value.notAfter);
    }
    assert certChains[..|certChains|] == certChains;
    err := None;
  }
}
