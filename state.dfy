/**
 * The desired cluster state (state/state.go): the plan generated from the cluster configuration,
 * and the certificate bundle converted into its serialisable form. Generating the plan and the
 * certificates are calls into code outside this model; their answers are parameters, and the calls
 * made are recorded in order.
 */
module State {
  import opened Wrappers

  const PlanFailed := "Failed to generate plan for desired state: "
  const CertsFailed := "Failed to generate certificate bundle: "
  /** The runtime error of writing into a nil map, which the source does not check for. */
  const NilMapAssignment := "assignment to entry in nil map"

  /** A generated certificate (pki.CertificatePKI): the certificate and key as DER material. */
  datatype GeneratedCert = GeneratedCert(certificate: string, key: string, config: string, name: string)

  /** The serialisable certificate (v3.CertificatePKI): certificate and key PEM-encoded. */
  datatype StateCert = StateCert(name: string, config: string, certificate: string, key: string)

  /** The plan (v3.RKEPlan): the node plans, opaque here, and the bundle map, None when nil. */
  datatype RKEPlan = RKEPlan(nodes: seq<string>, certificatesBundle: Option<map<string, StateCert>>)

  /** The calls GetDesiredState makes outside this model. */
  datatype StateCall = GeneratePlan | GenerateRKECerts

  /** PEM encoders for a certificate and a private key (cert.EncodeCertPEM, cert.EncodePrivateKeyPEM). */
  datatype Encoders = Encoders(certPEM: string -> string, keyPEM: string -> string)

  /** The conversion of one generated certificate: name and config kept, certificate and key PEM-encoded. */
  function ToStateCert(c: GeneratedCert, enc: Encoders): (s: StateCert)
    ensures s.name == c.name && s.config == c.config
    ensures s.certificate == enc.certPEM(c.certificate) && s.key == enc.keyPEM(c.key)
  {
    StateCert(c.name, c.config, enc.certPEM(c.certificate), enc.keyPEM(c.key))
  }

  /** The map `into` after every generated certificate has been written into it under its name. */
  ghost predicate ConvertedInto(into: map<string, StateCert>, before: map<string, StateCert>,
                                certBundle: map<string, GeneratedCert>, enc: Encoders)
  {
    && into.Keys == before.Keys + certBundle.Keys
    && (forall name <- certBundle :: into[name] == ToStateCert(certBundle[name], enc))
    && (forall name <- before | name !in certBundle :: into[name] == before[name])
  }

  /**
   * GetDesiredState over the answers of plan generation (the plan and its error) and of certificate
   * generation. A plan error is wrapped and returned with the plan, before any certificate is
   * generated; a certificate error is wrapped and returned with the plan. Otherwise every generated
   * certificate is converted into the plan's bundle map, `written` being that map afterwards (the
   * map the plan generator handed out), and the plan is returned with a new, empty bundle. Writing
   * the first certificate into a nil bundle panics in the source; here it is an error returned with
   * the plan as generated.
   */
  method GetDesiredState(planned: (RKEPlan, Outcome), certs: Result<map<string, GeneratedCert>>, enc: Encoders)
    returns (desiredState: RKEPlan, err: Outcome, calls: seq<StateCall>, written: map<string, StateCert>)
    ensures planned.1.Fail? ==>
      desiredState == planned.0 && err == Fail(PlanFailed + planned.1.error) && calls == [GeneratePlan]
    ensures planned.1.Pass? ==> calls == [GeneratePlan, GenerateRKECerts]
    ensures planned.1.Pass? && certs.Err? ==> desiredState == planned.0 && err == Fail(CertsFailed + certs.error)
    ensures planned.1.Pass? && certs.Ok? && certs.value != map[] && planned.0.certificatesBundle.None? ==>
      desiredState == planned.0 && err == Fail(NilMapAssignment) && written == map[]
    ensures planned.1.Pass? && certs.Ok? && (certs.value == map[] || planned.0.certificatesBundle.Some?) ==>
      && err == Pass
      && desiredState == planned.0.(certificatesBundle := Some(map[]))
      && ConvertedInto(written, OrEmpty(planned.0.certificatesBundle), certs.value, enc)
  {
    desiredState := planned.0;
    written := OrEmpty(desiredState.certificatesBundle);
    calls := [GeneratePlan];
    if planned.1.Fail? {
      return desiredState, Fail(PlanFailed + planned.1.error), calls, written;
    }
    calls := calls + [GenerateRKECerts];
    if certs.Err? {
      return desiredState, Fail(CertsFailed + certs.error), calls, written;
    }
    var certBundle := certs.value;
    if certBundle != map[] && desiredState.certificatesBundle.None? {
      return desiredState, Fail(NilMapAssignment), calls, written;
    }
    var desiredStateCertificateBundle: map<string, StateCert> := map[];
    var remaining := certBundle.Keys;
    ghost var before := written;
    while remaining != {}
      invariant remaining <= certBundle.Keys
      invariant remaining != {} ==> desiredState.certificatesBundle.Some?
      invariant desiredState == planned.0.(certificatesBundle := desiredState.certificatesBundle)
      invariant desiredState.certificatesBundle.Some? ==> written == desiredState.certificatesBundle.value
      invariant ConvertedInto(written, before, certBundle - remaining, enc)
      decreases remaining
    {
      var name :| name in remaining;
      var certPKI := certBundle[name];
      written := desiredState.certificatesBundle.value[name := ToStateCert(certPKI, enc)];
      desiredState := desiredState.(certificatesBundle := Some(written));
      remaining := remaining - {name};
    }
    desiredState := desiredState.(certificatesBundle := Some(desiredStateCertificateBundle));
    err := Pass;
  }

  /** A nil map reads as empty. */
  function OrEmpty(m: Option<map<string, StateCert>>): map<string, StateCert>
  {
    if m.Some? then m.value else map[]
  }

  /**
   * The conversion keeps one entry per generated certificate, under the same name, and recovers the
   * name and config of each: the bundle a successful run leaves in the plan generator's map loses
   * nothing but the DER encoding.
   */
  lemma ConvertedKeepsNames(into: map<string, StateCert>, before: map<string, StateCert>,
                            certBundle: map<string, GeneratedCert>, enc: Encoders)
    requires ConvertedInto(into, before, certBundle, enc)
    ensures forall name <- certBundle :: name in into && into[name].name == certBundle[name].name
    ensures forall name <- certBundle :: into[name].config == certBundle[name].config
    ensures before == map[] ==> into.Keys == certBundle.Keys
  {
  }
}
