/**
 * The decision procedure of `AWSCreateLBs.Execute`, as a pure function of the
 * command's configuration, the incoming state, and what each collaborator
 * answers. The result is the error the command returns together with the
 * ordered list of collaborator calls it makes; the states handed to the
 * state store are among those calls.
 */
module CreateLBs {
  import opened Wrappers
  import Strings

  // ---------------------------------------------------------------------------
  // Data model

  /** `storage.Stack`: the cloudformation stack and the LB attached to it. */
  datatype Stack = Stack(name: string, boshAZ: string, lbType: string, certificateName: string)

  /** `storage.LB`: the terraform LB, holding file contents rather than paths. */
  datatype LB = LB(lbType: string, cert: string, key: string, chain: string, domain: string)

  /** The fields of `storage.State` that the command reads or writes. */
  datatype State = State(
    envID: string,
    stack: Stack,
    lb: LB,
    tfState: string,
    region: string,
    keyPairName: string,
    noDirector: bool)

  /** `AWSCreateLBsConfig`: the command-line flags. */
  datatype Config = Config(
    lbType: string,
    certPath: string,
    keyPath: string,
    chainPath: string,
    domain: string,
    skipIfExists: bool)

  /** What the terraform manager's `Apply` answers. */
  datatype ApplyResponse =
    | Applied(state: State)
      /** A plain error. */
    | ApplyFailed(message: string)
      /**
       * A terraform-manager error: it carries the apply message and can be
       * asked for the partial state, which it may fail to give.
       */
    | ApplyFailedWithState(message: string, partialState: Result<State, string>)

  /** What each collaborator answers when it is called; `None` is a nil error. */
  datatype Responses = Responses(
    credentials: Option<string>,
    environment: Option<string>,
    certificateValidation: Option<string>,
    guid: Result<string, string>,
    certificateCreate: Option<string>,
    certificateDescribe: Result<string, string>,
    availabilityZones: Result<seq<string>, string>,
    stackUpdate: Option<string>,
    files: map<string, string>,
    readError: string,
    apply: ApplyResponse,
    cloudConfig: Option<string>,
    stateSave: Option<string>)

  /** One call from the command to a collaborator, with what it receives. */
  datatype Call =
    | ValidateCredentials
    | ValidateEnvironment(state: State)
    | ValidateCertificate(command: string, certificatePath: string, keyPath: string, chainPath: string)
    | GenerateGuid
    | CreateCertificate(certificate: string, privateKey: string, chain: string, certificateName: string)
    | DescribeCertificate(certificateName: string)
    | RetrieveAZs(region: string)
    | UpdateStack(keyPairName: string, azs: seq<string>, stackName: string, boshAZ: string,
                  lbType: string, lbCertificateARN: string, envID: string)
    | ReadFile(path: string)
    | Apply(state: State)
    | FetchPartialState
    | UpdateCloudConfig(state: State)
    | SaveState(state: State)
    | LogStep(message: string)
    | LogPrintln(message: string)
  {
    /** The collaborator that receives this call. */
    function Target(): Collaborator
    {
      match this
      case ValidateCredentials => CredentialValidator
      case ValidateEnvironment(_) => EnvironmentValidator
      case ValidateCertificate(_, _, _, _) => CertificateValidator
      case GenerateGuid => GuidGenerator
      case CreateCertificate(_, _, _, _) => CertificateCreator
      case DescribeCertificate(_) => CertificateDescriber
      case RetrieveAZs(_) => AZRetriever
      case UpdateStack(_, _, _, _, _, _, _) => InfrastructureManager
      case ReadFile(_) => FileSystem
      case Apply(_) => TerraformManager
      case FetchPartialState => TerraformManagerError
      case UpdateCloudConfig(_) => CloudConfigManager
      case SaveState(_) => StateStore
      case LogStep(_) => Logger
      case LogPrintln(_) => Logger
    }
  }

  datatype Collaborator =
    | CredentialValidator | EnvironmentValidator | CertificateValidator | GuidGenerator
    | CertificateCreator | CertificateDescriber | AZRetriever | InfrastructureManager
    | FileSystem | TerraformManager | TerraformManagerError | CloudConfigManager
    | StateStore | Logger

  /** The calls made, first call first. */
  datatype Trace = Nil | Cons(head: Call, tail: Trace)
  {
    /** The calls as a sequence, in the order they were made. */
    function Seq(): seq<Call>
    {
      match this
      case Nil => []
      case Cons(c, rest) => [c] + rest.Seq()
    }

    /** The last call made, if any. */
    function Last(): Option<Call>
    {
      match this
      case Nil => None
      case Cons(c, Nil) => Some(c)
      case Cons(_, rest) => rest.Last()
    }
  }

  /** The outcome of one `Execute`: the returned error and the calls made, in order. */
  datatype Execution = Execution(err: Option<string>, calls: Trace)

  /** How many of `calls` went to `who`: a fake's `CallCount`. */
  function Count(calls: Trace, who: Collaborator): nat
  {
    match calls
    case Nil => 0
    case Cons(c, rest) => (if c.Target() == who then 1 else 0) + Count(rest, who)
  }

  /** The states handed to the state store, in order: the fake's `SetCall.Receives`. */
  function Saved(calls: Trace): seq<State>
  {
    match calls
    case Nil => []
    case Cons(c, rest) => (if c.SaveState? then [c.state] else []) + Saved(rest)
  }

  // ---------------------------------------------------------------------------
  // Messages and names

  const TypeRequiredMessage: string := "--type is a required flag"
  const CertificateValidationCommand: string := "create-lbs"
  const UploadingCertificateMessage: string := "uploading certificate"
  const ErrorsOccurredHeader: string := "the following errors occurred:\n"
  const ErrorsSeparator: string := ",\n"
  const Concourse: string := "concourse"
  const CF: string := "cf"
  const InvalidTypeSuffix: string := "\" is not a valid lb type, valid lb types are: concourse and cf"
  const ConflictPrefix: string := "bbl already has a "
  const ConflictSuffix: string :=
    " load balancer attached, please remove the previous load balancer before attaching a new one"
  const SkipPrefix: string := "lb type \""
  const SkipSuffix: string := "\" exists, skipping..."
  const CertificateInfix: string := "-elb-cert-"

  /** The LB types `create-lbs` accepts; also what counts as an existing LB. */
  predicate IsLBType(t: string)
  {
    t == Concourse || t == CF
  }

  function InvalidTypeMessage(t: string): string
  {
    "\"" + t + InvalidTypeSuffix
  }

  function ConflictMessage(existing: string): string
  {
    ConflictPrefix + existing + ConflictSuffix
  }

  function SkipMessage(existing: string): string
  {
    SkipPrefix + existing + SkipSuffix
  }

  /** `{type}-elb-cert-{guid}`, followed by `-{envID}` when there is one. */
  function CertificateName(lbType: string, guid: string, envID: string): string
  {
    lbType + CertificateInfix + guid + (if envID == "" then "" else "-" + envID)
  }

  /** Several errors reported as one: a header, then the messages joined by `",\n"`. */
  function AggregateErrors(messages: seq<string>): string
  {
    ErrorsOccurredHeader + Strings.Join(messages, ErrorsSeparator)
  }

  // ---------------------------------------------------------------------------
  // The procedure

  /** `r` after first making `call`: one more call to its target, and one more saved state if it saves. */
  function Then(call: Call, r: Execution): (t: Execution)
    ensures forall who {:trigger Count(t.calls, who)} :: Count(t.calls, who) == (if call.Target() == who then 1 else 0) + Count(r.calls, who)
    ensures Saved(t.calls) == (if call.SaveState? then [call.state] else []) + Saved(r.calls)
  {
    Execution(r.err, Cons(call, r.calls))
  }

  /** Making `call` first puts it at the head of the calls made. */
  lemma ThenSeq()
    ensures forall call, r {:trigger Then(call, r)} :: Then(call, r).calls.Seq() == [call] + r.calls.Seq()
  {
  }

  function Fail(message: string): Execution
  {
    Execution(Some(message), Nil)
  }

  const Done := Execution(None, Nil)

  /** `AWSCreateLBs.Execute(config, state)`. */
  function Run(c: Config, s: State, o: Responses): Execution
  {
    Then(ValidateCredentials,
      if o.credentials.Some? then Fail(o.credentials.value)
      else if c.lbType == "" then Fail(TypeRequiredMessage)
      else if !IsLBType(c.lbType) then Fail(InvalidTypeMessage(c.lbType))
      else Then(ValidateEnvironment(s),
        if o.environment.Some? then Fail(o.environment.value)
        else if c.skipIfExists && IsLBType(s.stack.lbType) then
          Then(LogPrintln(SkipMessage(s.stack.lbType)), Done)
        else if IsLBType(s.stack.lbType) then Fail(ConflictMessage(s.stack.lbType))
        else Backend(c, s, o)))
  }

  /** The backend is chosen by the incoming state: terraform once it has a terraform state. */
  function Backend(c: Config, s: State, o: Responses): Execution
  {
    if s.tfState != "" then Terraform(c, s, o) else Cloudformation(c, s, o)
  }

  /** The cloudformation path: validate the certificate files, then name and upload the certificate. */
  function Cloudformation(c: Config, s: State, o: Responses): Execution
  {
    Then(ValidateCertificate(CertificateValidationCommand, c.certPath, c.keyPath, c.chainPath),
      if o.certificateValidation.Some? then Fail(o.certificateValidation.value)
      else Then(LogStep(UploadingCertificateMessage),
        Then(GenerateGuid,
          if o.guid.Failure? then Fail(o.guid.error)
          else UploadCertificate(c, s, o, CertificateName(c.lbType, o.guid.value, s.envID)))))
  }

  /** Creates the certificate from the given paths, then describes it under the same name. */
  function UploadCertificate(c: Config, s: State, o: Responses, name: string): Execution
  {
    Then(CreateCertificate(c.certPath, c.keyPath, c.chainPath, name),
      if o.certificateCreate.Some? then Fail(o.certificateCreate.value)
      else Then(DescribeCertificate(name),
        if o.certificateDescribe.Failure? then Fail(o.certificateDescribe.error)
        else UpdateStackWith(c, s, o, name, o.certificateDescribe.value)))
  }

  /** Updates the stack in the state's availability zones and records the LB in the state. */
  function UpdateStackWith(c: Config, s: State, o: Responses, name: string, arn: string): Execution
  {
    Then(RetrieveAZs(s.region),
      if o.availabilityZones.Failure? then Fail(o.availabilityZones.error)
      else Then(UpdateStack(s.keyPairName, o.availabilityZones.value, s.stack.name, s.stack.boshAZ,
                            c.lbType, arn, s.envID),
        if o.stackUpdate.Some? then Fail(o.stackUpdate.value)
        else Finish(s.(stack := s.stack.(lbType := c.lbType, certificateName := name)), o)))
  }

  /**
   * The state handed to terraform: the LB set from the file contents. A
   * supplied domain is recorded only when none is recorded yet; a recorded
   * domain is kept.
   */
  function TerraformInput(c: Config, s: State, cert: string, key: string, chain: string): State
  {
    s.(lb := LB(c.lbType, cert, key, chain, if c.domain != "" && s.lb.domain == "" then c.domain else s.lb.domain))
  }

  /** The terraform path: read the files, apply, and save what terraform gives back. */
  function Terraform(c: Config, s: State, o: Responses): Execution
  {
    Then(ReadFile(c.certPath),
      if c.certPath !in o.files then Fail(o.readError)
      else Then(ReadFile(c.keyPath),
        if c.keyPath !in o.files then Fail(o.readError)
        else if c.chainPath == "" then
          TerraformApply(TerraformInput(c, s, o.files[c.certPath], o.files[c.keyPath], ""), o)
        else Then(ReadFile(c.chainPath),
          if c.chainPath !in o.files then Fail(o.readError)
          else TerraformApply(TerraformInput(c, s, o.files[c.certPath], o.files[c.keyPath], o.files[c.chainPath]), o))))
  }

  /** Hands `s` to terraform and deals with each kind of failure. */
  function TerraformApply(s: State, o: Responses): Execution
  {
    Then(Apply(s),
      match o.apply
      case Applied(next) => Finish(next, o)
      case ApplyFailed(message) => Fail(message)
      case ApplyFailedWithState(message, partial) => RecoverPartialState(message, partial, o))
  }

  /**
   * A terraform-manager error: save the partial state before reporting, and
   * report every error met on the way.
   */
  function RecoverPartialState(message: string, partial: Result<State, string>, o: Responses): Execution
  {
    Then(FetchPartialState,
      match partial
      case Failure(fetchError) => Fail(AggregateErrors([message, fetchError]))
      case Success(p) => Then(SaveState(p),
        if o.stateSave.Some? then Fail(AggregateErrors([message, o.stateSave.value]))
        else Fail(message)))
  }

  /** Both paths end here: update the cloud config when there is a director, then save. */
  function Finish(s: State, o: Responses): Execution
  {
    if !s.noDirector then
      Then(UpdateCloudConfig(s),
        if o.cloudConfig.Some? then Fail(o.cloudConfig.value) else Save(s, o))
    else Save(s, o)
  }

  function Save(s: State, o: Responses): Execution
  {
    Then(SaveState(s), if o.stateSave.Some? then Fail(o.stateSave.value) else Done)
  }
}
