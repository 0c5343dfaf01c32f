/**
 * `AWSCreateLBs.Execute` as a step-by-step procedure over its collaborators.
 * The collaborators are one object that records every call made to it, in
 * order, and answers with the responses it was set up with, as the fakes do;
 * `Execute` is proved to make exactly the calls of the specification `Run`
 * and to return its error.
 */
module Commands {
  import opened Wrappers
  import opened CreateLBs

  /** The command's collaborators: scripted answers, and the log of calls received. */
  class Collaborators {
    const answers: Responses
    var calls: seq<Call>

    constructor(answers: Responses)
      ensures this.answers == answers && calls == []
    {
      this.answers := answers;
      calls := [];
    }

    /** The credential validator. */
    method ValidateCredentials() returns (err: Option<string>)
      modifies this
      ensures calls == old(calls) + [Call.ValidateCredentials] && err == answers.credentials
    {
      calls := calls + [Call.ValidateCredentials];
      err := answers.credentials;
    }

    /** The environment validator, given the incoming state. */
    method ValidateEnvironment(state: State) returns (err: Option<string>)
      modifies this
      ensures calls == old(calls) + [Call.ValidateEnvironment(state)] && err == answers.environment
    {
      calls := calls + [Call.ValidateEnvironment(state)];
      err := answers.environment;
    }

    /** The certificate validator, given the subcommand name and the three paths. */
    method ValidateCertificate(command: string, certificatePath: string, keyPath: string, chainPath: string)
      returns (err: Option<string>)
      modifies this
      ensures calls == old(calls) + [Call.ValidateCertificate(command, certificatePath, keyPath, chainPath)]
      ensures err == answers.certificateValidation
    {
      calls := calls + [Call.ValidateCertificate(command, certificatePath, keyPath, chainPath)];
      err := answers.certificateValidation;
    }

    /** The GUID generator. */
    method GenerateGuid() returns (guid: Result<string, string>)
      modifies this
      ensures calls == old(calls) + [Call.GenerateGuid] && guid == answers.guid
    {
      calls := calls + [Call.GenerateGuid];
      guid := answers.guid;
    }

    /** The certificate manager's create. */
    method CreateCertificate(certificate: string, privateKey: string, chain: string, certificateName: string)
      returns (err: Option<string>)
      modifies this
      ensures calls == old(calls) + [Call.CreateCertificate(certificate, privateKey, chain, certificateName)]
      ensures err == answers.certificateCreate
    {
      calls := calls + [Call.CreateCertificate(certificate, privateKey, chain, certificateName)];
      err := answers.certificateCreate;
    }

    /** The certificate manager's describe: the certificate's ARN. */
    method DescribeCertificate(certificateName: string) returns (arn: Result<string, string>)
      modifies this
      ensures calls == old(calls) + [Call.DescribeCertificate(certificateName)] && arn == answers.certificateDescribe
    {
      calls := calls + [Call.DescribeCertificate(certificateName)];
      arn := answers.certificateDescribe;
    }

    /** The availability-zone retriever, given the region. */
    method RetrieveAZs(region: string) returns (azs: Result<seq<string>, string>)
      modifies this
      ensures calls == old(calls) + [Call.RetrieveAZs(region)] && azs == answers.availabilityZones
    {
      calls := calls + [Call.RetrieveAZs(region)];
      azs := answers.availabilityZones;
    }

    /** The infrastructure manager's stack update. */
    method UpdateStack(keyPairName: string, azs: seq<string>, stackName: string, boshAZ: string,
                       lbType: string, lbCertificateARN: string, envID: string)
      returns (err: Option<string>)
      modifies this
      ensures calls == old(calls) + [Call.UpdateStack(keyPairName, azs, stackName, boshAZ, lbType, lbCertificateARN, envID)]
      ensures err == answers.stackUpdate
    {
      calls := calls + [Call.UpdateStack(keyPairName, azs, stackName, boshAZ, lbType, lbCertificateARN, envID)];
      err := answers.stackUpdate;
    }

    /** Reading a file: its contents, or the read error when there is no such file. */
    method ReadFile(path: string) returns (contents: Result<string, string>)
      modifies this
      ensures calls == old(calls) + [Call.ReadFile(path)]
      ensures contents == if path in answers.files then Success(answers.files[path]) else Failure(answers.readError)
    {
      calls := calls + [Call.ReadFile(path)];
      if path in answers.files {
        contents := Success(answers.files[path]);
      } else {
        contents := Failure(answers.readError);
      }
    }

    /** The terraform manager's apply. */
    method Apply(state: State) returns (response: ApplyResponse)
      modifies this
      ensures calls == old(calls) + [Call.Apply(state)] && response == answers.apply
    {
      calls := calls + [Call.Apply(state)];
      response := answers.apply;
    }

    /** Asking a terraform-manager error for the state terraform reached. */
    method FetchPartialState(failure: ApplyResponse) returns (partial: Result<State, string>)
      requires failure.ApplyFailedWithState?
      modifies this
      ensures calls == old(calls) + [Call.FetchPartialState] && partial == failure.partialState
    {
      calls := calls + [Call.FetchPartialState];
      partial := failure.partialState;
    }

    /** The cloud-config manager's update. */
    method UpdateCloudConfig(state: State) returns (err: Option<string>)
      modifies this
      ensures calls == old(calls) + [Call.UpdateCloudConfig(state)] && err == answers.cloudConfig
    {
      calls := calls + [Call.UpdateCloudConfig(state)];
      err := answers.cloudConfig;
    }

    /** The state store's set. */
    method SaveState(state: State) returns (err: Option<string>)
      modifies this
      ensures calls == old(calls) + [Call.SaveState(state)] && err == answers.stateSave
    {
      calls := calls + [Call.SaveState(state)];
      err := answers.stateSave;
    }

    /** The logger's step. */
    method LogStep(message: string)
      modifies this
      ensures calls == old(calls) + [Call.LogStep(message)]
    {
      calls := calls + [Call.LogStep(message)];
    }

    /** The logger's println. */
    method LogPrintln(message: string)
      modifies this
      ensures calls == old(calls) + [Call.LogPrintln(message)]
    {
      calls := calls + [Call.LogPrintln(message)];
    }
  }

  /**
   * The `create-lbs` command on AWS. Each step method is named after the
   * specification function in `CreateLBs` whose error it returns and whose
   * calls it makes.
   */
  class AWSCreateLBs {
    const collaborators: Collaborators

    constructor(collaborators: Collaborators)
      ensures this.collaborators == collaborators
    {
      this.collaborators := collaborators;
    }

    /** Creates the load balancers `config` asks for on the environment `state` describes. */
    method Execute(config: Config, state: State) returns (err: Option<string>)
      modifies collaborators
      ensures var r := Run(config, state, collaborators.answers);
        err == r.err && collaborators.calls == old(collaborators.calls) + r.calls.Seq()
    {
      ThenSeq();
      ghost var o := collaborators.answers;
      err := collaborators.ValidateCredentials();
      if err.Some? {
        return;
      }
      if config.lbType == "" {
        return Some(TypeRequiredMessage);
      }
      if !IsLBType(config.lbType) {
        return Some(InvalidTypeMessage(config.lbType));
      }
      err := collaborators.ValidateEnvironment(state);
      if err.Some? {
        return;
      }
      if config.skipIfExists && IsLBType(state.stack.lbType) {
        collaborators.LogPrintln(SkipMessage(state.stack.lbType));
        return None;
      }
      if IsLBType(state.stack.lbType) {
        return Some(ConflictMessage(state.stack.lbType));
      }
      ghost var backend := Backend(config, state, o);
      if state.tfState != "" {
        err := Terraform(config, state);
      } else {
        err := Cloudformation(config, state);
      }
      Appended(old(collaborators.calls) + [Call.ValidateCredentials], Call.ValidateEnvironment(state), backend.calls.Seq());
      Appended(old(collaborators.calls), Call.ValidateCredentials, [Call.ValidateEnvironment(state)] + backend.calls.Seq());
    }

    /** Validates the certificate files, then names and uploads the certificate. */
    method Cloudformation(config: Config, state: State) returns (err: Option<string>)
      modifies collaborators
      ensures var r := CreateLBs.Cloudformation(config, state, collaborators.answers);
        err == r.err && collaborators.calls == old(collaborators.calls) + r.calls.Seq()
    {
      ThenSeq();
      ghost var o := collaborators.answers;
      ghost var validate := Call.ValidateCertificate(CertificateValidationCommand, config.certPath, config.keyPath,
                                                     config.chainPath);
      err := collaborators.ValidateCertificate(CertificateValidationCommand, config.certPath, config.keyPath,
                                               config.chainPath);
      if err.Some? {
        return;
      }
      collaborators.LogStep(UploadingCertificateMessage);
      var guid := collaborators.GenerateGuid();
      ghost var generated := Call.GenerateGuid;
      ghost var logged := Call.LogStep(UploadingCertificateMessage);
      ghost var rest := if guid.Failure? then Fail(guid.error)
                        else CreateLBs.UploadCertificate(config, state, o, CertificateName(config.lbType, guid.value, state.envID));
      if guid.Failure? {
        err := Some(guid.error);
      } else {
        err := UploadCertificate(config, state, CertificateName(config.lbType, guid.value, state.envID));
      }
      Appended(old(collaborators.calls) + [validate] + [logged], generated, rest.calls.Seq());
      Appended(old(collaborators.calls) + [validate], logged, [generated] + rest.calls.Seq());
      Appended(old(collaborators.calls), validate, [logged] + ([generated] + rest.calls.Seq()));
    }

    /** Creates the certificate from the given paths, describes it, and updates the stack with it. */
    method UploadCertificate(config: Config, state: State, name: string) returns (err: Option<string>)
      modifies collaborators
      ensures var r := CreateLBs.UploadCertificate(config, state, collaborators.answers, name);
        err == r.err && collaborators.calls == old(collaborators.calls) + r.calls.Seq()
    {
      ThenSeq();
      ghost var o := collaborators.answers;
      ghost var create := Call.CreateCertificate(config.certPath, config.keyPath, config.chainPath, name);
      err := collaborators.CreateCertificate(config.certPath, config.keyPath, config.chainPath, name);
      if err.Some? {
        return;
      }
      var arn := collaborators.DescribeCertificate(name);
      if arn.Failure? {
        return Some(arn.error);
      }
      ghost var update := CreateLBs.UpdateStackWith(config, state, o, name, arn.value);
      err := UpdateStackWith(config, state, name, arn.value);
      Appended(old(collaborators.calls) + [create], Call.DescribeCertificate(name), update.calls.Seq());
      Appended(old(collaborators.calls), create, [Call.DescribeCertificate(name)] + update.calls.Seq());
    }

    /** Updates the stack in the state's availability zones, then records the LB and completes. */
    method UpdateStackWith(config: Config, state: State, name: string, arn: string) returns (err: Option<string>)
      modifies collaborators
      ensures var r := CreateLBs.UpdateStackWith(config, state, collaborators.answers, name, arn);
        err == r.err && collaborators.calls == old(collaborators.calls) + r.calls.Seq()
    {
      ThenSeq();
      ghost var o := collaborators.answers;
      var azs := collaborators.RetrieveAZs(state.region);
      if azs.Failure? {
        return Some(azs.error);
      }
      ghost var update := Call.UpdateStack(state.keyPairName, azs.value, state.stack.name, state.stack.boshAZ,
                                           config.lbType, arn, state.envID);
      err := collaborators.UpdateStack(state.keyPairName, azs.value, state.stack.name, state.stack.boshAZ,
                                       config.lbType, arn, state.envID);
      var next := state.(stack := state.stack.(lbType := config.lbType, certificateName := name));
      ghost var rest := if err.Some? then Fail(err.value) else CreateLBs.Finish(next, o);
      if err.None? {
        err := Finish(next);
      }
      Appended(old(collaborators.calls) + [Call.RetrieveAZs(state.region)], update, rest.calls.Seq());
      Appended(old(collaborators.calls), Call.RetrieveAZs(state.region), [update] + rest.calls.Seq());
    }

    /** Reads the certificate, key and chain files and applies terraform with their contents. */
    method Terraform(config: Config, state: State) returns (err: Option<string>)
      modifies collaborators
      ensures var r := CreateLBs.Terraform(config, state, collaborators.answers);
        err == r.err && collaborators.calls == old(collaborators.calls) + r.calls.Seq()
    {
      ThenSeq();
      ghost var o := collaborators.answers;
      var cert := collaborators.ReadFile(config.certPath);
      if cert.Failure? {
        return Some(cert.error);
      }
      var key := collaborators.ReadFile(config.keyPath);
      if key.Failure? {
        return Some(key.error);
      }
      err := TerraformAfterKey(config, state, cert.value, key.value);
      ghost var rest := CreateLBs.Terraform(config, state, o).calls.tail.tail;
      assert CreateLBs.Terraform(config, state, o).calls == Cons(Call.ReadFile(config.certPath), Cons(Call.ReadFile(config.keyPath), rest));
      Appended(old(collaborators.calls) + [Call.ReadFile(config.certPath)], Call.ReadFile(config.keyPath), rest.Seq());
      Appended(old(collaborators.calls), Call.ReadFile(config.certPath), [Call.ReadFile(config.keyPath)] + rest.Seq());
    }

    /**
     * The rest of `Terraform` once the cert and key are read: reads the chain
     * file when a chain path is given, then applies terraform with the contents.
     */
    method TerraformAfterKey(config: Config, state: State, cert: string, key: string) returns (err: Option<string>)
      requires config.certPath in collaborators.answers.files && config.keyPath in collaborators.answers.files
      requires cert == collaborators.answers.files[config.certPath] && key == collaborators.answers.files[config.keyPath]
      modifies collaborators
      ensures var r := CreateLBs.Terraform(config, state, collaborators.answers);
        && r.calls.Cons? && r.calls.tail.Cons?
        && err == r.err && collaborators.calls == old(collaborators.calls) + r.calls.tail.tail.Seq()
    {
      ThenSeq();
      if config.chainPath == "" {
        err := TerraformApply(TerraformInput(config, state, cert, key, ""));
        return;
      }
      var chain := collaborators.ReadFile(config.chainPath);
      if chain.Failure? {
        return Some(chain.error);
      }
      err := TerraformApply(TerraformInput(config, state, cert, key, chain.value));
    }

    /** Applies terraform to `state`; on a terraform-manager error saves the partial state first. */
    method TerraformApply(state: State) returns (err: Option<string>)
      modifies collaborators
      ensures var r := CreateLBs.TerraformApply(state, collaborators.answers);
        err == r.err && collaborators.calls == old(collaborators.calls) + r.calls.Seq()
    {
      ThenSeq();
      var response := collaborators.Apply(state);
      match response
      case Applied(next) =>
        err := Finish(next);
      case ApplyFailed(message) =>
        err := Some(message);
      case ApplyFailedWithState(message, _) =>
        var partial := collaborators.FetchPartialState(response);
        if partial.Failure? {
          return Some(AggregateErrors([message, partial.error]));
        }
        var saveError := collaborators.SaveState(partial.value);
        if saveError.Some? {
          return Some(AggregateErrors([message, saveError.value]));
        }
        err := Some(message);
    }

    /** Updates the cloud config when there is a director, then saves `state`. */
    method Finish(state: State) returns (err: Option<string>)
      modifies collaborators
      ensures var r := CreateLBs.Finish(state, collaborators.answers);
        err == r.err && collaborators.calls == old(collaborators.calls) + r.calls.Seq()
    {
      ThenSeq();
      if !state.noDirector {
        err := collaborators.UpdateCloudConfig(state);
        if err.Some? {
          return;
        }
      }
      err := collaborators.SaveState(state);
    }
  }

  /** Appending to the call log: the calls made so far, then the calls still to come. */
  lemma Appended(log: seq<Call>, call: Call, rest: seq<Call>)
    ensures log + [call] + rest == log + ([call] + rest)
  {
  }
}
