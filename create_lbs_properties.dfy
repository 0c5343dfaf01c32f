/**
 * What `AWSCreateLBs.Execute` promises, stated over the specification `Run`:
 * the order of the fast-fail checks and their messages, the skip and
 * conflict rules, the choice of backend, certificate naming, domain
 * handling, the partial-state protocol of the terraform path, and that the
 * state is saved at most once and only as the last step.
 */
module CreateLBsProperties {
  import opened Wrappers
  import Strings
  import opened CreateLBs

  /** The checks that come before the backend all pass and no LB is attached yet. */
  predicate ReachesBackend(c: Config, s: State, o: Responses)
  {
    && o.credentials.None?
    && IsLBType(c.lbType)
    && o.environment.None?
    && !IsLBType(s.stack.lbType)
  }

  /** Past the checks, the command validates credentials and the environment, then runs one backend. */
  lemma RunReachesBackend(c: Config, s: State, o: Responses)
    requires ReachesBackend(c, s, o)
    ensures var r := Run(c, s, o);
      var b := Backend(c, s, o);
      && r.err == b.err
      && r.calls == Cons(ValidateCredentials, Cons(ValidateEnvironment(s), b.calls))
      && Saved(r.calls) == Saved(b.calls)
      && forall who :: Count(r.calls, who) ==
           (if who == CredentialValidator || who == EnvironmentValidator then 1 else 0) + Count(b.calls, who)
  {
  }

  // ---------------------------------------------------------------------------
  // Fast-fail checks

  /** A credential error is returned as is, before any other check, whatever the flags. */
  lemma CredentialErrorComesFirst(c: Config, s: State, o: Responses)
    requires o.credentials.Some?
    ensures Run(c, s, o).err == o.credentials && Run(c, s, o).calls.Seq() == [ValidateCredentials]
  {
    ThenSeq();
  }

  /** The LB type is checked next: it is required and must be concourse or cf. */
  lemma LBTypeChecks(c: Config, s: State, o: Responses)
    requires o.credentials.None?
    ensures c.lbType == "" ==>
      Run(c, s, o).err == Some("--type is a required flag") && Run(c, s, o).calls.Seq() == [ValidateCredentials]
    ensures c.lbType != "" && c.lbType != "concourse" && c.lbType != "cf" ==>
      && Run(c, s, o).err == Some("\"" + c.lbType + "\" is not a valid lb type, valid lb types are: concourse and cf")
      && Run(c, s, o).calls.Seq() == [ValidateCredentials]
    ensures Run(c, s, o).err.None? ==> c.lbType == "concourse" || c.lbType == "cf"
  {
    ThenSeq();
  }

  /** An environment-validator error is returned as is; the validator received the incoming state. */
  lemma EnvironmentErrorVerbatim(c: Config, s: State, o: Responses)
    requires o.credentials.None? && IsLBType(c.lbType) && o.environment.Some?
    ensures Run(c, s, o).err == o.environment && Run(c, s, o).calls.Seq() == [ValidateCredentials, ValidateEnvironment(s)]
  {
    ThenSeq();
  }

  /**
   * With `SkipIfExists` and an attached LB the command logs that it skips and
   * succeeds without creating a certificate, updating the stack or saving.
   * The skip check comes before the conflict check.
   */
  lemma SkipIfExists(c: Config, s: State, o: Responses)
    requires o.credentials.None? && IsLBType(c.lbType) && o.environment.None?
    requires c.skipIfExists && IsLBType(s.stack.lbType)
    ensures var r := Run(c, s, o);
      && r.err.None?
      && r.calls.Seq() == [ValidateCredentials, ValidateEnvironment(s),
                     LogPrintln("lb type \"" + s.stack.lbType + "\" exists, skipping...")]
      && Count(r.calls, CertificateCreator) == 0
      && Count(r.calls, InfrastructureManager) == 0
      && Count(r.calls, TerraformManager) == 0
      && Saved(r.calls) == []
  {
    ThenSeq();
  }

  /**
   * Without `SkipIfExists`, an attached LB is a conflict naming the attached
   * type, even when it is the type asked for; only the credentials and the environment were validated.
   */
  lemma ExistingLBConflicts(c: Config, s: State, o: Responses)
    requires o.credentials.None? && IsLBType(c.lbType) && o.environment.None?
    requires !c.skipIfExists && IsLBType(s.stack.lbType)
    ensures var r := Run(c, s, o);
      && r.err == Some(ConflictMessage(s.stack.lbType))
      && r.calls.Seq() == [ValidateCredentials, ValidateEnvironment(s)]
  {
    ThenSeq();
  }

  // ---------------------------------------------------------------------------
  // Certificate naming

  /** The certificate name is `{type}-elb-cert-{guid}`, with `-{envID}` appended iff there is an env ID. */
  lemma CertificateNameFormat(lbType: string, guid: string, envID: string)
    ensures var name := CertificateName(lbType, guid, envID);
      var stem := |lbType| + |CertificateInfix| + |guid|;
      && name[..stem] == lbType + "-elb-cert-" + guid
      && (envID == "" <==> |name| == stem)
      && (envID != "" ==> name[stem..] == "-" + envID)
  {
  }

  /** Distinct GUIDs give distinct certificate names for the same type and environment. */
  lemma {:induction false} CertificateNameInjective(lbType: string, g1: string, g2: string, envID: string)
    requires CertificateName(lbType, g1, envID) == CertificateName(lbType, g2, envID)
    ensures g1 == g2
  {
    var n := CertificateName(lbType, g1, envID);
    var k := |lbType| + 10;
    var tail := if envID == "" then "" else "-" + envID;
    assert |g1| == |g2| by {
      assert |n| == k + |g1| + |tail| == k + |g2| + |tail|;
    }
    assert n[k..k + |g1|] == g1;
    assert n[k..k + |g2|] == g2;
  }

  // ---------------------------------------------------------------------------
  // The cloudformation path

  /** Every collaborator of the cloudformation path answers without error. */
  predicate CloudformationSucceeds(o: Responses)
  {
    && o.certificateValidation.None?
    && o.guid.Success?
    && o.certificateCreate.None?
    && o.certificateDescribe.Success?
    && o.availabilityZones.Success?
    && o.stackUpdate.None?
    && o.cloudConfig.None?
    && o.stateSave.None?
  }

  /** The state the cloudformation path saves: the LB type and certificate name recorded in the stack. */
  function CloudformationResult(c: Config, s: State, guid: string): State
  {
    s.(stack := s.stack.(lbType := c.lbType, certificateName := CertificateName(c.lbType, guid, s.envID)))
  }

  /**
   * When every collaborator succeeds, the cloudformation path validates the
   * certificate files, creates the certificate from the given paths and
   * describes it under one name, updates the stack once with the described
   * ARN, updates the cloud config (with the LB type already set) iff there
   * is a director, and saves the state with the new LB type and certificate
   * name, last.
   */
  lemma CloudformationCalls(c: Config, s: State, o: Responses)
    requires CloudformationSucceeds(o)
    ensures var r := Cloudformation(c, s, o);
      var name := CertificateName(c.lbType, o.guid.value, s.envID);
      var saved := CloudformationResult(c, s, o.guid.value);
      && r.err.None?
      && r.calls.Seq() ==
           [ValidateCertificate("create-lbs", c.certPath, c.keyPath, c.chainPath),
            LogStep("uploading certificate"),
            GenerateGuid,
            CreateCertificate(c.certPath, c.keyPath, c.chainPath, name),
            DescribeCertificate(name),
            RetrieveAZs(s.region),
            UpdateStack(s.keyPairName, o.availabilityZones.value, s.stack.name, s.stack.boshAZ,
                        c.lbType, o.certificateDescribe.value, s.envID)]
           + (if s.noDirector then [] else [UpdateCloudConfig(saved)])
           + [SaveState(saved)]
  {
    ThenSeq();
    var name := CertificateName(c.lbType, o.guid.value, s.envID);
    var saved := CloudformationResult(c, s, o.guid.value);
    FinishSucceeds(saved, o);
    UpdateStackSteps(c, s, o, name, o.certificateDescribe.value);
    UploadSteps(c, s, o, name);
    CloudformationSteps(c, s, o);
  }

  /**
   * When every collaborator succeeds, one certificate is created, the stack
   * is updated once, the cloud config once iff there is a director, and the
   * one state saved records the requested LB type and the certificate name.
   */
  lemma CloudformationSuccess(c: Config, s: State, o: Responses)
    requires CloudformationSucceeds(o)
    ensures var r := Cloudformation(c, s, o);
      var name := CertificateName(c.lbType, o.guid.value, s.envID);
      var saved := CloudformationResult(c, s, o.guid.value);
      && r.err.None?
      && saved.stack.lbType == c.lbType && saved.stack.certificateName == name
      && saved.(stack := s.stack) == s
      && Count(r.calls, CertificateCreator) == 1
      && Count(r.calls, InfrastructureManager) == 1
      && Count(r.calls, CloudConfigManager) == (if s.noDirector then 0 else 1)
      && Saved(r.calls) == [saved]
  {
    var name := CertificateName(c.lbType, o.guid.value, s.envID);
    var arn := o.certificateDescribe.value;
    var saved := CloudformationResult(c, s, o.guid.value);
    FinishSucceeds(saved, o);
    UpdateStackSteps(c, s, o, name, arn);
    UploadSteps(c, s, o, name);
    CloudformationSteps(c, s, o);
    assert Count(UpdateStackWith(c, s, o, name, arn).calls, CertificateCreator) == 0;
  }

  /**
   * Whatever `SkipIfExists` says, a state with no LB attached (an empty or
   * unknown stack LB type) goes through: without terraform state the command
   * succeeds, creating one certificate and updating the stack once, and
   * saves one state with the requested LB type.
   */
  lemma NoAttachedLBProceeds(c: Config, s: State, o: Responses)
    requires ReachesBackend(c, s, o) && s.tfState == "" && CloudformationSucceeds(o)
    ensures var r := Run(c, s, o);
      && r.err.None?
      && Count(r.calls, CertificateCreator) == 1
      && Count(r.calls, InfrastructureManager) == 1
      && Saved(r.calls) == [CloudformationResult(c, s, o.guid.value)]
  {
    RunReachesBackend(c, s, o);
    CloudformationSuccess(c, s, o);
  }

  /** The cloudformation path once the certificate files are valid and a GUID is generated. */
  lemma CloudformationSteps(c: Config, s: State, o: Responses)
    requires o.certificateValidation.None? && o.guid.Success?
    ensures Cloudformation(c, s, o) ==
      Then(ValidateCertificate(CertificateValidationCommand, c.certPath, c.keyPath, c.chainPath),
        Then(LogStep(UploadingCertificateMessage),
          Then(GenerateGuid, UploadCertificate(c, s, o, CertificateName(c.lbType, o.guid.value, s.envID)))))
  {
  }

  /** The upload once the certificate is created and described. */
  lemma UploadSteps(c: Config, s: State, o: Responses, name: string)
    requires o.certificateCreate.None? && o.certificateDescribe.Success?
    ensures UploadCertificate(c, s, o, name) ==
      Then(CreateCertificate(c.certPath, c.keyPath, c.chainPath, name),
        Then(DescribeCertificate(name), UpdateStackWith(c, s, o, name, o.certificateDescribe.value)))
  {
  }

  /** The stack update once the zones are known and the update succeeds. */
  lemma UpdateStackSteps(c: Config, s: State, o: Responses, name: string, arn: string)
    requires o.availabilityZones.Success? && o.stackUpdate.None?
    ensures UpdateStackWith(c, s, o, name, arn) ==
      Then(RetrieveAZs(s.region),
        Then(UpdateStack(s.keyPairName, o.availabilityZones.value, s.stack.name, s.stack.boshAZ, c.lbType, arn, s.envID),
          Finish(s.(stack := s.stack.(lbType := c.lbType, certificateName := name)), o)))
  {
  }

  /** How the end of both paths turns out: a cloud-config error stops before the save. */
  lemma FinishOutcome(s: State, o: Responses)
    ensures var f := Finish(s, o);
      && (!s.noDirector && o.cloudConfig.Some? ==>
            f.err == o.cloudConfig && f.calls == Cons(UpdateCloudConfig(s), Nil))
      && ((s.noDirector || o.cloudConfig.None?) ==>
            f.err == o.stateSave && Saved(f.calls) == [s])
      && Count(f.calls, CloudConfigManager) == (if s.noDirector then 0 else 1)
  {
  }

  /** When the cloud config and the save succeed, the run ends with them and saves `s`. */
  lemma FinishSucceeds(s: State, o: Responses)
    requires o.cloudConfig.None? && o.stateSave.None?
    ensures var f := Finish(s, o);
      && f.err.None?
      && f.calls.Seq() == (if s.noDirector then [] else [UpdateCloudConfig(s)]) + [SaveState(s)]
      && Saved(f.calls) == [s]
      && Count(f.calls, CertificateCreator) == 0
      && Count(f.calls, InfrastructureManager) == 0
      && Count(f.calls, CloudConfigManager) == (if s.noDirector then 0 else 1)
  {
    ThenSeq();
  }

  /**
   * Each cloudformation collaborator's error is returned as is, and stops the
   * command before the next collaborator is called; nothing is saved unless
   * the save itself fails.
   */
  lemma CloudformationErrorsVerbatim(c: Config, s: State, o: Responses)
    ensures var r := Cloudformation(c, s, o);
      && (o.certificateValidation.Some? ==>
            && r.err == o.certificateValidation
            && Count(r.calls, GuidGenerator) == 0 && Count(r.calls, CertificateCreator) == 0
            && Saved(r.calls) == [])
      && (o.certificateValidation.None? && o.guid.Failure? ==>
            r.err == Some(o.guid.error) && Count(r.calls, CertificateCreator) == 0 && Saved(r.calls) == [])
  {
  }

  /** Errors after the GUID: creating, describing, the zones and the stack update stop the path, unsaved. */
  lemma UploadErrorsVerbatim(c: Config, s: State, o: Responses, name: string)
    ensures var r := UploadCertificate(c, s, o, name);
      && (o.certificateCreate.Some? ==>
            && r.err == o.certificateCreate
            && Count(r.calls, CertificateDescriber) == 0 && Count(r.calls, AZRetriever) == 0
            && Count(r.calls, InfrastructureManager) == 0 && Saved(r.calls) == [])
      && (o.certificateCreate.None? && o.certificateDescribe.Failure? ==>
            && r.err == Some(o.certificateDescribe.error)
            && Count(r.calls, AZRetriever) == 0 && Count(r.calls, InfrastructureManager) == 0
            && Saved(r.calls) == [])
      && (o.certificateCreate.None? && o.certificateDescribe.Success? && o.availabilityZones.Failure? ==>
            r.err == Some(o.availabilityZones.error) && Count(r.calls, InfrastructureManager) == 0
            && Saved(r.calls) == [])
      && (o.certificateCreate.None? && o.certificateDescribe.Success? && o.availabilityZones.Success?
          && o.stackUpdate.Some? ==>
            r.err == o.stackUpdate && Count(r.calls, CloudConfigManager) == 0 && Saved(r.calls) == [])
  {
    if o.certificateCreate.None? && o.certificateDescribe.Success? {
      UploadSteps(c, s, o, name);
    }
  }

  /**
   * After the stack update, a cloud-config error stops the path unsaved; a
   * save error is returned after the state with the new LB was handed over.
   */
  lemma CloudformationFinishErrors(c: Config, s: State, o: Responses)
    requires o.certificateValidation.None? && o.guid.Success? && o.certificateCreate.None?
    requires o.certificateDescribe.Success? && o.availabilityZones.Success? && o.stackUpdate.None?
    ensures var r := Cloudformation(c, s, o);
      && (!s.noDirector && o.cloudConfig.Some? ==> r.err == o.cloudConfig && Saved(r.calls) == [])
      && ((s.noDirector || o.cloudConfig.None?) ==>
            r.err == o.stateSave && Saved(r.calls) == [CloudformationResult(c, s, o.guid.value)])
  {
    var name := CertificateName(c.lbType, o.guid.value, s.envID);
    CloudformationSteps(c, s, o);
    UploadSteps(c, s, o, name);
    UpdateStackSteps(c, s, o, name, o.certificateDescribe.value);
    FinishOutcome(CloudformationResult(c, s, o.guid.value), o);
  }

  // ---------------------------------------------------------------------------
  // The terraform path

  /** The three files (the chain only when a chain path is given) can be read. */
  predicate FilesReadable(c: Config, o: Responses)
  {
    c.certPath in o.files && c.keyPath in o.files && (c.chainPath == "" || c.chainPath in o.files)
  }

  /** The state terraform receives: the LB built from the file contents. */
  function TerraformInputOf(c: Config, s: State, o: Responses): State
    requires FilesReadable(c, o)
  {
    TerraformInput(c, s, o.files[c.certPath], o.files[c.keyPath],
                   if c.chainPath == "" then "" else o.files[c.chainPath])
  }

  /** None of the cloudformation path's collaborators is among `calls`. */
  predicate NoCloudformationCalls(calls: Trace)
  {
    && Count(calls, CertificateValidator) == 0
    && Count(calls, GuidGenerator) == 0
    && Count(calls, CertificateCreator) == 0
    && Count(calls, CertificateDescriber) == 0
    && Count(calls, AZRetriever) == 0
    && Count(calls, InfrastructureManager) == 0
  }

  /** The terraform path when every file can be read: read them, then apply. */
  lemma TerraformSteps(c: Config, s: State, o: Responses)
    requires FilesReadable(c, o)
    ensures var apply := TerraformApply(TerraformInputOf(c, s, o), o);
      Terraform(c, s, o) ==
        if c.chainPath == "" then Then(ReadFile(c.certPath), Then(ReadFile(c.keyPath), apply))
        else Then(ReadFile(c.certPath), Then(ReadFile(c.keyPath), Then(ReadFile(c.chainPath), apply)))
  {
  }

  /** The end of both paths calls neither the file system, terraform, nor a cloudformation collaborator. */
  lemma FinishAvoidsCloudformation(s: State, o: Responses)
    ensures var f := Finish(s, o);
      && Count(f.calls, CertificateValidator) == 0
      && Count(f.calls, GuidGenerator) == 0
      && Count(f.calls, CertificateCreator) == 0
  {
  }

  lemma FinishAvoidsStack(s: State, o: Responses)
    ensures var f := Finish(s, o);
      && Count(f.calls, CertificateDescriber) == 0
      && Count(f.calls, AZRetriever) == 0
      && Count(f.calls, InfrastructureManager) == 0
  {
  }

  lemma FinishAvoidsTerraform(s: State, o: Responses)
    ensures Count(Finish(s, o).calls, FileSystem) == 0 && Count(Finish(s, o).calls, TerraformManager) == 0
  {
  }

  /** Terraform is applied once, as the first call, and the files are not read again. */
  lemma TerraformApplyCalls(st: State, o: Responses)
    ensures var r := TerraformApply(st, o);
      && r.calls.Cons? && r.calls.head == Apply(st)
      && Count(r.calls, TerraformManager) == 1
      && Count(r.calls, FileSystem) == 0
  {
    if o.apply.Applied? {
      FinishAvoidsTerraform(o.apply.state, o);
    }
  }

  /** Whatever terraform answers, no cloudformation collaborator is called after it. */
  lemma TerraformApplyAvoidsCloudformation(st: State, o: Responses)
    ensures NoCloudformationCalls(TerraformApply(st, o).calls)
  {
    TerraformApplyAvoidsCertificates(st, o);
    TerraformApplyAvoidsStack(st, o);
  }

  lemma TerraformApplyAvoidsCertificates(st: State, o: Responses)
    ensures var r := TerraformApply(st, o);
      && Count(r.calls, CertificateValidator) == 0
      && Count(r.calls, GuidGenerator) == 0
      && Count(r.calls, CertificateCreator) == 0
  {
    if o.apply.Applied? {
      FinishAvoidsCloudformation(o.apply.state, o);
    }
  }

  lemma TerraformApplyAvoidsStack(st: State, o: Responses)
    ensures var r := TerraformApply(st, o);
      && Count(r.calls, CertificateDescriber) == 0
      && Count(r.calls, AZRetriever) == 0
      && Count(r.calls, InfrastructureManager) == 0
  {
    if o.apply.Applied? {
      FinishAvoidsStack(o.apply.state, o);
    }
  }

  /**
   * A successful apply: the state terraform returns goes to the cloud config
   * (when there is a director) and then to the state store.
   */
  lemma TerraformApplied(st: State, o: Responses)
    requires o.apply.Applied?
    ensures var r := TerraformApply(st, o);
      var next := o.apply.state;
      && r.err == (if !next.noDirector && o.cloudConfig.Some? then o.cloudConfig else o.stateSave)
      && Saved(r.calls) == (if !next.noDirector && o.cloudConfig.Some? then [] else [next])
      && Count(r.calls, CloudConfigManager) == (if next.noDirector then 0 else 1)
      && (!next.noDirector ==> r.calls.tail.Cons? && r.calls.tail.head == UpdateCloudConfig(next))
  {
    FinishOutcome(o.apply.state, o);
  }

  /**
   * A failed apply. A plain error is returned as is and nothing is saved. A
   * terraform-manager error has its partial state fetched and saved, once; the
   * result is the apply message alone when that works, and otherwise the
   * apply message and the error that stopped the save, aggregated.
   */
  lemma TerraformApplyFailed(st: State, o: Responses)
    ensures var r := TerraformApply(st, o);
      && (o.apply.ApplyFailed? ==>
            r.err == Some(o.apply.message) && Saved(r.calls) == [] && Count(r.calls, CloudConfigManager) == 0)
      && (o.apply.ApplyFailedWithState? && o.apply.partialState.Failure? ==>
            && r.err == Some(AggregateErrors([o.apply.message, o.apply.partialState.error]))
            && Saved(r.calls) == [] && Count(r.calls, CloudConfigManager) == 0)
      && (o.apply.ApplyFailedWithState? && o.apply.partialState.Success? ==>
            && r.err == Some(if o.stateSave.Some? then AggregateErrors([o.apply.message, o.stateSave.value])
                             else o.apply.message)
            && Saved(r.calls) == [o.apply.partialState.value] && Count(r.calls, CloudConfigManager) == 0)
  {
  }

  /** With terraform state the cloudformation collaborators are never called, whatever the answers. */
  lemma TerraformPathAvoidsCloudformation(c: Config, s: State, o: Responses)
    ensures NoCloudformationCalls(Terraform(c, s, o).calls)
  {
    if FilesReadable(c, o) {
      TerraformSteps(c, s, o);
      TerraformApplyAvoidsCloudformation(TerraformInputOf(c, s, o), o);
    }
  }

  /**
   * With terraform state, the whole command never calls a cloudformation
   * collaborator, whatever the flags and the answers.
   */
  lemma RunWithTerraformStateAvoidsCloudformation(c: Config, s: State, o: Responses)
    requires s.tfState != ""
    ensures NoCloudformationCalls(Run(c, s, o).calls)
  {
    if ReachesBackend(c, s, o) {
      RunReachesBackend(c, s, o);
      TerraformPathAvoidsCloudformation(c, s, o);
    }
  }

  /**
   * A file that cannot be read stops the terraform path with the read error,
   * before terraform runs and without saving.
   */
  lemma TerraformReadFailure(c: Config, s: State, o: Responses)
    requires !FilesReadable(c, o)
    ensures var r := Terraform(c, s, o);
      && r.err == Some(o.readError)
      && Count(r.calls, TerraformManager) == 0
      && Saved(r.calls) == []
  {
  }

  /**
   * Terraform is applied once, to the incoming state with the LB set to the
   * requested type and the file contents (not the paths); a given domain is
   * written when none is recorded, and a recorded domain is kept whatever
   * is given; nothing else changes.
   */
  lemma TerraformApplyInput(c: Config, s: State, o: Responses)
    requires FilesReadable(c, o)
    ensures var r := Terraform(c, s, o);
      var input := TerraformInputOf(c, s, o);
      && Count(r.calls, TerraformManager) == 1
      && Apply(input) in r.calls.Seq()
      && input.lb.lbType == c.lbType
      && input.lb.cert == o.files[c.certPath]
      && input.lb.key == o.files[c.keyPath]
      && input.lb.chain == (if c.chainPath == "" then "" else o.files[c.chainPath])
      && (s.lb.domain == "" ==> input.lb.domain == c.domain)
      && (s.lb.domain != "" ==> input.lb.domain == s.lb.domain)
      && input.(lb := s.lb) == s
  {
    ThenSeq();
    TerraformSteps(c, s, o);
    TerraformApplyCalls(TerraformInputOf(c, s, o), o);
  }

  /**
   * When terraform applies: the state it returns is what the cloud config
   * (when there is a director) and the state store receive, saved once.
   */
  lemma TerraformSuccess(c: Config, s: State, o: Responses)
    requires FilesReadable(c, o) && o.apply.Applied? && o.cloudConfig.None? && o.stateSave.None?
    ensures var r := Terraform(c, s, o);
      && r.err.None?
      && Saved(r.calls) == [o.apply.state]
      && Count(r.calls, CloudConfigManager) == (if o.apply.state.noDirector then 0 else 1)
      && (!o.apply.state.noDirector ==> UpdateCloudConfig(o.apply.state) in r.calls.Seq())
  {
    ThenSeq();
    TerraformSteps(c, s, o);
    TerraformApplied(TerraformInputOf(c, s, o), o);
  }

  /** A failed apply seen from the whole terraform path, with the aggregated messages written out. */
  lemma TerraformApplyFailure(c: Config, s: State, o: Responses)
    requires FilesReadable(c, o)
    ensures var r := Terraform(c, s, o);
      && (o.apply.ApplyFailed? ==>
            r.err == Some(o.apply.message) && Saved(r.calls) == [] && Count(r.calls, CloudConfigManager) == 0)
      && (o.apply.ApplyFailedWithState? && o.apply.partialState.Failure? ==>
            && r.err == Some("the following errors occurred:\n" + o.apply.message + ",\n" + o.apply.partialState.error)
            && Saved(r.calls) == [] && Count(r.calls, CloudConfigManager) == 0)
      && (o.apply.ApplyFailedWithState? && o.apply.partialState.Success? && o.stateSave.None? ==>
            && r.err == Some(o.apply.message)
            && Saved(r.calls) == [o.apply.partialState.value] && Count(r.calls, CloudConfigManager) == 0)
      && (o.apply.ApplyFailedWithState? && o.apply.partialState.Success? && o.stateSave.Some? ==>
            && r.err == Some("the following errors occurred:\n" + o.apply.message + ",\n" + o.stateSave.value)
            && Saved(r.calls) == [o.apply.partialState.value] && Count(r.calls, CloudConfigManager) == 0)
  {
    TerraformSteps(c, s, o);
    TerraformApplyFailed(TerraformInputOf(c, s, o), o);
    if o.apply.ApplyFailedWithState? {
      if o.apply.partialState.Failure? {
        AggregateTwo(o.apply.message, o.apply.partialState.error);
      } else if o.stateSave.Some? {
        AggregateTwo(o.apply.message, o.stateSave.value);
      }
    }
  }

  // ---------------------------------------------------------------------------
  // Error aggregation

  /** Two errors aggregate into the header, the first, `",\n"` and the second. */
  lemma AggregateTwo(first: string, second: string)
    ensures AggregateErrors([first, second]) == "the following errors occurred:\n" + first + ",\n" + second
  {
    assert [first, second][1..] == [second];
    assert Strings.Join([second], ErrorsSeparator) == second;
    assert Strings.Join([first, second], ErrorsSeparator) == first + ErrorsSeparator + second;
  }

  /**
   * The aggregated message loses nothing: when no message contains `",\n"`,
   * splitting what follows the header gives the messages back.
   */
  lemma AggregateErrorsSplit(messages: seq<string>)
    requires |messages| >= 1
    requires forall i :: 0 <= i < |messages| ==> Strings.Count(messages[i], ",\n") == 0
    ensures var m := AggregateErrors(messages);
      && m[..|ErrorsOccurredHeader|] == ErrorsOccurredHeader
      && Strings.Split(m[|ErrorsOccurredHeader|..], ",\n") == messages
  {
    var m := AggregateErrors(messages);
    assert m[|ErrorsOccurredHeader|..] == Strings.Join(messages, ErrorsSeparator);
    Strings.SplitJoin(messages, ErrorsSeparator);
  }

  // ---------------------------------------------------------------------------
  // The state is saved at most once, as the last call

  /**
   * At most one state is saved, and if one is, saving it is the last call;
   * an execution that returns no error has saved exactly one state.
   */
  predicate SavesOnceLast(r: Execution)
  {
    && |Saved(r.calls)| <= 1
    && Count(r.calls, StateStore) == |Saved(r.calls)|
    && (|Saved(r.calls)| == 1 ==> r.calls.Last().Some? && r.calls.Last().value.SaveState?)
    && (r.err.None? ==> |Saved(r.calls)| == 1)
  }

  /** A call that does not save keeps the property of the calls after it. */
  lemma ThenKeepsSaveLast(call: Call, r: Execution)
    requires !call.SaveState? && SavesOnceLast(r)
    ensures SavesOnceLast(Then(call, r))
  {
  }

  lemma FinishSavesLast(s: State, o: Responses)
    ensures SavesOnceLast(Finish(s, o))
  {
    if !s.noDirector {
      var rest := if o.cloudConfig.Some? then Fail(o.cloudConfig.value) else Save(s, o);
      ThenKeepsSaveLast(UpdateCloudConfig(s), rest);
    }
  }

  lemma TerraformApplySavesLast(s: State, o: Responses)
    ensures SavesOnceLast(TerraformApply(s, o))
  {
    match o.apply {
      case Applied(next) =>
        FinishSavesLast(next, o);
        ThenKeepsSaveLast(Apply(s), Finish(next, o));
      case ApplyFailed(_) =>
      case ApplyFailedWithState(message, partial) =>
        ThenKeepsSaveLast(Apply(s), RecoverPartialState(message, partial, o));
    }
  }

  lemma TerraformSavesLast(c: Config, s: State, o: Responses)
    ensures SavesOnceLast(Terraform(c, s, o))
  {
    if FilesReadable(c, o) {
      TerraformSteps(c, s, o);
      var apply := TerraformApply(TerraformInputOf(c, s, o), o);
      TerraformApplySavesLast(TerraformInputOf(c, s, o), o);
      if c.chainPath == "" {
        ThenKeepsSaveLast(ReadFile(c.keyPath), apply);
        ThenKeepsSaveLast(ReadFile(c.certPath), Then(ReadFile(c.keyPath), apply));
      } else {
        ThenKeepsSaveLast(ReadFile(c.chainPath), apply);
        ThenKeepsSaveLast(ReadFile(c.keyPath), Then(ReadFile(c.chainPath), apply));
        ThenKeepsSaveLast(ReadFile(c.certPath), Then(ReadFile(c.keyPath), Then(ReadFile(c.chainPath), apply)));
      }
    }
  }

  lemma UpdateStackSavesLast(c: Config, s: State, o: Responses, name: string, arn: string)
    ensures SavesOnceLast(UpdateStackWith(c, s, o, name, arn))
  {
    if o.availabilityZones.Success? && o.stackUpdate.None? {
      UpdateStackSteps(c, s, o, name, arn);
      var result := s.(stack := s.stack.(lbType := c.lbType, certificateName := name));
      var stackUpdate := UpdateStack(s.keyPairName, o.availabilityZones.value, s.stack.name, s.stack.boshAZ,
                                     c.lbType, arn, s.envID);
      FinishSavesLast(result, o);
      ThenKeepsSaveLast(stackUpdate, Finish(result, o));
      ThenKeepsSaveLast(RetrieveAZs(s.region), Then(stackUpdate, Finish(result, o)));
    }
  }

  lemma CloudformationSavesLast(c: Config, s: State, o: Responses)
    ensures SavesOnceLast(Cloudformation(c, s, o))
  {
    if o.certificateValidation.None? && o.guid.Success? {
      CloudformationSteps(c, s, o);
      var name := CertificateName(c.lbType, o.guid.value, s.envID);
      var upload := UploadCertificate(c, s, o, name);
      if o.certificateCreate.None? && o.certificateDescribe.Success? {
        UploadSteps(c, s, o, name);
        var update := UpdateStackWith(c, s, o, name, o.certificateDescribe.value);
        UpdateStackSavesLast(c, s, o, name, o.certificateDescribe.value);
        ThenKeepsSaveLast(DescribeCertificate(name), update);
        ThenKeepsSaveLast(CreateCertificate(c.certPath, c.keyPath, c.chainPath, name), Then(DescribeCertificate(name), update));
      }
      ThenKeepsSaveLast(GenerateGuid, upload);
      ThenKeepsSaveLast(LogStep(UploadingCertificateMessage), Then(GenerateGuid, upload));
      ThenKeepsSaveLast(ValidateCertificate(CertificateValidationCommand, c.certPath, c.keyPath, c.chainPath),
                        Then(LogStep(UploadingCertificateMessage), Then(GenerateGuid, upload)));
    }
  }

  /**
   * Whatever the flags, the state and the collaborators' answers, the state
   * store is called at most once and only as the last step; when the command
   * succeeds it was called exactly once, unless the command skipped.
   */
  lemma StateSavedAtMostOnce(c: Config, s: State, o: Responses)
    ensures var r := Run(c, s, o);
      && Count(r.calls, StateStore) == |Saved(r.calls)| <= 1
      && (|Saved(r.calls)| == 1 ==> r.calls.Last().Some? && r.calls.Last().value.SaveState?)
      && (r.err.None? ==> (|Saved(r.calls)| == 1 <==> !(c.skipIfExists && IsLBType(s.stack.lbType))))
  {
    if ReachesBackend(c, s, o) {
      RunReachesBackend(c, s, o);
      if s.tfState != "" {
        TerraformSavesLast(c, s, o);
      } else {
        CloudformationSavesLast(c, s, o);
      }
      ThenKeepsSaveLast(ValidateEnvironment(s), Backend(c, s, o));
      ThenKeepsSaveLast(ValidateCredentials, Then(ValidateEnvironment(s), Backend(c, s, o)));
    }
  }
}
