# bosh-bootloader load-balancer logic in Dafny

This project models two pieces of bosh-bootloader's load-balancer logic.

**1. `OutputProvider.Get` (terraform/output_provider.go).** `Get` turns a terraform state into the typed `Outputs` record. It asks a terraform executor for a fixed, ordered list of named outputs.

- The executor is a parameter of type `(tfState, name) -> Result<string, string>`.
- `Get` is a pure function that returns an `Extraction`. An `Extraction` holds:
  - the record;
  - the error;
  - the names the executor was asked for, in order.
- `Fetch` walks the key list and stops at the first error. `QueryKeys` gives that list for an LB type and a domain flag.
- The DNS-server output is split with a model of Go's `strings.Split` (module `Strings`). That module also models `Join` and `Count`, with their round trips.

**2. `AWSCreateLBs.Execute` on AWS (the `create-lbs` command).** Its behaviour is the one commands/aws_create_lbs_test.go fixes.

- The command's collaborators are given as scripted answers (`Responses`):
  - credential, environment and certificate validators;
  - GUID generator;
  - certificate creator and describer;
  - availability-zone retriever;
  - infrastructure manager;
  - file reads;
  - terraform manager;
  - cloud-config manager;
  - state store;
  - logger.
- Module `CreateLBs` holds the specification function `Run`. It gives the returned error and the ordered `Trace` of collaborator calls, each call with what it received.
  - `Count` gives a fake's call count.
  - `Saved` gives the states handed to the state store.
- Module `CreateLBsProperties` proves the behaviour the test file pins down:
  - the validation order and messages;
  - the skip and conflict rules;
  - the certificate naming;
  - the backend chosen by the terraform state;
  - the domain handling;
  - the partial-state protocol of a terraform-manager error;
  - the state being saved at most once, and last.
- Module `Commands` is the imperative side:
  - a `Collaborators` object records every call it receives in its `calls` field and answers from its script, as the fakes do;
  - `AWSCreateLBs.Execute` makes those calls step by step, with early exits;
  - every method is proved to return the error of its specification function and to append exactly that function's calls to the log.

## Model

| member | source | states |
|---|---|---|
| Strings.Split | terraform/output_provider.go:124-131 | Go's `strings.Split` always returns at least one piece |
| Strings.JoinSplit | terraform/output_provider.go:124-131 | joining the pieces of a split with the same separator gives the original string back |
| Strings.JoinHead | terraform/output_provider.go:124-131 | prefixing the first part with a character prefixes the join with it |
| Strings.SplitLength | terraform/output_provider.go:124-131 | a split has exactly one more piece than the string has non-overlapping separators |
| Strings.SplitWithoutSeparator | terraform/output_provider.go:124-131 | a string without the separator splits into itself alone |
| Strings.SplitFirstPiece | terraform/output_provider.go:124-131 | for a two-character separator with distinct characters, a separator-free piece followed by the separator is the first piece of the split |
| Strings.SplitJoin | terraform/output_provider.go:124-131 | splitting a join gives the parts back when no part contains the separator (and the separator cannot overlap itself) |
| OutputProvider.Fetch | terraform/output_provider.go:40-143 | the names asked for are a prefix of the list. On success every name was asked for and each value is the executor's value for its own name. On failure the error is the one of the last name asked for, and every earlier name succeeded |
| OutputProvider.GetEmptyState | terraform/output_provider.go:35-38 | an empty terraform state gives the zero record, no error, and the executor is never asked |
| OutputProvider.GetQueriesInOrder | terraform/output_provider.go:40-145 | the executor is asked for a prefix of the fixed key order. `Get` succeeds iff every key in the list succeeds, and then every key was asked for |
| OutputProvider.GetQueryCount | terraform/output_provider.go:40-145 | a successful `Get` asks 6 times, 8 times for concourse, 14 for cf, 15 for cf with a domain |
| OutputProvider.GetFirstErrorWins | terraform/output_provider.go:40-143 | on error the record is the zero record. The error is the first failing key's, every earlier key succeeded, and no later key was asked for |
| OutputProvider.GetBaselineFields | terraform/output_provider.go:40-68 | on success the six baseline fields equal the executor's values for their own keys |
| OutputProvider.GetCfFields | terraform/output_provider.go:83-131 | for cf the eight cf fields equal their own keys' values, the concourse fields stay empty, and the DNS list is present iff a domain exists |
| OutputProvider.GetConcourseFields | terraform/output_provider.go:134-145 | for concourse the two concourse fields equal their own keys' values, every cf field stays empty and the DNS list is absent |
| OutputProvider.GetOtherTypeFields | terraform/output_provider.go:147-165 | for any other LB type, the empty one included, only the six baseline fields can be non-empty |
| OutputProvider.GetDNSServers | terraform/output_provider.go:124-131 | the DNS list is present iff the state is non-empty, `Get` succeeds, the type is cf and a domain exists. It is then the raw output split on `",\n"`, has separator-count-plus-one entries, and joins back to the raw output |
| CreateLBs.Then | commands/aws_create_lbs_test.go:20-78 | making one more call adds one to its target's call count and, if it saves, puts its state first among the saved states |
| CreateLBsProperties.RunReachesBackend | commands/aws_create_lbs_test.go:118-144 | once the checks pass and no LB is attached, the command validates credentials, then the environment, then runs one backend. It returns the backend's error and its saved states, and the only extra call counts are the two validators' |
| CreateLBsProperties.CredentialErrorComesFirst | commands/aws_create_lbs_test.go:80-84 | a credential error is returned as is, whatever the flags, and no other collaborator is called |
| CreateLBsProperties.LBTypeChecks | commands/aws_create_lbs_test.go:490-508 | an empty type fails with `--type is a required flag`. Any type other than concourse and cf fails with the "is not a valid lb type" message naming it. Both fail after the credential check only, and success implies a valid type |
| CreateLBsProperties.EnvironmentErrorVerbatim | commands/aws_create_lbs_test.go:510-521 | an environment-validator error is returned as is, after the validator received the incoming state |
| CreateLBsProperties.SkipIfExists | commands/aws_create_lbs_test.go:454-469 | with `SkipIfExists` and an attached LB, the command logs `lb type "<t>" exists, skipping...` and returns nil. It creates no certificate, does not update the stack and saves nothing |
| CreateLBsProperties.ExistingLBConflicts | commands/aws_create_lbs_test.go:579-594 | without `SkipIfExists`, an attached concourse or cf LB fails with the "bbl already has a <old> load balancer attached" message naming the attached type, after only the two validations |
| CreateLBsProperties.NoAttachedLBProceeds | commands/aws_create_lbs_test.go:471-487 | whatever `SkipIfExists` says, with no LB attached the cloudformation path succeeds with one certificate created, one stack update and one saved state |
| CreateLBsProperties.CertificateNameFormat | commands/aws_create_lbs_test.go:368-385 | the certificate name is `{type}-elb-cert-{guid}`, followed by `-{envID}` iff the env ID is non-empty |
| CreateLBsProperties.CertificateNameInjective | commands/aws_create_lbs_test.go:523-557 | for one type and environment, equal certificate names come from equal GUIDs |
| CreateLBsProperties.CloudformationCalls | commands/aws_create_lbs_test.go:86-144 | when every collaborator succeeds, the exact call list is: validate the three paths, log the upload step, generate the GUID, then create and describe under one name from the given paths. Then come the zone lookup and one stack update with the described ARN, the cloud-config update with the new LB type iff there is a director, and the save, last |
| CreateLBsProperties.CloudformationSuccess | commands/aws_create_lbs_test.go:118-144 | when every collaborator succeeds: no error, one certificate created, one stack update, one cloud-config update iff there is a director. The one saved state differs from the incoming one only in the stack's LB type and certificate name |
| CreateLBsProperties.FinishOutcome | commands/aws_create_lbs_test.go:387-452 | the end of both paths updates the cloud config iff there is a director. A cloud-config error stops before the save, otherwise the save's error is returned |
| CreateLBsProperties.FinishSucceeds | commands/aws_create_lbs_test.go:387-452 | when the cloud config and the save succeed, the calls are the update (only with a director) and then the save of the given state |
| CreateLBsProperties.CloudformationErrorsVerbatim | commands/aws_create_lbs_test.go:559-576 | certificate-validator and GUID errors are returned as is. A validator error stops before the GUID is generated, neither creates a certificate, and nothing is saved |
| CreateLBsProperties.UploadErrorsVerbatim | commands/aws_create_lbs_test.go:596-620 | create, describe, zone-lookup and stack-update errors are returned as is. Each stops the path before the next collaborator, and nothing is saved |
| CreateLBsProperties.CloudformationFinishErrors | commands/aws_create_lbs_test.go:809-840 | after the stack update, a cloud-config error is returned unsaved. A save error is returned after the state with the new LB was handed over |
| CreateLBsProperties.FinishAvoidsCloudformation | commands/aws_create_lbs_test.go:219-254 | the end of both paths calls no certificate validator, GUID generator or certificate creator |
| CreateLBsProperties.FinishAvoidsStack | commands/aws_create_lbs_test.go:219-254 | the end of both paths neither describes a certificate, looks up zones nor updates the stack |
| CreateLBsProperties.FinishAvoidsTerraform | commands/aws_create_lbs_test.go:219-254 | the end of both paths neither reads files nor applies terraform |
| CreateLBsProperties.TerraformApplyCalls | commands/aws_create_lbs_test.go:219-254 | terraform is applied once, to the given state, as the first call, and no file is read after it |
| CreateLBsProperties.TerraformApplyAvoidsCloudformation | commands/aws_create_lbs_test.go:219-254 | whatever terraform answers, no cloudformation collaborator is called afterwards |
| CreateLBsProperties.TerraformApplyAvoidsCertificates | commands/aws_create_lbs_test.go:219-254 | after the apply, no certificate collaborator and no GUID generator is called |
| CreateLBsProperties.TerraformApplyAvoidsStack | commands/aws_create_lbs_test.go:219-254 | after the apply, no zone lookup and no stack update is made |
| CreateLBsProperties.TerraformApplied | commands/aws_create_lbs_test.go:219-254 | a successful apply hands the state terraform returned to the cloud config (with a director) and to the state store |
| CreateLBsProperties.TerraformApplyFailed | commands/aws_create_lbs_test.go:685-794 | a plain apply error is returned as is, unsaved. A terraform-manager error fetches the partial state and saves it once. The result is then the apply message alone, or the aggregate of the apply message and the fetch or save error |
| CreateLBsProperties.TerraformPathAvoidsCloudformation | commands/aws_create_lbs_test.go:219-254 | with terraform state, the certificate validator, the certificate creator and the stack update are never called, whatever the answers |
| CreateLBsProperties.RunWithTerraformStateAvoidsCloudformation | commands/aws_create_lbs_test.go:219-254 | when the incoming state has terraform state, the whole command never calls the certificate validator, GUID generator, certificate creator or describer, zone lookup or stack update, whatever the flags and answers |
| CreateLBsProperties.TerraformReadFailure | commands/aws_create_lbs_test.go:622-683 | an unreadable cert, key or chain file stops the path with the read error, before terraform runs and unsaved |
| CreateLBsProperties.TerraformApplyInput | commands/aws_create_lbs_test.go:205-366 | terraform receives the incoming state with the LB set to the requested type and the file contents, not the paths; the chain is empty without a chain path. A given domain is written when no domain is recorded, a recorded domain is kept, and nothing else changes |
| CreateLBsProperties.TerraformSuccess | commands/aws_create_lbs_test.go:219-254 | when terraform applies, the state it returns is what the cloud config and the state store receive, and it is the one state saved |
| CreateLBsProperties.TerraformApplyFailure | commands/aws_create_lbs_test.go:685-794 | the terraform-manager error protocol with the messages written out: `the following errors occurred:\n<apply>,\n<fetch error>` and `...,\n<save error>`. The partial state is saved exactly once when it can be fetched |
| CreateLBsProperties.AggregateTwo | commands/aws_create_lbs_test.go:756-794 | two errors aggregate into the header, the first message, `",\n"` and the second |
| CreateLBsProperties.AggregateErrorsSplit | commands/aws_create_lbs_test.go:756-794 | the aggregate loses nothing: splitting what follows the header on `",\n"` gives the messages back when none contains the separator |
| CreateLBsProperties.ThenKeepsSaveLast | commands/aws_create_lbs_test.go:523-557 | a call that does not save keeps "at most one save, and last" |
| CreateLBsProperties.FinishSavesLast | commands/aws_create_lbs_test.go:523-557 | the end of both paths saves at most once, last, and exactly once on success |
| CreateLBsProperties.TerraformApplySavesLast | commands/aws_create_lbs_test.go:715-794 | the apply and its partial-state protocol save at most once, last, and exactly once on success |
| CreateLBsProperties.TerraformSavesLast | commands/aws_create_lbs_test.go:219-254 | the terraform path saves at most once, last, and exactly once on success |
| CreateLBsProperties.UpdateStackSavesLast | commands/aws_create_lbs_test.go:118-144 | the stack update and what follows save at most once, last, and exactly once on success |
| CreateLBsProperties.CloudformationSavesLast | commands/aws_create_lbs_test.go:523-557 | the cloudformation path saves at most once, last, and exactly once on success |
| CreateLBsProperties.StateSavedAtMostOnce | commands/aws_create_lbs_test.go:454-557 | whatever the flags, state and answers, the state store is called at most once and only as the last call. On success it was called exactly once iff the command did not skip |
| Commands.Collaborators.constructor | commands/aws_create_lbs_test.go:22-78 | new collaborators have the given script and an empty call log |
| Commands.Collaborators.ValidateCredentials | commands/aws_create_lbs_test.go:80-84 | records the call and answers the scripted credential error |
| Commands.Collaborators.ValidateEnvironment | commands/aws_create_lbs_test.go:510-521 | records the call with the state and answers the scripted error |
| Commands.Collaborators.ValidateCertificate | commands/aws_create_lbs_test.go:112-115 | records the subcommand and the three paths and answers the scripted error |
| Commands.Collaborators.GenerateGuid | commands/aws_create_lbs_test.go:822-830 | records the call and answers the scripted GUID or error |
| Commands.Collaborators.CreateCertificate | commands/aws_create_lbs_test.go:86-99 | records the certificate, key, chain and name and answers the scripted error |
| Commands.Collaborators.DescribeCertificate | commands/aws_create_lbs_test.go:118-144 | records the name and answers the scripted ARN or error |
| Commands.Collaborators.RetrieveAZs | commands/aws_create_lbs_test.go:596-608 | records the region and answers the scripted zones or error |
| Commands.Collaborators.UpdateStack | commands/aws_create_lbs_test.go:118-144 | records every argument of the stack update and answers the scripted error |
| Commands.Collaborators.ReadFile | commands/aws_create_lbs_test.go:622-683 | records the path. It answers the file's contents when the file exists and the read error otherwise |
| Commands.Collaborators.Apply | commands/aws_create_lbs_test.go:219-254 | records the state handed to terraform and answers the scripted response |
| Commands.Collaborators.FetchPartialState | commands/aws_create_lbs_test.go:715-772 | records the call and answers the partial state the terraform-manager error carries, or its error |
| Commands.Collaborators.UpdateCloudConfig | commands/aws_create_lbs_test.go:387-398 | records the state and answers the scripted error |
| Commands.Collaborators.SaveState | commands/aws_create_lbs_test.go:832-840 | records the state and answers the scripted error |
| Commands.Collaborators.LogStep | commands/aws_create_lbs_test.go:86-99 | records the step message |
| Commands.Collaborators.LogPrintln | commands/aws_create_lbs_test.go:454-469 | records the printed line |
| Commands.AWSCreateLBs.constructor | commands/aws_create_lbs_test.go:22-78 | the command is wired to the given collaborators |
| Commands.AWSCreateLBs.Execute | commands/aws_create_lbs_test.go:80-840 | returns exactly `Run`'s error and appends exactly `Run`'s calls, in order, to the collaborators' log. Every property of `Run` above therefore holds of the command |
| Commands.AWSCreateLBs.Cloudformation | commands/aws_create_lbs_test.go:86-144 | returns the cloudformation path's error and makes exactly its calls |
| Commands.AWSCreateLBs.UploadCertificate | commands/aws_create_lbs_test.go:86-116 | returns the upload's error and makes exactly its calls |
| Commands.AWSCreateLBs.UpdateStackWith | commands/aws_create_lbs_test.go:118-144 | returns the stack update's error and makes exactly its calls |
| Commands.AWSCreateLBs.Terraform | commands/aws_create_lbs_test.go:146-366 | returns the terraform path's error and makes exactly its calls |
| Commands.AWSCreateLBs.TerraformAfterKey | commands/aws_create_lbs_test.go:234-254 | after the cert and key were read, makes exactly the rest of the terraform path's calls and returns its error |
| Commands.AWSCreateLBs.TerraformApply | commands/aws_create_lbs_test.go:685-794 | returns the apply's error, including the partial-state protocol, and makes exactly its calls |
| Commands.AWSCreateLBs.Finish | commands/aws_create_lbs_test.go:387-452 | returns the finish's error and makes exactly its calls |

## Left out

- The implementation of `AWSCreateLBs.Execute` (commands/aws_create_lbs.go) is not part of this model. The behaviour modelled is the one commands/aws_create_lbs_test.go fixes, and where the test leaves a choice the model picks one:
  - the skip check sits after the environment validation and before the conflict check (the test only fixes that skipping wins over the conflict);
  - the upload step is logged and the GUID generated after the certificate validation and before the certificate is created;
  - the zone lookup comes after the certificate describe;
  - the skip and conflict checks read only `Stack.LBType`, on both paths. `LB.Type` is never consulted, so with terraform state an already recorded terraform LB neither skips nor conflicts, whatever its type. The test fixes only that a recorded terraform LB of the requested type goes through (lines 285-311);
  - on the terraform path a supplied domain is recorded only when no domain is recorded yet, and a recorded domain is always kept. The test fixes only the two one-sided cases, a supplied domain with none recorded (lines 257-283) and a recorded domain with none supplied (lines 285-311);
  - after a successful apply, whether there is a director is read from the state terraform returned, not from the incoming state.
- Certificate contents on the cloudformation path: the certificate creator receives the three paths, as the test expects, and not file contents.
- Conflict with the same type: an attached concourse or cf LB is a conflict even when it is the type asked for. The test's table always asks for concourse and expects the conflict for both attached types.
- Message quoting: the invalid-type and skip messages put the LB type in plain double quotes, as the expected strings show; escaping of quotes or other characters inside the type is not modelled.
- Real file reads: files are a map from path to contents, and a missing path fails with one opaque read error. The operating system's error text ("no such file or directory") is not modelled.
- Fields of `storage.State`: only the ones the command reads or writes are modelled. The terraform state is an opaque string that is only tested for emptiness.
- Collaborators: terraform, CloudFormation, IAM, AWS credentials, the BOSH client and the logger's formatting are only outcomes in the model.
  - A no-director environment is modelled by not calling the cloud-config manager. Not creating a BOSH client (lines 401-424) has no counterpart.
  - The logger's only text in the model is the skip message and the upload step.
- Other collaborator methods: the infrastructure manager's `Exists` and anything else the command's collaborators offer beyond the calls above are not modelled.
- Flag parsing into `AWSCreateLBsConfig` is not modelled: `Execute` takes the parsed configuration.
- fakes/terraform_executor.go: the call-recording executor is modelled as the function parameter `Executor`, not as a class.
- aws/iam/certificate_deleter_test.go: a thin forwarder to the AWS SDK with no logic of its own, so it is not modelled.
- The JSON struct tags on `Outputs`: no serialiser is involved.
- Strings.SplitJoin: proved only for two-character separators whose characters differ, such as `",\n"`, which is the only separator used.
