# c3: compliance defaults for AWS CDK constructs, in Dafny

c3 wraps AWS CDK constructs so that they come with security defaults that callers cannot override:
- data is encrypted under a caller-supplied KMS key (S3, EFS, RDS, DynamoDB, Secrets Manager, CloudWatch Logs, CodeBuild logs);
- KMS keys rotate and are retained;
- buckets block public access, and a bucket policy refuses object requests without TLS;
- EC2 auto-scaling groups carry a zero-trust access policy as tags in place of an SSH key.

The one component that runs is a CloudFormation custom-resource handler. It creates a log group under a KMS key, sets its retention, and deletes it again.

The model has these parts:

- `Props` (props.dfy): JavaScript property bags as maps from names to values.
  - `Strip` is the rest of a destructuring pattern (`const { a, ...rest } = props`).
  - `Spread` is an object literal with a spread (`{ ...a, ...b }`); the later part wins.
  - Every wrapper is a function over such maps, so the order of a literal's parts is explicit.
  - `symmetricKeyProps` and the S3 bucket put their pinned values *before* `...rest`. The pins hold only because the same names were destructured out first.
  - The DynamoDB table and the auto-scaling group put them *after* the spread, so the pins win over anything.
  - The log group puts `...other` *after* `region` and `kmsKeyId`. A `kmsKeyId` in the caller's props (which the `LogGroupProps` type does not declare) therefore replaces the key ARN. `Logs.CustomResourceProperties` states this.
- `Iam` (iam.dfy): the part of IAM policy evaluation the statements rely on: wildcard patterns, principals, `Bool` conditions, and the rule that a deny overrides.
- `LogHandler` (log_handler.dfy): the handler as a pure function.
  - The CloudWatch Logs client is a `Provider`: every call resolves or rejects.
  - An invocation yields the ordered calls and the response it sent, if any.
- `Logs`, `Kms`, `ZeroTrust`, `S3`, `Efs`, `Rds`, `DynamoDb`, `SecretsManager`, `CodeBuild`: one module per wrapper.
  - Each has a function for the props its base construct receives.
  - Where the wrapper then overwrites fields of the synthesized resource, adds tags or extends a policy, a class holds those fields. Its constructor and methods update them.

Two things one might expect of a CloudFormation custom-resource handler are not what the code does, and the model follows the code:
- A request without `ResourceProperties` throws before any call or response. It is not turned into a FAILED response.
- A `RequestType` other than Create, Update or Delete gets no response at all.

## Model

| member | source | states |
|---|---|---|
| LogHandler.Create | lib/cfn/logs.js:36-50 | createLogGroup(LogGroupName, KmsKeyId) is the first call; putRetentionPolicy(LogGroupName, Retention) is made iff it resolved; the chain settles as the last call did |
| LogHandler.Remove | lib/cfn/logs.js:53-62 | no call and resolution with `true` unless RemovalPolicy is "destroy"; otherwise exactly one deleteLogGroup(LogGroupName), settling as it does |
| LogHandler.Handler | lib/cfn/logs.js:17-33 | at most two calls; any response sent carries LogGroupName as its physical resource id |
| LogHandler.CreateOrder | lib/cfn/logs.js:22-50 | Create: createLogGroup first; on success exactly one putRetentionPolicy for the same name and a response settled by it; on rejection no retention call and FAILED with `{ reason }` |
| LogHandler.RetentionOnlyAfterCreate | lib/cfn/logs.js:41-49 | for every event, a retention call is the second call and follows a resolved createLogGroup for the same group |
| LogHandler.UpdateIsNoOp | lib/cfn/logs.js:26-27 | Update makes no call and responds SUCCESS with empty data |
| LogHandler.DeleteOnlyOnDestroy | lib/cfn/logs.js:28-62 | Delete with RemovalPolicy "destroy": exactly one deleteLogGroup and its outcome as response; any other or no policy: no call, SUCCESS with `{ data: true }` |
| LogHandler.DeletionNeedsDestroy | lib/cfn/logs.js:57-61 | some call deletes the log group iff the event is a Delete whose RemovalPolicy is "destroy" |
| LogHandler.OneResponse | lib/cfn/logs.js:17-33 | exactly one response iff ResourceProperties is present and the type is Create, Update or Delete; its id is LogGroupName; no response means no call |
| LogHandler.FailedIffRejected | lib/cfn/logs.js:22-31 | the response is FAILED iff some call was rejected, and then it carries the reason of the last call |
| Logs.CustomResourceProperties | lib/logs.ts:62-70 | kmsKey is never forwarded; region and kmsKeyId = kmsKey.keyArn unless the caller's props carry those names; every other property unchanged |
| Logs.AllowLogGroupPatterns | lib/logs.ts:76-80 | logs:Create* and logs:Delete* match exactly the actions with those prefixes; logs:PutRetentionPolicy matches only itself |
| Logs.AllowLogGroupScope | lib/logs.ts:73-81 | the role statement allows an action iff it starts with logs:Create or logs:Delete or is logs:PutRetentionPolicy, on any resource |
| Logs.RoleAllowsEveryCall | lib/logs.ts:73-81 | each of createLogGroup, putRetentionPolicy and deleteLogGroup is allowed by the role statement |
| Logs.RoleCoversHandler | lib/logs.ts:44-48 | every call the handler makes in any run is allowed by the role the construct gives it |
| Logs.DestroyReachesHandler | lib/logs.ts:62-69 | a Delete event carrying the forwarded removalPolicy deletes the group named by the caller iff the caller's removal policy is DESTROY |
| Logs.Role.constructor | lib/logs.ts:44-46 | a role assumed by the given principal, with no statements or managed policies |
| Logs.Role.AddToPolicy | lib/logs.ts:47 | appends one statement and leaves the managed policies alone |
| Logs.Role.AddManagedPolicy | lib/logs.ts:48 | appends one managed policy and leaves the statements alone |
| Logs.LogGroup.constructor | lib/logs.ts:39-71 | logGroupName = props.logGroupName; a fresh role for lambda.<region>.amazonaws.com holding allowLogGroup and AWSLambdaBasicExecutionRole; timeout 300 s, runtime nodejs12.x, entry point index.handler; the custom-resource properties |
| Kms.SymmetricKeyProps | lib/kms.ts:56-66 | enableKeyRotation and trustAccountIdentities are true and removalPolicy is RETAIN whatever the input; every other property passes through |
| Kms.PinnedIgnoreCaller | lib/kms.ts:56-61 | inputs that differ only in the three pinned properties give the same result |
| Kms.SymmetricKeyPropsIdempotent | lib/kms.ts:56-66 | applying symmetricKeyProps twice equals applying it once |
| Kms.KeyProps | lib/kms.ts:31-34 | the alias is the caller's when truthy, otherwise the construct id; the three pins hold; everything else passes through |
| Kms.LogsGrantScope | lib/kms.ts:36-45 | the grant allows exactly logs.<region>.amazonaws.com, and exactly the actions starting with kms:Encrypt, kms:Decrypt, kms:ReEncrypt, kms:GenerateDataKey or kms:Describe |
| Kms.SymmetricKey.constructor | lib/kms.ts:31-34 | the key is created with KeyProps(id, props) and no added policy statements |
| Kms.SymmetricKey.GrantEncryptDecryptLogs | lib/kms.ts:36-45 | appends the CloudWatch Logs grant to the key policy |
| ZeroTrust.SshAccount | lib/zerotrust.ts:64 | the account is never empty: the policy's account when non-empty, otherwise ec2-user |
| ZeroTrust.PolicyTags | lib/zerotrust.ts:64-69 | privx-ssh-principals = account=policyName, privx-extender = gateway, privx-enable-auditing = yes iff audit is true, and no other tag |
| ZeroTrust.SplitAtEquals | lib/zerotrust.ts:65 | reading a tag value back: it splits iff it has an '=', the first part has none, and the parts rejoin to the value |
| ZeroTrust.PrincipalsRoundTrip | lib/zerotrust.ts:65 | an account without '=' and a policy name are recovered from `account=policyName` |
| ZeroTrust.PrincipalsTagReadsBack | lib/zerotrust.ts:64-65 | the principals tag of a policy reads back as its account and policy name |
| ZeroTrust.LaunchProps | lib/zerotrust.ts:59-62 | keyName = policyName whatever the caller passed; zeroTrustAccessPolicy is not forwarded; other props pass through |
| ZeroTrust.AutoScalingGroup.constructor | lib/zerotrust.ts:58-70 | the base receives LaunchProps and the group's tags are PolicyTags of the access policy |
| ZeroTrust.AutoScalingGroup.AddTag | lib/zerotrust.ts:65-68 | adds or replaces one tag |
| S3.BucketBaseProps | lib/s3.ts:33-37 | blockPublicAccess is BLOCK_ALL whatever the caller passed; kmsKey is not forwarded; other props pass through |
| S3.BlockPublicAccessIgnoresCaller | lib/s3.ts:33-37 | callers differing only in kmsKey and blockPublicAccess produce the same base props |
| S3.InsecureAccessDenied | lib/s3.ts:39-50 | any principal, any action on `${bucketArn}/<key>` without TLS is explicitly denied, whatever other statements the policy holds |
| S3.SecureAccessUnaffected | lib/s3.ts:39-50 | a request over TLS is decided by the rest of the policy as if the TLS statement were absent |
| S3.BucketLevelRequestsUncovered | lib/s3.ts:45 | the statement covers only the bucket's objects: a request on the bucket's own ARN (wildcard-free) is decided by the rest of the policy, with or without TLS |
| S3.BucketPolicy.constructor | lib/s3.ts:39 | an empty bucket policy with the given id |
| S3.BucketPolicy.AddStatements | lib/s3.ts:40 | appends one statement to the policy document |
| S3.Bucket.constructor | lib/s3.ts:32-63 | base props as BucketBaseProps; policy `${id}Policy` holding only the TLS statement; exactly one SSE rule, aws:kms under kmsKey.aliasName |
| Efs.FileSystemBaseProps | lib/efs.ts:32-33 | encrypted, kmsKey and kmsKeyId are not forwarded; every other prop is |
| Efs.CryptoFileSystem.constructor | lib/efs.ts:31-38 | the file system is encrypted whatever the caller passed, under props.kmsKeyId |
| Rds.InstanceBaseProps | lib/rds.ts:33-34 | storageEncrypted and kmsKey are not forwarded; every other prop is |
| Rds.DatabaseInstance.constructor | lib/rds.ts:32-39 | storage is encrypted whatever the caller passed, under kmsKey.aliasName |
| DynamoDb.TableProps | lib/dynamodb.ts:31-37 | encryption is CUSTOMER_MANAGED and encryptionKey is kmsKey, even if the caller's props carry either; kmsKey is not forwarded; other props pass through |
| DynamoDb.EncryptionIgnoresCaller | lib/dynamodb.ts:32-37 | callers with the same key and other props get the same table props, whatever encryption they asked for |
| SecretsManager.SecretBaseProps | lib/secretsmanager.ts:28-29 | kmsKey is not forwarded; secretName, removalPolicy and every other prop are |
| SecretsManager.Secret.constructor | lib/secretsmanager.ts:27-33 | the secret's kmsKeyId is kmsKey.aliasName |
| CodeBuild.ProjectBaseProps | lib/codebuild.ts:41-42 | logsConfig is not forwarded; every other prop is |
| CodeBuild.CloudWatchLogsConfig | lib/codebuild.ts:45-51 | CloudWatch logging is ENABLED, into logsConfig.logGroupName, in a stream named props.projectName |
| CodeBuild.LogsGoToTheLogGroup | lib/codebuild.ts:48 | a project given a c3 LogGroup logs into the name that LogGroup was given |
| CodeBuild.Project.constructor | lib/codebuild.ts:40-52 | base props as ProjectBaseProps and the CloudWatch logs configuration above |

## Left out

- The AWS SDK client, `cfn-response` and its HTTP request, the region of the client and the timing of promises (lib/cfn/logs.js:13-19). The client is an abstract `Provider` and the response is a returned value.
- A `cfn.send` that throws inside `.then` would reach `.catch` and send a second, FAILED response. The model assumes that sending does not fail.
- `RemovalPolicy != "destroy"` uses JavaScript's loose comparison. The model compares values of its own value domain and does not model coercion of objects such as `["destroy"]`.
- CDK internals are not modelled:
  - the construct tree and synthesis;
  - the capitalisation of custom-resource property keys (Logs.DestroyReachesHandler takes the renamed keys as a hypothesis);
  - tokens (`cdk.Aws.REGION` and `bucketArn` are string parameters);
  - logical IDs, the `Name` tag of the group, and the `alias/` prefix the framework adds to key aliases;
  - how a base construct derives its resource from the props it receives. Each class records those props and the fields the wrapper overwrites afterwards.
- The key-policy statements the framework itself creates, such as the account root statement. `Kms.SymmetricKey.policy` holds only the statements the wrapper adds. The `iam.Grant` that `grant` returns is not modelled.
- `kms.fromAlias` and the `Crypto` type are not part of this model. A key is an opaque value with `aliasName` and `keyArn`.
- Reading the handler source with `readFileSync` and creating the Lambda function (lib/logs.ts:50-60). Only its timeout, runtime and entry point are recorded.
- The `Omit<…>` restrictions of the props types (lib/s3.ts:18-19, lib/dynamodb.ts:17-18, lib/secretsmanager.ts:17-18, lib/codebuild.ts:27-28, lib/zerotrust.ts:43) exist only at compile time. The model has no static types, so it shows what happens when a caller gets around them:
  - DynamoDB and the auto-scaling group override such props;
  - S3 and Secrets Manager forward them to the base, but the fields they overwrite afterwards stay pinned;
  - CodeBuild forwards `encryptionKey`.
- IAM evaluation is reduced to what the statements here use. Case-insensitive action matching, `NotAction`, other condition operators and cross-account rules are not modelled.
- A property that is present with the value `undefined` is treated as absent.
- lib/index.ts only re-exports, and example/index.ts is an application script. Neither has logic of its own.
