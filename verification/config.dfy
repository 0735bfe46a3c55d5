/** The shipping service's configuration object, as a function of the process environment.
    Every setting is written `process.env.NAME || default`, so a variable that is unset and a
    variable set to the empty string both give the default. */
module Configuration {

  /** The process environment: variable name to value. */
  type Environment = map<string, string>

  /** `process.env.PORT || 8082` is the variable's text when set, and the number 8082 otherwise. */
  datatype Port = PortText(text: string) | PortNumber(number: int)

  datatype AwsConfig = AwsConfig(
    region: string,
    accessKeyId: string,
    secretAccessKey: string,
    sqsQueueUrl: string,
    snsTopicArn: string,
    cognitoUserPoolId: string,
    cognitoClientId: string)

  datatype ServerConfig = ServerConfig(port: Port, nodeEnv: string)

  datatype AppConfig = AppConfig(aws: AwsConfig, server: ServerConfig)

  const DefaultRegion := "us-east-1"
  const DefaultPort := 8082
  const DefaultNodeEnv := "development"

  /** The nine variables the configuration reads. */
  const VariableNames: set<string> := {
    "AWS_REGION", "AWS_ACCESS_KEY_ID", "AWS_SECRET_ACCESS_KEY", "SQS_QUEUE_URL", "SNS_TOPIC_ARN",
    "COGNITO_USER_POOL_ID", "COGNITO_CLIENT_ID", "PORT", "NODE_ENV" }

  /** What `process.env.NAME` reads as text: an unset variable reads like an empty one. */
  function Read(env: Environment, name: string): string
  {
    if name in env then env[name] else ""
  }

  /** `process.env.NAME || fallback`. */
  function Setting(env: Environment, name: string, fallback: string): (v: string)
    ensures v == (if Read(env, name) != "" then Read(env, name) else fallback)
  {
    if name in env && env[name] != "" then env[name] else fallback
  }

  function LoadConfig(env: Environment): (c: AppConfig)
    ensures c.aws.region == Setting(env, "AWS_REGION", DefaultRegion)
    ensures c.aws.accessKeyId == Setting(env, "AWS_ACCESS_KEY_ID", "")
    ensures c.aws.secretAccessKey == Setting(env, "AWS_SECRET_ACCESS_KEY", "")
    ensures c.aws.sqsQueueUrl == Setting(env, "SQS_QUEUE_URL", "")
    ensures c.aws.snsTopicArn == Setting(env, "SNS_TOPIC_ARN", "")
    ensures c.aws.cognitoUserPoolId == Setting(env, "COGNITO_USER_POOL_ID", "")
    ensures c.aws.cognitoClientId == Setting(env, "COGNITO_CLIENT_ID", "")
    ensures c.server.nodeEnv == Setting(env, "NODE_ENV", DefaultNodeEnv)
    ensures c.server.port == (if Read(env, "PORT") != "" then PortText(env["PORT"]) else PortNumber(DefaultPort))
  {
    AppConfig(
      AwsConfig(
        Setting(env, "AWS_REGION", DefaultRegion),
        Setting(env, "AWS_ACCESS_KEY_ID", ""),
        Setting(env, "AWS_SECRET_ACCESS_KEY", ""),
        Setting(env, "SQS_QUEUE_URL", ""),
        Setting(env, "SNS_TOPIC_ARN", ""),
        Setting(env, "COGNITO_USER_POOL_ID", ""),
        Setting(env, "COGNITO_CLIENT_ID", "")),
      ServerConfig(
        if "PORT" in env && env["PORT"] != "" then PortText(env["PORT"]) else PortNumber(DefaultPort),
        Setting(env, "NODE_ENV", DefaultNodeEnv)))
  }

  /** With nothing set, region is us-east-1, port 8082, environment "development", and every
      credential, queue URL, topic ARN and Cognito id is the empty string. */
  lemma EmptyEnvironmentGivesDefaults()
    ensures LoadConfig(map[]) == AppConfig(
      AwsConfig(DefaultRegion, "", "", "", "", "", ""),
      ServerConfig(PortNumber(DefaultPort), DefaultNodeEnv))
  {
  }

  /** A non-empty variable wins over its default. */
  lemma SetVariablesWin(env: Environment)
    requires forall name :: name in VariableNames ==> name in env && env[name] != ""
    ensures LoadConfig(env) == AppConfig(
      AwsConfig(env["AWS_REGION"], env["AWS_ACCESS_KEY_ID"], env["AWS_SECRET_ACCESS_KEY"],
        env["SQS_QUEUE_URL"], env["SNS_TOPIC_ARN"], env["COGNITO_USER_POOL_ID"], env["COGNITO_CLIENT_ID"]),
      ServerConfig(PortText(env["PORT"]), env["NODE_ENV"]))
  {
  }

  /** Only the nine variables matter, and only through what they read as: two environments
      that agree on them (an unset variable agreeing with an empty one) give the same config. */
  lemma OnlyNamedVariablesMatter(env1: Environment, env2: Environment)
    requires forall name :: name in VariableNames ==> Read(env1, name) == Read(env2, name)
    ensures LoadConfig(env1) == LoadConfig(env2)
  {
  }

  /** Setting a variable to the empty string is the same as leaving it unset. */
  lemma EmptyIsUnset(env: Environment, name: string)
    ensures LoadConfig(env[name := ""]) == LoadConfig(env - {name})
  {
    OnlyNamedVariablesMatter(env[name := ""], env - {name});
  }
}
