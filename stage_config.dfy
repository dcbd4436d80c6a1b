/**
 * The registration stack's per-stage settings: `dev` favours easy
 * clean-up and open CORS, `prod` keeps data, demands longer passwords,
 * gives the functions more time and memory and allows one origin.  Any
 * other stage is refused with a `ValueError`.
 */
module StageConfig {
  import opened Wrappers

  datatype RegistrationConfig = RegistrationConfig(
    stage: string,
    appName: string,
    removalPolicy: string,
    passwordMinLength: int,
    lambdaTimeout: int,
    lambdaMemory: int,
    corsOrigins: seq<string>)

  /** `get_registration_config`. */
  function RegistrationConfigFor(stage: string): (r: Result<RegistrationConfig>)
    ensures r.Ok? <==> stage == "dev" || stage == "prod"
    ensures r.Ok? ==> r.value.stage == stage && r.value.appName == "MusicApp"
    ensures r.Err? ==> r.error == "Unknown stage: " + stage
  {
    if stage == "dev" then
      Ok(RegistrationConfig(stage, "MusicApp", "DESTROY", 8, 30, 256, ["*"]))
    else if stage == "prod" then
      Ok(RegistrationConfig(stage, "MusicApp", "RETAIN", 12, 60, 512, ["https://yourdomain.com"]))
    else
      Err("Unknown stage: " + stage)
  }

  /** The development settings. */
  lemma DevSettings()
    ensures var c := RegistrationConfigFor("dev").value;
            c.removalPolicy == "DESTROY" && c.passwordMinLength == 8 && c.lambdaTimeout == 30
            && c.lambdaMemory == 256 && c.corsOrigins == ["*"]
  {
  }

  /** The production settings. */
  lemma ProdSettings()
    ensures var c := RegistrationConfigFor("prod").value;
            c.removalPolicy == "RETAIN" && c.passwordMinLength == 12 && c.lambdaTimeout == 60
            && c.lambdaMemory == 512 && c.corsOrigins == ["https://yourdomain.com"]
  {
  }

  /**
   * Production is the stricter and larger stage: it keeps its data, asks
   * for longer passwords, allows no wildcard origin, and gives functions
   * at least as much time and memory as development.
   */
  lemma ProdStricterThanDev()
    ensures var dev, prod := RegistrationConfigFor("dev").value, RegistrationConfigFor("prod").value;
            prod.passwordMinLength > dev.passwordMinLength
            && prod.removalPolicy == "RETAIN" && dev.removalPolicy == "DESTROY"
            && "*" in dev.corsOrigins && "*" !in prod.corsOrigins
            && prod.lambdaTimeout >= dev.lambdaTimeout && prod.lambdaMemory >= dev.lambdaMemory
  {
  }
}
